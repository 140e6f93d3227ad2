// Shapes of expressions, rule chains and programs (tree/tree.go, tree/sym.go),
// and the table of builtin functions (tree/builtins.go).
module Syntax {
  import opened Types
  import opened Int64

  // The value part of a symbol.  Floating point is not part of this model.
  datatype Value = IntV(i: int64) | BoolV(b: bool) | StrV(s: string) | UndefV

  function ValueType(v: Value): TypeVal {
    match v
    case IntV(_) => TVInt
    case BoolV(_) => TVBool
    case StrV(_) => TVString
    case UndefV => TVUndef
  }

  // A symbol keeps its boolean and its string in fields of their own, which
  // are false and empty unless the symbol has that type.
  function BoolField(v: Value): bool {
    v.BoolV? && v.b
  }

  function StrField(v: Value): string {
    if v.StrV? then v.s else ""
  }

  datatype Fn =
    | FSet | FTrigger | FAlert | FExec | FTrue | FFalse | FCrash
    | FMsgSubtype | FMsgTypeIn | FPayload | FPlugin | FPublisherCount | FPublishers
    | FPublishersInclude | FSubscriberCount | FSubscribers | FSubscribersInclude
    | FTopicIn | FTopicMatches
    | FNodeCount | FNodes | FNodesInclude | FService | FServiceCount | FServices
    | FServicesInclude | FTopicCount | FTopicPublisherCount | FTopicPublishers
    | FTopicPublishersInclude | FTopics | FTopicsInclude | FTopicSubscriberCount
    | FTopicSubscribers | FTopicSubscribersInclude
    | FSignal | FIdsAlert | FLevelName | FString

  // The functions whose name ends in "in" or in "include", except plugin.
  predicate IsIncludeName(f: Fn) {
    f in {FMsgTypeIn, FTopicIn, FPublishersInclude, FSubscribersInclude, FNodesInclude,
          FServicesInclude, FTopicsInclude, FTopicPublishersInclude, FTopicSubscribersInclude}
  }

  datatype FnSig = FnSig(args: seq<Type>, ret: Type, variadic: bool, action: bool)

  const MSG_STR := Type(TVString, TEMsg)
  const MSG_INT := Type(TVInt, TEMsg)
  const GRAPH_STR := Type(TVString, TEGraph)
  const GRAPH_INT := Type(TVInt, TEGraph)
  const EXTERNAL_STR := Type(TVString, TEExternal)

  function Query(args: seq<Type>, variadic: bool): FnSig {
    FnSig(args, BOOL_TYPE, variadic, false)
  }

  function Action(args: seq<Type>, variadic: bool): FnSig {
    FnSig(args, BOOL_TYPE, variadic, true)
  }

  function SigOf(f: Fn): (s: FnSig)
    ensures s.variadic ==> |s.args| > 0
    ensures s.ret == BOOL_TYPE || s.ret == STRING_TYPE
  {
    match f
    case FSet => Action([UNIV_TYPE, UNIV_TYPE], false)
    case FTrigger => Action([INT_TYPE], false)
    case FAlert => Action([STRING_TYPE], false)
    case FExec => Action([STRING_TYPE, STRING_TYPE], true)
    case FTrue => Action([UNIV_TYPE], true)
    case FFalse => Action([UNIV_TYPE], true)
    case FCrash => Action([STRING_TYPE], false)
    case FMsgSubtype => Query([MSG_STR, MSG_STR], false)
    case FMsgTypeIn => Query([MSG_STR], true)
    case FPayload => Query([MSG_STR], false)
    case FPlugin => Query([MSG_STR], false)
    case FPublisherCount => Query([MSG_INT, MSG_INT], false)
    case FPublishers => Query([MSG_STR], true)
    case FPublishersInclude => Query([MSG_STR], true)
    case FSubscriberCount => Query([MSG_INT, MSG_INT], false)
    case FSubscribers => Query([MSG_STR], true)
    case FSubscribersInclude => Query([MSG_STR], true)
    case FTopicIn => Query([MSG_STR], true)
    case FTopicMatches => Query([MSG_STR], false)
    case FNodeCount => Query([GRAPH_INT, GRAPH_INT], false)
    case FNodes => Query([GRAPH_STR], true)
    case FNodesInclude => Query([GRAPH_STR], true)
    case FService => Query([GRAPH_STR], false)
    case FServiceCount => Query([GRAPH_INT, GRAPH_INT], false)
    case FServices => Query([GRAPH_STR], true)
    case FServicesInclude => Query([GRAPH_STR], true)
    case FTopicCount => Query([GRAPH_INT, GRAPH_INT], false)
    case FTopicPublisherCount => Query([GRAPH_STR, GRAPH_INT, GRAPH_INT], false)
    case FTopicPublishers => Query([GRAPH_STR, GRAPH_STR], true)
    case FTopicPublishersInclude => Query([GRAPH_STR, GRAPH_STR], true)
    case FTopics => Query([GRAPH_STR], true)
    case FTopicsInclude => Query([GRAPH_STR], true)
    case FTopicSubscriberCount => Query([GRAPH_STR, GRAPH_INT, GRAPH_INT], false)
    case FTopicSubscribers => Query([GRAPH_STR, GRAPH_STR], false)
    case FTopicSubscribersInclude => Query([GRAPH_STR, GRAPH_STR], true)
    case FSignal => Query([EXTERNAL_STR], false)
    case FIdsAlert => Query([EXTERNAL_STR], false)
    case FLevelName => FnSig([INT_TYPE], STRING_TYPE, false, false)
    case FString => FnSig([UNIV_TYPE], STRING_TYPE, false, false)
  }

  predicate IsAction(f: Fn) {
    f in {FSet, FTrigger, FAlert, FExec, FTrue, FFalse, FCrash}
  }

  // Expression nodes.  dt is the type that annotation leaves in the node; for
  // a variable it is its declared type.  A constant made by the folder or
  // written as a literal has the name "lit".  Pattern is a string constant
  // already compiled to a yara rule or to a regular expression.
  datatype Expr =
    | Const(name: string, v: Value)
    | Level(name: string, idx: int64)
    | Var(name: string, dt: Type)
    | Call(fn: Fn, args: seq<Expr>, dt: Type)
    | Bin(op: Op, left: Expr, right: Expr, dt: Type)
    | Un(op: Op, right: Expr, dt: Type)
    | Pattern(text: string)

  const LIT := "lit"

  function Lit(v: Value): Expr {
    Const(LIT, v)
  }

  // The Name field of the symbol of a node.  Names are only compared with the
  // name of a variable, and a variable never has the name of a builtin.
  datatype SymName = Ident(id: string) | Builtin(f: Fn)

  function NameOf(e: Expr): SymName {
    match e
    case Const(n, _) => Ident(n)
    case Level(n, _) => Ident(n)
    case Var(n, _) => Ident(n)
    case Call(f, _, _) => Builtin(f)
    case Bin(_, _, _, _) => Ident(LIT)
    case Un(_, _, _) => Ident(LIT)
    case Pattern(_) => Ident(LIT)
  }

  predicate IsConstant(e: Expr) {
    e.Const? || e.Level?
  }

  // The integer field of a constant symbol.
  function ConstValue(e: Expr): Value
    requires IsConstant(e)
  {
    if e.Const? then e.v else IntV(e.idx)
  }

  // An action and the connector written before it; the first action of a
  // rule carries a comma.
  datatype Con = Then | NThen | Comma

  datatype Act = Act(con: Con, what: Expr)

  datatype Rule = Rule(expr: Expr, acts: seq<Act>)

  datatype Section = Section(id: string, rules: seq<Rule>)

  datatype LevelDecl = LevelDecl(name: string, soft: bool)

  datatype Prog = Prog(sections: seq<Section>)

  function Size(e: Expr): nat {
    match e
    case Const(_, _) => 1
    case Level(_, _) => 1
    case Var(_, _) => 1
    case Pattern(_) => 1
    case Call(_, args, _) => 1 + Sizes(args)
    case Bin(_, l, r, _) => 1 + Size(l) + Size(r)
    case Un(_, r, _) => 1 + Size(r)
  }

  function Sizes(es: seq<Expr>): nat {
    if es == [] then 0 else Size(es[0]) + Sizes(es[1..])
  }

  // The variables an expression reads.
  function Reads(e: Expr): set<string> {
    match e
    case Var(x, _) => {x}
    case Call(_, args, _) => ReadsAll(args)
    case Bin(_, l, r, _) => Reads(l) + Reads(r)
    case Un(_, r, _) => Reads(r)
    case _ => {}
  }

  function ReadsAll(es: seq<Expr>): set<string> {
    if es == [] then {} else Reads(es[0]) + ReadsAll(es[1..])
  }

  // The user signals there are.
  predicate IsSignalName(name: string) {
    name == "SIGUSR1" || name == "SIGUSR2"
  }

  // A call of signal is the only expression with an effect, and none if what
  // it names is not a user signal.
  predicate Quiet(e: Expr) {
    match e
    case Call(f, args, _) => (f == FSignal ==> NamesNoSignal(args)) && QuietAll(args)
    case Bin(_, l, r, _) => Quiet(l) && Quiet(r)
    case Un(_, r, _) => Quiet(r)
    case _ => true
  }

  predicate NamesNoSignal(args: seq<Expr>) {
    args != [] && args[0].Const? && !IsSignalName(StrField(args[0].v))
  }

  predicate QuietAll(es: seq<Expr>) {
    es == [] || (Quiet(es[0]) && QuietAll(es[1..]))
  }
}
