// What a program does when it runs (tree/eval.go, tree/interp.go, the bodies
// in tree/builtins.go and in extern/), written as functions.  The methods of
// module Runtime are proved against these functions.
module Semantics {
  import opened Wrappers
  import opened Types
  import opened Int64
  import opened Syntax

  // ----- operators on values -----

  // Why a run stops.  NoQuery is a panic inside a query on the robot's state.
  datatype Fault = DivZero | BadOp | NoQuery | Unmodelled

  // The value left in the symbol by an operation, and the error it reports.
  datatype OpRes = OpRes(v: Value, err: Option<Fault>)

  const MAX_STR := 4096

  predicate StrLess(a: string, b: string) {
    if b == "" then false
    else if a == "" then true
    else if a[0] != b[0] then a[0] < b[0]
    else StrLess(a[1..], b[1..])
  }

  // A comparison, from the two facts every ordered type offers.
  predicate Compare(op: Op, less: bool, equal: bool)
    requires IsCompareOp(op)
  {
    match op
    case OpL => less
    case OpG => !less && !equal
    case OpEq => equal
    case OpNEq => !equal
    case OpGEq => !less
    case OpLEq => less || equal
  }

  function IntOp(a: int64, b: int64, op: Op): OpRes {
    if IsCompareOp(op) then OpRes(BoolV(Compare(op, a < b, a == b)), None)
    else match op
      case OpXor => OpRes(IntV(BitOp64(BXor, a, b)), None)
      case OpCompl => OpRes(IntV(Compl(b)), None)
      case OpAdd => OpRes(IntV(Wrap(a + b)), None)
      case OpSub => OpRes(IntV(Wrap(a - b)), None)
      case OpMul => OpRes(IntV(Wrap(a * b)), None)
      case OpDiv => if b == 0 then OpRes(IntV(a), Some(DivZero)) else OpRes(IntV(Wrap(Quo(a, b))), None)
      case OpMod => if b == 0 then OpRes(IntV(a), Some(DivZero)) else OpRes(IntV(Rem(a, b)), None)
      case OpBitAnd => OpRes(IntV(BitOp64(BAnd, a, b)), None)
      case OpBitOr => OpRes(IntV(BitOp64(BOr, a, b)), None)
      case _ => OpRes(IntV(a), None)
  }

  function IntFromBool(b: bool): int64 {
    if b then 1 else 0
  }

  function BoolOp(a: bool, b: bool, op: Op): OpRes {
    if IsCompareOp(op) then
      OpRes(BoolV(Compare(op, IntFromBool(a) < IntFromBool(b), a == b)), None)
    else match op
      case OpLogNeg => OpRes(BoolV(!a), None)
      case OpLogAnd => OpRes(BoolV(a && b), None)
      case OpLogOr => OpRes(BoolV(a || b), None)
      case _ => OpRes(BoolV(a), None)
  }

  function StrOp(a: string, b: string, op: Op): OpRes {
    if IsCompareOp(op) then OpRes(BoolV(Compare(op, StrLess(a, b), a == b)), None)
    else if op == OpAdd then OpRes(StrV(Cut(a + b)), None)
    else OpRes(StrV(a), None)
  }

  function Cut(s: string): string {
    if |s| > MAX_STR then s[..MAX_STR] else s
  }

  function BinExpr(a: Value, b: Value, op: Op): OpRes {
    if !(IsTypeValCompat(ValueType(a), ValueType(b)) && IsCompatOp(ValueType(a), op)) then
      OpRes(UndefV, Some(BadOp))
    else if a.UndefV? || b.UndefV? then
      OpRes(if IsCompareOp(op) then BoolV(BoolField(a)) else UndefV, None)
    else match a
      case IntV(i) => IntOp(i, b.i, op)
      case BoolV(x) => BoolOp(x, b.b, op)
      case StrV(s) => StrOp(s, b.s, op)
  }

  // The unary operators are + - ~ on integers and ! on booleans.
  function UnExpr(a: Value, op: Op): Value {
    if !IsCompatOp(ValueType(a), op) then UndefV
    else match a
      case IntV(i) => IntOp(0, i, op).v
      case BoolV(x) => if op == OpLogNeg then BoolV(!x) else UndefV
      case StrV(s) => if op == OpAdd then StrV(s) else UndefV
      case UndefV => UndefV
  }

  predicate IsShort(op: Op, left: Value) {
    (op == OpLogOr && BoolField(left)) || (op == OpLogAnd && !BoolField(left))
  }

  function Render(v: Value): string {
    match v
    case IntV(i) => if i < 0 then "-" + Digits(-(i as int)) else Digits(i)
    case BoolV(b) => if b then "true" else "false"
    case StrV(s) => s
    case UndefV => "Unk_Type"
  }

  function Digits(n: nat): string {
    var d := ["0123456789"[n % 10]];
    if n < 10 then d else Digits(n / 10) + d
  }

  // ----- the world outside the program -----

  datatype MsgCtx = MsgCtx(topic: string, rostype: string, publishers: seq<string>,
                           subscribers: seq<string>, nodes: seq<string>, topics: seq<string>)

  // What the outside can see of a run, in order.
  datatype Event =
    | AlertEv(text: string)
    | ExecEv(path: string, args: seq<string>)
    | ShowEv(truth: bool, shown: seq<Value>)
    | TriggerEv(from: string, to: string, done: bool)
    | CrashEv(text: string)

  // Everything a run depends on besides the program: the declared levels, the
  // message at hand (None during a poll), and the answers of the operating
  // system.  An answer may depend on everything done so far.
  datatype World = World(
    levels: seq<LevelDecl>,
    msg: Option<MsgCtx>,
    query: (Fn, seq<Value>, seq<Event>) -> Option<bool>,
    exec: (seq<Event>, string, seq<string>) -> bool,
    scripts: (seq<Event>, string, string) -> bool)

  datatype Sig = Sig(usr1: nat, usr2: nat)

  // vars holds every variable but CurrLevel, whose value is lvl.
  datatype St = St(vars: map<string, Value>, lvl: int64, init: bool, trace: seq<Event>)

  const CURR_LEVEL := "CurrLevel"
  const TIME := "Time"
  const UPTIME := "Uptime"
  const BUILTIN_VARS := {CURR_LEVEL, TIME, UPTIME}

  function ReadVar(x: string, st: St): Option<Value> {
    if x == CURR_LEVEL then Some(IntV(st.lvl))
    else if x in st.vars then Some(st.vars[x])
    else None
  }

  // ----- queries with a body of their own here -----

  predicate IsEmptyList(xs: seq<string>) {
    xs == [] || xs == [""]
  }

  predicate MatchSubset(xs: seq<string>, subset: seq<string>) {
    IsEmptyList(subset) || forall s | s in subset :: s in xs
  }

  function StrFields(vs: seq<Value>): (ss: seq<string>)
    ensures |ss| == |vs|
  {
    if vs == [] then [] else [StrField(vs[0])] + StrFields(vs[1..])
  }

  predicate HasBody(f: Fn) {
    f in {FMsgTypeIn, FTopicIn, FPublishersInclude, FSubscribersInclude, FNodesInclude,
          FTopicsInclude, FServicesInclude}
  }

  // None is a panic: a nil message is dereferenced, or a missing argument read.
  function QueryBody(f: Fn, args: seq<string>, w: World, vs: seq<Value>, trace: seq<Event>): Option<bool>
    requires HasBody(f)
  {
    if f == FTopicIn && args == [] then Some(false)
    else if f == FServicesInclude then
      if args == [] then None else w.query(f, vs, trace)
    else if w.msg.None? then None
    else
      var m := w.msg.value;
      match f
      case FMsgTypeIn => Some(args == [] || m.rostype in args)
      case FTopicIn => Some(m.topic in args)
      case FPublishersInclude => Some(MatchSubset(m.publishers, args))
      case FSubscribersInclude => Some(MatchSubset(args, m.subscribers))
      case FNodesInclude => Some(MatchSubset(m.nodes, args))
      case FTopicsInclude => Some(MatchSubset(m.topics, args))
  }

  // ----- expressions -----

  datatype Res = Ok(v: Value, sig: Sig) | Err(fault: Fault)

  datatype ResSeq = Oks(vs: seq<Value>, sig: Sig) | Errs(fault: Fault)

  // A pending user signal is consumed by the call that sees it.
  function SignalStep(name: string, sig: Sig): (bool, Sig) {
    if name == "SIGUSR1" && sig.usr1 > 0 then (true, sig.(usr1 := sig.usr1 - 1))
    else if name == "SIGUSR2" && sig.usr2 > 0 then (true, sig.(usr2 := sig.usr2 - 1))
    else (false, sig)
  }

  function LevelName(w: World, i: int64): string {
    if 0 <= i < |w.levels| then w.levels[i].name else ""
  }

  function CallFn(w: World, f: Fn, vs: seq<Value>, st: St, sig: Sig): Res {
    if f == FSignal then
      if |vs| == 0 then Err(NoQuery)
      else var (ok, sig') := SignalStep(StrField(vs[0]), sig); Ok(BoolV(ok), sig')
    else if f == FLevelName then
      if |vs| == 0 then Err(NoQuery)
      else Ok(StrV(if vs[0].IntV? then LevelName(w, vs[0].i) else LevelName(w, 0)), sig)
    else if f == FString then
      if |vs| == 0 then Err(NoQuery) else Ok(StrV(Render(vs[0])), sig)
    else
      var q := if HasBody(f) then QueryBody(f, StrFields(vs), w, vs, st.trace) else w.query(f, vs, st.trace);
      if q.None? then Err(NoQuery) else Ok(BoolV(q.value), sig)
  }

  function Eval(w: World, e: Expr, st: St, sig: Sig): Res
    decreases e
  {
    match e
    case Const(_, v) => Ok(v, sig)
    case Level(_, i) => Ok(IntV(i), sig)
    case Pattern(s) => Ok(StrV(s), sig)
    case Var(x, _) =>
      var v := ReadVar(x, st);
      if v.None? then Err(BadOp) else Ok(v.value, sig)
    case Call(f, args, _) =>
      if IsAction(f) then Err(Unmodelled)
      else
        var rs := EvalAll(w, args, st, sig);
        if rs.Errs? then Err(rs.fault) else CallFn(w, f, rs.vs, st, rs.sig)
    case Bin(op, l, r, _) =>
      var a := Eval(w, l, st, sig);
      if a.Err? || IsShort(op, a.v) then a
      else
        var b := Eval(w, r, st, a.sig);
        if b.Err? then b
        else
          var c := BinExpr(a.v, b.v, op);
          if c.err.Some? then Err(c.err.value) else Ok(c.v, b.sig)
    case Un(op, r, _) =>
      var a := Eval(w, r, st, sig);
      if a.Err? then a else Ok(UnExpr(a.v, op), a.sig)
  }

  // Arguments are evaluated from left to right.
  function EvalAll(w: World, es: seq<Expr>, st: St, sig: Sig): (r: ResSeq)
    ensures r.Oks? ==> |r.vs| == |es|
    decreases es
  {
    if es == [] then Oks([], sig)
    else
      var a := Eval(w, es[0], st, sig);
      if a.Err? then Errs(a.fault)
      else
        var rest := EvalAll(w, es[1..], st, a.sig);
        if rest.Errs? then rest else Oks([a.v] + rest.vs, rest.sig)
  }

  // ----- alert levels -----

  // The decision taken by trigger, and the state after it.  The scripts of
  // the two levels are run only when the move is allowed; init is set by the
  // first attempt that gets that far.
  function TriggerStep(w: World, to: int64, toName: string, st: St): (bool, St) {
    var from := st.lvl;
    var fromName := LevelName(w, from);
    var isFirst := !st.init;
    if toName == fromName && !isFirst then (true, st.(lvl := to))
    else if to > |w.levels| || to < 0 then (false, st)
    else
      var st1 := st.(init := true);
      var higher := to > from || isFirst;
      var lower := IsSoft(w, from) && from - 1 == to;
      if !higher && !lower then (false, st1)
      else
        var done := w.scripts(st.trace, fromName, toName);
        var st2 := st1.(trace := st.trace + [TriggerEv(fromName, toName, done)]);
        if done then (true, st2.(lvl := to)) else (false, st2)
  }

  predicate IsSoft(w: World, i: int64) {
    0 <= i < |w.levels| && w.levels[i].soft
  }

  // ----- actions -----

  datatype ActRes =
    | ActOk(success: bool, st: St, sig: Sig)
    | ActStop(trace: seq<Event>)
    | ActFault(fault: Fault)

  function WithTrace(st: St, ev: Event): St {
    st.(trace := st.trace + [ev])
  }

  // Actions whose arguments are all evaluated.
  function DoAction(w: World, f: Fn, vs: seq<Value>, st: St, sig: Sig): ActRes {
    match f
    case FTrue => ActOk(true, WithTrace(st, ShowEv(true, vs)), sig)
    case FFalse => ActOk(false, WithTrace(st, ShowEv(false, vs)), sig)
    case FAlert =>
      if |vs| == 0 then ActFault(NoQuery)
      else ActOk(true, WithTrace(st, AlertEv(StrField(vs[0]))), sig)
    case FCrash =>
      if |vs| == 0 then ActFault(NoQuery)
      else ActStop(st.trace + [CrashEv(StrField(vs[0]))])
    case FExec =>
      if |vs| == 0 then ActFault(NoQuery)
      else
        var path, args := StrField(vs[0]), StrFields(vs[1..]);
        ActOk(w.exec(st.trace, path, args), WithTrace(st, ExecEv(path, args)), sig)
    case _ => ActFault(Unmodelled)
  }

  // One action of a chain.  A set on CurrLevel, and a trigger whose argument
  // is not a level, are outside this model.
  function RunAct(w: World, e: Expr, st: St, sig: Sig): ActRes {
    if e.Call? && IsAction(e.fn) then
      if e.fn == FSet then
        if |e.args| != 2 || !e.args[0].Var? || e.args[0].name == CURR_LEVEL then ActFault(Unmodelled)
        else
          var r := Eval(w, e.args[1], st, sig);
          if r.Err? then ActFault(r.fault)
          else ActOk(true, st.(vars := st.vars[e.args[0].name := r.v]), r.sig)
      else if e.fn == FTrigger then
        if |e.args| != 1 || !e.args[0].Level? then ActFault(Unmodelled)
        else
          var (ok, st') := TriggerStep(w, e.args[0].idx, e.args[0].name, st);
          ActOk(ok, st', sig)
      else
        var rs := EvalAll(w, e.args, st, sig);
        if rs.Errs? then ActFault(rs.fault) else DoAction(w, e.fn, rs.vs, st, rs.sig)
    else
      var r := Eval(w, e, st, sig);
      if r.Err? then ActFault(r.fault) else ActOk(BoolField(r.v), st, r.sig)
  }

  // ----- chains, rules, programs -----

  predicate Taken(con: Con, success: bool) {
    match con
    case Then => success
    case NThen => !success
    case Comma => true
  }

  datatype RunRes = Done(st: St, sig: Sig) | Stop(trace: seq<Event>) | Fail(fault: Fault)

  function RunChain(w: World, acts: seq<Act>, success: bool, st: St, sig: Sig): RunRes
    decreases acts
  {
    if acts == [] || !Taken(acts[0].con, success) then Done(st, sig)
    else
      var r := RunAct(w, acts[0].what, st, sig);
      match r
      case ActOk(ok, st', sig') => RunChain(w, acts[1..], ok, st', sig')
      case ActStop(t) => Stop(t)
      case ActFault(f) => Fail(f)
  }

  function RunRule(w: World, r: Rule, st: St, sig: Sig): RunRes {
    var v := Eval(w, r.expr, st, sig);
    if v.Err? then Fail(v.fault)
    else if BoolField(v.v) then RunChain(w, r.acts, true, st, v.sig)
    else Done(st, v.sig)
  }

  function RunRules(w: World, rs: seq<Rule>, st: St, sig: Sig): RunRes
    decreases rs
  {
    if rs == [] then Done(st, sig)
    else
      var r := RunRule(w, rs[0], st, sig);
      if r.Done? then RunRules(w, rs[1..], r.st, r.sig) else r
  }

  // Only the first section for this kind of message is run.
  function RunSections(w: World, ss: seq<Section>, kind: string, st: St, sig: Sig): RunRes
    decreases ss
  {
    if ss == [] then Done(st, sig)
    else if ss[0].id == kind then RunRules(w, ss[0].rules, st, sig)
    else RunSections(w, ss[1..], kind, st, sig)
  }

  // The predefined variables get the clock before every run.
  function SetPredef(st: St, time: int64, uptime: int64): St {
    st.(vars := st.vars[TIME := IntV(time)][UPTIME := IntV(uptime)])
  }

  // What arrives while the program serves a robot: messages and polls, each
  // run in a world of its own, and user signals.
  datatype Input =
    | Run(w: World, kind: string, time: int64, uptime: int64)
    | Usr1
    | Usr2

  // Every run knows the same levels.
  predicate SameLevels(inputs: seq<Input>, levels: seq<LevelDecl>) {
    forall k | 0 <= k < |inputs| :: inputs[k].Run? ==> inputs[k].w.levels == levels
  }

  function RunStream(p: Prog, inputs: seq<Input>, st: St, sig: Sig): RunRes
    decreases inputs
  {
    if inputs == [] then Done(st, sig)
    else match inputs[0]
      case Usr1 => RunStream(p, inputs[1..], st, sig.(usr1 := sig.usr1 + 1))
      case Usr2 => RunStream(p, inputs[1..], st, sig.(usr2 := sig.usr2 + 1))
      case Run(w, kind, t, u) =>
        var r := RunSections(w, p.sections, kind, SetPredef(st, t, u), sig);
        if r.Done? then RunStream(p, inputs[1..], r.st, r.sig) else r
  }
}
