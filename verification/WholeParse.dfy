// The parse of a whole program (parser/desc.go Parse).
module WholeParse {
  import opened Pratt
  import opened Descent
  import opened Grammar
  import opened Parsing

  // A whole parse: below the user's environment are one that is never left
  // and the one of the builtins.
  method Parse(tokens: seq<Tok>, builtins: set<string>) returns (r: Ending, prog: Program, errs: nat)
    ensures
      match Descent.Prog(Beginning(tokens, builtins))
      case Abort => r == GaveUp
      case Go(end) => r == Ended(end.failed) && prog == end.s.prog && errs == end.s.errs < MAX_ERRORS
  {
    var s := Beginning(tokens, builtins);
    var p := new Parser(tokens, s.envs);
    r := p.Prog(s);
    prog, errs := p.prog, p.errs;
  }

  function Beginning(tokens: seq<Tok>, builtins: set<string>): (s: State)
    ensures Ready(s)
  {
    State(tokens, 0, [{}, builtins, {}], Program([], [], []))
  }

  // The text of a well-formed program is parsed into its trees, without an
  // error.
  method ParseText(xs: seq<SectText>, builtins: set<string>) returns (prog: Program)
    requires ProgFits([{}, builtins, {}], Program([], [], []), xs)
    ensures prog == AddSects(Program([], [], []), xs)
  {
    ProgramRoundTrip(Beginning(ProgTokens(xs), builtins), xs);
    var r, p, errs := Parse(ProgTokens(xs), builtins);
    assert r == Ended(false) && errs == 0;
    prog := p;
  }
}
