# A verified model of the RIPS rule engine

RIPS watches a robot: it reads the messages of the robot's network, runs a
program of rules over each of them, and raises or lowers an alert level.  This
project models the engine that reads, checks, folds and runs such programs,
and the process that serves them, and proves properties of that model.

* **The language.**  `Syntax` and `Types` hold the trees and the table of
  builtins, `Semantics` says what a program does as functions over a store, a
  level, two signal counters and the trace of everything visible from outside.
  All answers of the operating system and of the robot are functions in a
  `World`, which may depend on everything done so far.
  `OperatorLaws` and `RunLaws` say what operators, actions, chains and rules do
  in terms of integers, texts and states alone.
* **The checker** (`TypeCheck`, `Soundness`): the error count is zero exactly
  for the programs of the typing rules, and such programs do not go wrong.
  `TypeLaws` says which calls pass, function by function.
* **The folder** (`Fold`, `Chain`, `ChainFold`, `FoldLoop`, `ProgFold`): folding
  preserves every run that does not fault, and `FoldComplete` says what it
  achieves: which expressions become constants, what is reported, and that
  nothing is left to fold.  `Conditions` holds what a chain has
  to meet, read off the chain as written; `SameName`, `ChainExact`, `CleanExact`,
  `SetTwice`, `Dropped` and `SecondPass` say exactly when the folder can be seen
  or reports too much, and `FoldLimits` and `SetLimits` have the programs it
  breaks.
* **The interpreter** (`Cells`, `Runtime`): symbols in a heap, where the current
  level points at a declared level and the clock is written through pointers,
  proved against `Semantics`.  `Levels` and `Signals` are about whole runs.
* **The parser and the lexer** (`Pratt`, `Printing`, `Descent`, `Grammar`,
  `Parsing`, `Lexing`, `Scanning`, `FromText`): both as classes proved against
  functions, and those functions proved to read exactly one tree from each text.
  `Precedence` is a grammar with a nonterminal for each line of operators,
  `Lexemes` describes the tokens character by character, `Mistakes` counts what
  is reported, and `Leftovers` follows what the lexer keeps after an error.
* **The process** (`Dispatch`, `Ledger`, `Service`): decoder, dispatcher, polls and
  signals as a step system; the theorems about runs carry over to it.

`dafny verify dfyconfig.toml` checks the whole project.

## Model

Paths are relative to the root of the repository.

| member | source | states |
|---|---|---|
| Int64.QuoRemLaw | tree/eval.go:124-134 | the quotient and the remainder of the model truncate toward zero, as in section "Integer operators" of the Go Programming Language Specification |
| Int64.QuoWraps | tree/eval.go:124-134 | only the least integer divided by -1 overflows, to itself, as in section "Integer overflow" |
| Int64.BitOp64Bit | tree/eval.go:119-138 | the bitwise operators of the model work bit by bit, at every bit |
| Int64.ComplBit | tree/eval.go:119-138 | so does the complement |
| OperatorLaws.EvalMeaning | tree/eval.go:108-234 | what each binary operator makes of two values: on integers + - * are right modulo 2^64 and in range, & &#124; ^ ~ bit by bit, / and % truncate toward zero and are an error on zero; comparisons on integers, truth values and strings; concatenation cut at 4096 characters; values of two types, and an operator not made for them, are a fault |
| OperatorLaws.DivisionMeaning | tree/eval.go:124-134 | a == q * b + r with r smaller than b and with the sign of a, but for a zero divisor, and the least integer divided by -1 |
| OperatorLaws.ShortCircuit | tree/eval.go:311-326 | && and &#124;&#124; look at their right side only if the left one does not decide |
| OperatorLaws.UnaryMeaning | tree/eval.go:236-245 | the signs, the complement and the negation |
| OperatorLaws.OperatorTyped | types/type.go:160-195 | an operator node is typed if and only if its operands have one type and the operator is on the list for it |
| OperatorLaws.TypedExactly | types/type.go:160-195 | the operators that are typed are exactly those that do not fault on every pair of values |
| TypeCheck.ErrorsExact | tree/type.go:133-273 | the checker finds no error in an annotated expression if and only if the typing rules give it a type and its special arguments are right |
| TypeCheck.CallErrorsExact | tree/type.go:148-237 | the same for calls, with arity, variadic arguments, actions at the root only, and the rule for set |
| TypeCheck.AnnotateTyped | tree/type.go:282-403 | annotation leaves in a node exactly the type the typing rules give it, never a float or undefined one |
| TypeCheck.AnnotateKeeps | tree/type.go:282-403 | annotation changes neither the type of an expression nor what the special checks look at |
| TypeLaws.CallAccepted | tree/builtins.go:291-600 | which numbers and types of arguments each function takes, by groups of functions |
| TypeLaws.CallTyped | tree/builtins.go:291-600 | a call has a type, text or truth, if and only if its arguments are accepted; an action has none |
| TypeLaws.CallChecked | tree/type.go:148-237 | no error is found in a call if and only if an action stands at the root, its arguments are accepted, the first is the level or the file it has to be, and set gives a variable a value of its type |
| TypeLaws.ProgramChecked | tree/type.go:31-83 | a program is checked without an error if and only if its sections have one of four names, its triggers are truth values and its actions are such calls of actions |
| TypeLaws.SectionIgnored | tree/type.go:175-190 | whether an expression has an error does not depend on the section it is in: the type of a parameter is never compared with it |
| TypeLaws.GraphQueryOnMessage | tree/type.go:175-190 | nodecount(1, 2) passes as a trigger in a section Msg |
| TypeLaws.SectionsExact | types/type.go:118-139 | which kinds of expression types are compatible |
| Soundness.ProgErrorsExact | tree/type.go:31-83 | the checker accepts exactly the programs whose sections, triggers and actions obey the typing rules |
| Soundness.EvalSound | tree/eval.go:273-345 | a typed expression evaluates to a value of its type; it can only fault by an integer division, if it has one, or in a query, if it has one |
| Soundness.ActSound | tree/builtins.go:68-148 | a typed action keeps every variable at its declared type and faults in no other way |
| Soundness.StreamSound | tree/interp.go:57-117 | over any stream of messages, polls and signals the store stays typed and no other fault occurs |
| Soundness.CheckedProgramSound | tree/type.go:19-99 | from an error count of zero to every run of the annotated program |
| Fold.FoldSound | tree/const.go:289-406 | if a typed expression folds without an error and evaluates, the folded one evaluates to the same value and the same signal counters, and stays typed |
| Fold.FoldShrinks | tree/const.go:289-406 | folding never grows a tree, reads no further variable and takes no further signal |
| Fold.FoldIdempotent | tree/const.go:289-406 | folding a folded value expression changes nothing, compiled patterns included |
| Fold.SetNeedsTwoPasses | tree/const.go:298-302 | a set of x to x + 0 is the exception: it is a constant only after two folds |
| Fold.ZeroArgsExact | tree/const.go:303-307 | folding a call without arguments of a function named ...in or ...include to true is right for all of them but topicin and subscribersinclude |
| SameName.SameNameExact | tree/const.go:257-267 | folding l == x or l != x by name is right in every world and typed store if and only if l is a variable or its node has another name, for every l that evaluates and does not read x |
| SameName.SumIsLit | tree/const.go:257-267 | (1 + y) == lit folds to true and (1 + y) != lit to false, and both are wrong |
| Fold.ConstantFaultsExact | tree/const.go:271-287 | of the operators on two constants folding reports exactly the division by zero, and hides exactly the fault of the remainder by zero, which it replaces by its left operand |
| Fold.SecondFold | tree/const.go:316-346 | an expression that folds without an error reports one for each payload and topicmatches call in it when folded again |
| FoldComplete.ClosedFolds | tree/const.go:205-216 | an expression of literals and levels under operators, string and levelname folds to a constant of its type, and to its value if it has one |
| FoldComplete.ErrorsCounted | tree/const.go:271-287 | in any expression folding reports the divisions by a closed expression of value zero, each once, and nothing else but what it compiles; a closed divisor without a value may be taken for a zero |
| FoldComplete.DivisionReported | tree/const.go:271-287 | a division by a closed expression of value zero costs an error whatever is divided |
| FoldComplete.PatternReported | tree/const.go:316-346 | a text that does not compile, and an argument that is no literal, is reported |
| FoldComplete.FoldNormal | tree/const.go:205-270 | no operator over two constants, no neutral integer operand, no && or &#124;&#124; after a constant, no variable compared with itself, no sign before a constant and no call that can be decided is left in a folded tree |
| SecondPass.LaterErrorsExact | tree/const.go:107-164 | a chain whose actions fold without an error is rejected if and only if there is a second pass and it gets to an action with a compiled argument |
| FoldLimits.CompiledTwice | tree/const.go:107-164 | True(payload("a.yar")), set(x, x) is such a chain |
| Chain.ActFoldSound | tree/const.go:145-146 | folding an action in place keeps its outcome, its effect, and what the chain conditions look at |
| Chain.RemoveSound | tree/const.go:147-161 | a constant may be taken out of a chain, or cut it off, when nothing follows, or the connectors agree, or the action before always succeeds |
| ChainFold.PassShrinks | tree/const.go:107-164 | a pass that asks for another one has made the count of actions plus set calls smaller, so the loop ends |
| ChainFold.CleanChainTidy | tree/const.go:107-164 | at the end no action is a constant and no variable is set twice |
| FoldComplete.ConstantCuts | tree/const.go:147-161 | a true constant behind !> and any other behind => cut off the rest of the chain, and all others are taken out alone |
| FoldComplete.FoldRulesDone | tree/const.go:97-170 | a rule of a folded program has actions, its trigger is no constant but true, nothing in it can be folded, and no variable is set twice |
| FoldLoop.LookUpSet | tree/const.go:127-144 | the table of last sets, kept by writing action cells in place, does what the functional table does |
| FoldLoop.StepAction | tree/const.go:114-163 | one round of the loop, on cells, keeps, drops or cuts as one round of the function |
| FoldLoop.RunPass | tree/const.go:109-163 | one pass over cells, with a cell kept earlier rewritten later, leaves the actions, the flag and the errors of the function |
| FoldLoop.CleanRule | tree/const.go:107-164 | the whole loop computes CleanChain |
| Overwrite.OverwriteSound | tree/const.go:127-144 | a set may become a constant when the chain always gets to the later set and nothing on the way reads the variable: the runs are the same in every world |
| Conditions.ReplaceKeepsOk | tree/const.go:140-146 | folding or overwriting an action leaves a chain that meets the conditions |
| Conditions.RemoveKeepsOk | tree/const.go:157-161 | so does taking out a constant |
| Conditions.CutKeepsOk | tree/const.go:147-156 | so does cutting off the rest |
| CleanSound.PassSound | tree/const.go:109-163 | one pass, started anywhere in a chain that meets the conditions, preserves the run and the conditions |
| CleanSound.CleanChainSound | tree/const.go:107-164 | the loop preserves the run of every chain that meets the conditions |
| Emptied.BusyChanges | tree/const.go:107-163 | the first pass asks for another one if and only if some action folds to a constant or sets a variable that is set again |
| CleanSound.EmptiedExact | tree/const.go:165-167 | the loop leaves nothing of a chain if and only if the guard Empties, read off the chain as written, holds |
| ChainExact.RunChainIsPrefix | tree/interp.go:62-84 | a chain always runs a prefix of its actions, whose length follows from the connectors and the outcomes alone |
| ChainExact.RemoveExact | tree/const.go:157-161 | taking a constant out changes no sequence of outcomes if and only if it is last, or the connectors agree, or it is not reached after a failure |
| ChainExact.CutExact | tree/const.go:147-151 | the same for cutting off the rest of a chain |
| Scripted.EveryOutcome | tree/interp.go:65-83 | every sequence of outcomes in which the sure actions succeed is that of a run in some world |
| CleanExact.ConstantExact | tree/const.go:107-164 | for a constant or self-assignment among exec, alert and True actions: the cleaned chain runs the same from every store in every world if and only if the condition of RemoveExact or CutExact holds |
| Replacing.PassTwice | tree/const.go:109-163 | in a chain where one variable is set twice and only the later set may fold to a constant, a pass makes the earlier set a constant, whatever the sets and the other actions are, and folds the rest |
| SetTwice.PassTwoSets | tree/const.go:127-144 | among exec, alert and True actions the rest stays as it is; a later set of the variable to itself goes, too |
| SetTwice.OverwriteExact | tree/const.go:127-144 | what a pass makes of such a chain can not be told from any store in any world, in a run that does not fault, if and only if the earlier set is never reached, or it takes no signal, every connector between the two is always taken, and neither an action between them nor the later set reads the variable |
| Dropped.DropExact | tree/const.go:165-167 | an emptied rule is dropped; from all states and counters this is invisible if and only if the trigger names no user signal, for triggers that get to their signal calls in some scene, behind queries included |
| ProgFold.ProgramFoldSound | tree/const.go:79-172 | over any stream of inputs, a run that does not fault ends in the same store, level, counters and trace when the folded program is run |
| SetLimits.ReadBetweenSets | tree/const.go:34-75 | set(x,1), True(x), set(x,2) loses its first set, and some run shows it |
| SetLimits.SetBeforeExec | tree/const.go:123-144 | so does set(x,1) => exec("p") => set(x,2), the form the comment there recommends |
| SetLimits.SetBeforeExecRuns | tree/const.go:123-144 | the two runs when exec fails: x is 1 in one and keeps its old value in the other |
| SetLimits.LaterSetReads | tree/const.go:127-144 | so does set(x,1), set(x,x+1) |
| SetLimits.LaterSetReadsRuns | tree/const.go:127-144 | the two runs: from 0, x ends as 2 in one and as 1 in the other |
| SetLimits.LaterSetSelf | tree/const.go:127-161 | set(x,1), set(x,x) loses both, and some run shows it |
| SetLimits.SignalOfSetLost | tree/const.go:138-142 | set(b, signal("SIGUSR1")), set(b, true) loses its first set, and some run shows it |
| SetLimits.SignalOfSetLostRuns | tree/const.go:138-142 | the two runs: the signal is taken in one and stays pending in the other |
| FoldLimits.RestOfChainLost | tree/const.go:147-151 | exec("p") !> set(x,x) => True(x) is cut down to exec("p"), and some run shows it |
| FoldLimits.SignalLost | tree/const.go:165-167 | a rule whose chain is emptied is dropped, and the signal its trigger would have taken stays pending |
| FoldLimits.QueryBeforeSignal | extern/expr.go:67-80 | a trigger like msgtypein("T") && signal("SIGUSR1") gets to its signal call in a scene |
| FoldLimits.FlagAfterExecFine | tree/const.go:145-162 | exec("p") => set(x,1), True(x) meets the conditions of the preservation theorem |
| FoldLimits.CheckerAcceptsSetOfBuiltin | tree/type.go:192-208 | the checker accepts setting a predefined variable, because its test for that is reached only after a type error |
| Gen.GeneratedAgrees | tree/gen.go:86-117 | the generated code of a chain does what the interpreter does when every connector is taken |
| Gen.GeneratedExact | tree/gen.go:86-117 | for actions that can be seen, it agrees with the interpreter if and only if every connector is taken: it always runs all actions |
| Gen.CommasRunAll | tree/interp.go:71-72 | a chain of commas takes every connector |
| Gen.GenSection | tree/gen.go:71-85 | the labels of a section, counted by the loop |
| Gen.GenProg | tree/gen.go:59-67 | the labels of a program, counted by the loop |
| Gen.LabelsDistinct | tree/gen.go:59-85 | no label of the generated code is emitted twice |
| Cells.Sym.CopyValFrom | tree/eval.go:247-266 | copying takes the type and the field that goes with it, and leaves the name and the level fields |
| Cells.Sym.IntOp | tree/eval.go:108-142 | the operators on 64-bit integers in place: wrap-around, truncating division, an error on zero, and unary operators as operators on zero |
| Cells.Sym.BoolOp | tree/eval.go:179-203 | the operators on booleans in place |
| Cells.Sym.StrOp | tree/eval.go:205-223 | concatenation cut at 4096 characters, and comparison |
| Cells.Sym.BinExpr | tree/eval.go:225-234 | the dispatch on types; with an error, no value is left by an incompatible operand, and the left one by a division by zero |
| Cells.Sym.OpVal | tree/eval.go:46-80 | the operator of the type, and an operand without a type takes it away |
| Cells.Sym.UnaryExpr | tree/eval.go:236-245 | the unary operators, whose errors go unnoticed |
| Runtime.NewLevels | tree/tree.go:41-46 | each level knows its place |
| Runtime.NewVars | tree/interp.go:23-46 | every variable starts with a value cell of its own |
| Runtime.Machine.constructor | tree/interp.go:86-96 | the environment a program starts in |
| Runtime.Machine.EvalExpr | tree/eval.go:273-345 | evaluation on symbols gives the value, the fault and the counters of Semantics.Eval; its result is a new symbol or a level itself |
| Runtime.Machine.EvalBinary | tree/eval.go:311-326 | short circuit, and the copy of the left operand the operator works on |
| Runtime.Machine.EvalArgs | tree/eval.go:294-301 | arguments are evaluated from left to right and stay alive |
| Runtime.Machine.EvalCall | tree/eval.go:288-310 | a call of a builtin that is no action |
| Runtime.Machine.Signal | extern/expr.go:356-371 | a pending user signal is seen and taken, another name is not |
| Runtime.Machine.SetVal | tree/eval.go:26-29 | pointing one variable at a value changes no other variable and no level |
| Runtime.Machine.ExternTrigger | extern/actions.go:82-138 | the decision about a move, case by case, and what it changes |
| Runtime.Machine.Trigger | tree/builtins.go:133-148 | the variable and the context move together, or neither does |
| Runtime.Machine.RunAction | tree/eval.go:288-310 | an action on the heap does what Semantics.RunAct says |
| Runtime.Machine.RunActions | tree/interp.go:63-84 | the loop over a chain does what Semantics.RunChain says |
| Runtime.Machine.RuleInterp | tree/interp.go:57-85 | a rule on the heap does what Semantics.RunRule says |
| Runtime.Machine.WriteThrough | tree/vars.go:55-59 | writing the level through the pointer changes nothing that is declared |
| Runtime.Machine.EnterLevel | tree/vars.go:60-66 | the first run enters the first level |
| Runtime.Machine.SetPredefVars | tree/vars.go:50-84 | afterwards the predefined variables hold the clock, the current level is a declared one, and the rest is unchanged |
| Runtime.Machine.Interp | tree/interp.go:98-117 | a run on the heap does what Semantics.RunSections says about the first section for the message |
| Runtime.Machine.Serve | tree/interp.go:98-117 | over any stream of inputs the heap does what Semantics.RunStream says, and context, level symbol and number agree at every boundary |
| Runtime.Machine.SetTimeThenClock | tree/vars.go:68-72 | after Time is set to some value and the clock is written, the levels of the program are intact if and only if the value was no level or had the number written |
| RunLaws.ChainRun | tree/interp.go:62-84 | a chain runs its actions in turn, each from the state the one before has left, up to a => after a failure, a !> after a success, or an action that ends the program |
| RunLaws.RulesRun | tree/interp.go:57-113 | all rules of a section are run in turn; those whose trigger is true run their chain, the others do nothing but take signals |
| RunLaws.InputRuns | tree/interp.go:98-117 | a message or a poll sets Time and Uptime, and runs the rules of the first section of its name and no others |
| RunLaws.StreamConcat | extern/conc.go:79-114 | what arrives later is served from the state that what came before has left |
| RunLaws.OutcomeDecides | tree/builtins.go:79-116 | after False the action behind => is not run and the one behind !> is; after True the other way round |
| RunLaws.ShowRuns | tree/builtins.go:79-116 | True and False show their arguments; one succeeds and the other fails |
| RunLaws.TextRuns | tree/builtins.go:117-126 | alert succeeds with its text, crash ends the program with it |
| RunLaws.ExecRuns | tree/builtins.go:127-132 | exec succeeds if the command does, which gets its path and its arguments |
| RunLaws.SetRuns | tree/builtins.go:68-78 | set succeeds, gives its variable the value of its argument, and changes nothing else |
| RunLaws.TriggerRuns | extern/actions.go:82-137 | trigger goes up to any level, and down by one from a soft one, if the scripts succeed |
| RunLaws.ArgsInOrder | tree/eval.go:294-301 | arguments are evaluated from left to right, each with the signals the ones before have left |
| RunLaws.QueryAnswers | extern/expr.go:33-224 | what the membership queries on the message answer; subscribersinclude asks the other way round |
| RunLaws.StringWrites | tree/builtins.go:48-64 | string writes an integer as digits without a leading zero that stand for it, after a sign if it is negative, and a truth value by its name |
| RunLaws.SignalAnswers | extern/expr.go:356-371 | signal says whether such a signal is pending, and takes it |
| Levels.TriggerExact | extern/actions.go:82-137 | on a legal path a trigger runs its scripts exactly when the move is allowed, moves exactly when they succeed, and is a no-op that succeeds when already there |
| Levels.StreamOnward | extern/actions.go:82-98 | over any run the level is always the last one of a legal path recorded on the trace |
| Levels.Floor | extern/actions.go:92-98 | on any legal path, a level that is not soft is never left downwards |
| Levels.LevelFloor | extern/actions.go:82-128 | once at or above a level that is not soft, a run stays there at every point, and below the number of levels |
| Dispatch.StepKeepsProtocol | extern/conc.go:15-41 | every step of decoder, dispatcher, polls, paths and signals keeps the protocol's invariant |
| Dispatch.DecodedExactly | extern/conc.go:19-31 | the messages decoded are those the read steps brought, in order |
| Dispatch.InOrder | extern/conc.go:68-117 | in every interleaving the executed messages are a prefix of the decoded ones, each once and in order, at most one is on its way, and a clean exit means all are done |
| Dispatch.OneRun | extern/conc.go:79-114 | in every interleaving the state is that of one sequential run over what the dispatcher received, and each path is delivered to one poll |
| Ledger.LedgerExact | extern/conc.go:79-114 | in every interleaving there is one entry for each run, path and user signal, in the order of the steps; a message is run with itself in hand by the section of its type, a poll without one by the section External, and the messages are those decoded, in order |
| Ledger.SelectOffers | extern/conc.go:79-114 | in its select the dispatcher can always get a path, a poll, a signal, and what is in the channel; nil and any other signal end it with code 0 and 1 |
| Dispatch.BoundedWork | extern/conc.go:15-41 | the two processes take a bounded number of steps of their own for what is brought to them |
| Dispatch.Progress | extern/conc.go:68-117 | after any steps from the start there is no deadlock: someone has a step, or all is executed and acknowledged |
| Signals.SignalConserved | extern/expr.go:356-371 | a call answers yes exactly when it takes one signal off its counter |
| Signals.StreamConserved | extern/conc.go:102-107 | over any run, signals received plus pending before are signals answered plus pending after |
| Service.ServiceTyped | extern/conc.go:68-117 | type soundness in every interleaving of the process |
| Service.ServiceFloor | extern/conc.go:68-117 | the level floor in every interleaving |
| Service.ServiceSignals | extern/conc.go:102-107 | signal conservation in every interleaving |
| Service.ServiceFolded | tree/const.go:79-172 | on what the process received, the folded program ends in the same state with the same events |
| Pratt.Reaches | parser/pratt.go:296-354 | after the tokens of a well-shaped tree the parser stands at its loop with that tree |
| Pratt.ExprSound | parser/pratt.go:296-354 | whatever is parsed without an error is a tree with the precedence shape, whose tokens are the ones consumed |
| Pratt.ParseExact | parser/pratt.go:22-50 | Expr(rbp) returns a tree and a rest if and only if they are the tokens read, the tree has the precedence shape, binds above rbp and can not be continued |
| Precedence.GrammarExact | parser/pratt.go:22-63 | the parser gives a tree for its tokens if and only if a grammar derives it that has one nonterminal for each line of a list of operators; infix ! ~ and ( aside |
| Precedence.TwoOperators | parser/pratt.go:22-42 | of two operators the one on the tighter line takes the operand between them, and of one line the first |
| Precedence.SignThenOperator | parser/pratt.go:44-51 | a sign, ! or ~ takes the operand after it alone |
| Precedence.NegationBetween | parser/pratt.go:22-42 | infix ! and ~ are tighter than every operator |
| Precedence.NegationAfterSign | parser/pratt.go:44-51 | and tighter than the signs + and -, but not than ! and ~ |
| Pratt.Unique | parser/pratt.go:251-354 | two trees with the precedence shape and the same tokens are the same tree |
| Printing.ShowProper | parser/pratt.go:22-50 | printing with the parentheses precedence requires gives a tree of the right shape |
| Printing.ShowExact | parser/pratt.go:22-50 | the printed form is the only one without a superfluous parenthesis |
| Printing.RoundTrip | parser/pratt.go:296-354 | parsing what was printed so returns the tree, with nothing left |
| Printing.FullRoundTrip | tree/sym.go:290-345 | the fully parenthesised form is parsed back if and only if no signed operand is followed by an infix ! or ~ |
| Printing.SignLost | tree/sym.go:333-336 | (-a ! b) is parsed as -(a ! b) |
| Descent.Prog | parser/desc.go:420-484 | parsing ends on every input, because every call consumes tokens or spends an error; it leaves fewer than ten errors and changes no environment but the innermost one |
| Descent.ActionDecls | parser/desc.go:324-364 | whatever happens in the rules of a section, the stack of environments is afterwards what it was before |
| Grammar.ProgramRoundTrip | parser/desc.go:420-484 | the tokens of every well-formed program are parsed to its trees, its names are declared and no error is counted |
| Grammar.JunkAfterAction | parser/desc.go:300-305 | tokens after an action that start with a word or a closing parenthesis are dropped up to the semicolon without an error |
| Grammar.AtomAfterAction | parser/desc.go:285-292 | if they start with a literal, a name or an equals sign an error is counted |
| Pratt.AtomStops | parser/pratt.go:335-341 | a second operand without an operator between is an error right there |
| Grammar.UnnamedSectionLost | parser/desc.go:433-438 | a rules section without a name is dropped without an error |
| Grammar.JunkDeclLost | parser/desc.go:202-213 | tokens before a declaration are dropped up to the semicolon without an error |
| Mistakes.NamesCounted | parser/pratt.go:172-182 | each name read that is not declared costs one error, however often it stands there, and is declared from then on; the tenth error ends the parse |
| Mistakes.DeclCounted | parser/desc.go:193-259 | a declaration costs an error for a type that is none of the four, one for a name declared before, and one for each unknown name in its value |
| Mistakes.LevelTwice | parser/desc.go:67-102 | a level declared twice costs an error, and parsing goes on behind the semicolon |
| Mistakes.LevelWithoutSemi | parser/desc.go:67-102 | so does a level without a semicolon, which is declared all the same |
| Mistakes.NoLevels | parser/desc.go:456-460 | so does a levels section that leaves no level |
| Mistakes.NoValue | parser/desc.go:193-259 | so does a declaration without a value |
| Mistakes.SectionTwice | parser/desc.go:400-413 | a section with a name that is taken costs two errors, and its rules are dropped |
| Mistakes.NoQuestionMark | parser/desc.go:324-364 | a rule without a question mark costs an error |
| Mistakes.NoColon | parser/desc.go:452-454 | a section without a colon costs an error, and what is behind it is not read |
| Mistakes.NoSection | parser/desc.go:441-451 | so do tokens where a section should start |
| Parsing.Parser.Errorf | parser/desc.go:556-567 | errors are counted, and the tenth ends the parse |
| Parsing.Parser.MatchErr | parser/desc.go:44-58 | a token is taken, or an error counted and the input skipped |
| Parsing.Parser.LexWhileNot | lex/lex.go:624-638 | the loop that skips to a token stops where Skip says |
| Parsing.Parser.SetExprVal | parser/pratt.go:155-195 | an undeclared name is an error once, then declared |
| Parsing.Parser.Expr | parser/pratt.go:296-354 | the parser on its token cursor reads what Pratt.Expr reads and looks up every name on the way |
| Parsing.Parser.ExprLoop | parser/pratt.go:329-353 | the operator loop does what Pratt.Loop says |
| Parsing.Parser.Nud | parser/pratt.go:198-248 | operands, signs, groups and calls |
| Parsing.Parser.Led | parser/pratt.go:251-278 | an infix operator and its right operand |
| Parsing.Parser.ParenExpr | parser/pratt.go:102-118 | a group, or an unmatched parenthesis |
| Parsing.Parser.FuncArgs | parser/pratt.go:122-153 | arguments, with a trailing comma accepted |
| Parsing.Parser.LevelDecls | parser/desc.go:67-102 | level declarations and recovery |
| Parsing.Parser.Decls | parser/desc.go:193-259 | constant and variable declarations and recovery |
| Parsing.Parser.Ruler | parser/desc.go:274-308 | the actions of a rule and their connectors |
| Parsing.Parser.ActionDecls | parser/desc.go:324-364 | the rules of a section, pushing and popping environments |
| Parsing.Parser.RuleSect | parser/desc.go:400-413 | a section of rules |
| Parsing.Parser.Prog | parser/desc.go:420-484 | the whole parser, on mutable state, does what Descent.Prog says |
| WholeParse.Parse | parser/desc.go:490-500 | a whole parse from an empty program: given up at ten errors, or what Descent.Prog leaves |
| WholeParse.ParseText | parser/desc.go:490-500 | the tokens of a well-formed program give its trees |
| Lexing.TokenTaken | lex/lex.go:549-621 | every token is the text it takes, but for arrows and quoted newlines, and what follows is the rest |
| Lexing.Partition | lex/lex.go:549-621 | if a text is lexed to its end, the tokens, blanks and comments put together are the text |
| Lexing.PeeksThenLex | lex/lex.go:464-473 | any number of looks ahead changes no token that is then taken |
| Lexemes.IntLexed | lex/lex.go:376-462 | 0x, 0o and 0b before digits of the base, and decimal digits, are one integer, before anything but a letter, a digit and a dot |
| Lexemes.FloatLexed | lex/lex.go:391-462 | digits with a dot, a leading one included, and either with an exponent, are one float |
| Lexemes.QuotedLexed | lex/lex.go:335-374 | graphic characters between quotes, with quotes behind backslashes, are one string |
| Lexemes.NameLexed | lex/lex.go:314-328 | a letter or an underscore, and letters, digits and underscores, are one name, or a keyword if they are one of seven words |
| Lexemes.SymbolLexed | lex/lex.go:490-513 | a symbol of two characters is taken before one of its first character |
| Lexemes.ArrowLexed | lex/lex.go:515-522 | an arrow is the symbol it stands for |
| FromText.StreamSpelled | lex/lex.go:540-621 | tokens spelled out with blanks between are lexed into exactly those tokens |
| FromText.TextRoundTrip | parser/desc.go:490-500 | a well-formed program as text is lexed and parsed into exactly its trees, without an error |
| Leftovers.LeftExact | lex/lex.go:549-621 | an error leaves accepted characters if and only if it is not one of a number or of a closed string, and which |
| Leftovers.LeftBetweenCalls | lex/lex.go:549-621 | between any two calls nothing is accepted, or what an error has left |
| Leftovers.NextLexeme | lex/lex.go:549-621 | what becomes of it: arrows drop it, any other token or error begins with it, a keyword is then a name and a symbol of two characters falls apart |
| Leftovers.BlankDrops | lex/lex.go:571-583 | white space and comments drop it |
| Leftovers.DoubleSplit | lex/lex.go:490-513 | after a bad character == and the like are two tokens |
| Scanning.Lexer.Get | lex/lex.go:235-256 | one character is taken, and lines are counted |
| Scanning.Lexer.Unget | lex/lex.go:258-277 | and given back, line count included |
| Scanning.Lexer.Accept | lex/lex.go:305-312 | what was taken becomes the lexeme |
| Scanning.Lexer.LexId | lex/lex.go:314-328 | the longest identifier |
| Scanning.Lexer.LexNum | lex/lex.go:391-462 | bases, dots and exponents, and the errors that take what they read |
| Scanning.Lexer.LexString | lex/lex.go:335-374 | strings, with a newline kept as an escape |
| Scanning.Lexer.EatComment | lex/lex.go:475-488 | a comment up to its line end, or the end of the input |
| Scanning.Lexer.MayLexDouble | lex/lex.go:490-513 | one or two characters of a symbol |
| Scanning.Lexer.Lex | lex/lex.go:549-621 | the reader with one step back and a saved token yields the tokens of Lexing |
| Scanning.Lexer.Peek | lex/lex.go:464-473 | a look ahead saves the token it lexed |

## Findings

Where the code does not do what it is for, the code is modelled as it is; each
entry names the input and the exact condition.

* A variable called `lit` equals every literal and every operator:
  `(1 + y) == lit` folds to true (`SameName.SumIsLit`).  `SameName.SameNameExact`
  is the condition.
* `topicin()` and `subscribersinclude()` are folded to true, but answer false.
  `Fold.ZeroArgsExact` is the condition.
* A constant modulo zero folds silently to its left operand, so the folded
  program runs where the other one faults.  `Fold.ConstantFaultsExact` is the
  condition.
* A pass of the cleanup compiles the argument of `payload` and `topicmatches`,
  and the next pass reports it as no constant string:
  `True(payload("a.yar")), set(x, x)` is rejected (`FoldLimits.CompiledTwice`).
  `SecondPass.LaterErrorsExact` is the condition.
* The table of overwritten sets records no reads and no connectors, because a
  variable has no expression node (tree/const.go:34-39), and the right side of
  the set removed is not looked at.  `SetLimits` has an input for a read between
  the sets, a connector that is not taken, a later set that reads the variable
  or sets it to itself, and a signal that the earlier one takes, with runs that
  show them; `SetTwice.OverwriteExact` is the condition.
* A constant reached by `!>` takes the rest of the chain with it, although the
  rest may run after a failure: `FoldLimits.RestOfChainLost`, with
  `CleanExact.ConstantExact` as the condition.  Taking out a constant between
  different connectors has the same condition.
* A rule left without actions no longer takes the signal its trigger asks for:
  `FoldLimits.SignalLost`, with `Dropped.DropExact` as the condition.
* The checker lets a rule set `Time`, `Uptime` or `CurrLevel`
  (`FoldLimits.CheckerAcceptsSetOfBuiltin`); a set of `Time` to a level makes the
  next clock write corrupt the level itself; `Runtime.Machine.SetTimeThenClock` is
  the condition.
* The checker compares the section with the type of an argument, which fits
  everywhere, and never with that of the parameter (tree/type.go:175-190), so a
  query on the graph passes in a section of messages
  (`TypeLaws.GraphQueryOnMessage`), although doc/desc.txt says that they can not
  be mixed.  `TypeLaws.SectionIgnored`: no expression is ever rejected for its
  section.
* Generated Go code runs all actions of a chain, because `iscomma` starts true
  and is never reset (`Gen.GeneratedExact`).
* `(-a ! b)`, as the tree printer writes it, is read back as `-(a ! b)`
  (`Printing.SignLost`); `Printing.FullRoundTrip` is the condition.
* Tokens after an action, tokens before a declaration and a rules section
  without a name are dropped without an error (`Grammar.JunkAfterAction`,
  `Grammar.JunkDeclLost`, `Grammar.UnnamedSectionLost`).
* After a character that can start no token, or a string left open, the
  characters accepted become the beginning of the next lexeme, unless white
  space, a comment or an arrow comes first; `==` after it is two tokens
  (`Leftovers.DoubleSplit`).  Errors of numbers and of closed strings leave
  nothing.  `Leftovers.LeftExact` and `Leftovers.NextLexeme` are the conditions.

## Left out

- Floating point, in values, operators, folding and types.
- Fold.FoldSound: what folding keeps; what it achieves is FoldComplete.ClosedFolds, ErrorsCounted and FoldNormal.
- Cells.Sym.IntOp: the same as Semantics.IntOp; what the operators mean is OperatorLaws.EvalMeaning.
- Dispatch.OneRun: about the inputs in the log; which inputs these are is Ledger.LedgerExact.
- Pratt.ParseExact: about the table of powers; what the table means is Precedence.GrammarExact.
- Scanning.Lexer.LexNum: the same as Lexing.Number; which numbers it takes whole is Lexemes.IntLexed and FloatLexed.
- Descent.Prog: the functions of the descent parser promise termination, readiness and balance; what they compute is stated by Grammar.ProgramRoundTrip, the junk lemmas and Mistakes, and no characterisation of all token sequences without an error is given.
- Grammar.JunkAfterAction: tokens that start with an operator go on with the action, and nothing is stated of them.
- Dropped.DropExact: for triggers without division whose signal calls are named by a literal or a variable and are all reached in one scene, that is, with one answer to all queries and one message; and for chains that meet the conditions.
- CleanSound.EmptiedExact: for chains that meet the conditions of the preservation theorem.
- Scripted.EveryOutcome: for chains of exec, alert, True, sets and constants; the answers of crash and trigger are not free.
- CleanExact.ConstantExact: for chains whose other actions are exec, alert and True of literals and variables, so that every run can be told apart from outside; ProgramFoldSound covers the other direction for all chains.
- SetTwice.OverwriteExact: among such actions; the earlier set takes any expression without division whose signal calls are reached in one scene, or the variable plus or minus a literal, the later one a literal, a variable, or a variable plus or minus a literal; those literals are not zero.
- SetTwice.PassTwoSets: for the same chains; Replacing.PassTwice is the general statement.
- SameName.SameNameExact: for left operands without division that do not read the variable, or are one.
- Soundness.ActSound: a set on CurrLevel, and a trigger whose argument is not the name of a level, are outside the model.
- Soundness.StreamSound: the same.
- Soundness.CheckedProgramSound: the same.
- Runtime.Machine.SetVal: predefined variables are left to Runtime.Machine.SetTimeThenClock.
- Runtime.Machine.RunAction: the same, and a trigger of a variable.
- ProgFold.ProgramFoldSound: assumes that no variable is called lit, that topicin and subscribersinclude have arguments, the chain conditions, and that a rule whose chain is emptied has a trigger that takes no signal; each is shown necessary by an input under Findings.
- Runtime.Machine.SetTimeThenClock: one set and one clock write; that the levels survive every run whose rules set no predefined variable is part of Runtime.Machine.Serve, and the condition is not carried over runs that do set one.
- Folding rewrites expression trees in place, and the parser fills its nodes in place; only the loop over action cells, the run-time symbols, the parser's cursor and the lexer's buffer are imperative here.
- A declared constant that payload or topicmatches compiles is one symbol shared by all its uses; here each use is compiled on its own.  Likewise a variable that loses its type in one place.
- The used, set and reached flags of variables and their check, the checks of declarations, and the folding of declarations (tree/type.go:84-117, tree/const.go:81-96).
- Queries on the robot, yara, regular expressions, plugins, exec and the level scripts are functions of the world and of everything done so far; their bodies in extern are not modelled, except signal, string, levelname and the membership queries.
- The paths an idsalert looks at reach a poll of the dispatcher but not its world.
- A set on CurrLevel would leave a level without a name in place of the current one, and a trigger of a variable would enter a copy of a level; both are excluded by hypothesis wherever actions run.
- The scripts of a trigger are one success flag; the yaml written to the response connection is not modelled.
- The start time of the process: uptime is an input, like the clock.
- Fields of a symbol that its type does not use.
- Unary operators other than + - ~ and !, although the parser's tables would admit some.
- Strings are sequences of characters; the classes of characters and the conversions of strconv are parameters of the lexer.
- FromText.TextRoundTrip: for numbers and strings that strconv converts, and strings without a newline; TokenTaken says how a newline is kept.
- Precedence.GrammarExact: for trees without an infix ! ~ or (, which NegationBetween, NegationAfterSign and ParseExact cover.
- FoldComplete.ErrorsCounted: for expressions without payload and topicmatches; PatternReported says what those report.
- Lexemes.QuotedLexed: for strings without a newline.
- Levels and sections named like a builtin or a predefined variable, and calls of a name that is not a function, whose symbol the source overwrites.
- Constant and variable declarations are one function with a parameter.
- A crash is compared by its trace only.
- The text of the generated code, apart from its labels and the control flow of a chain.
- Operating system details of the process: the default signal action, signals lost on a full channel, main returning while a poll runs, and the trigger of the first level before the first message.
