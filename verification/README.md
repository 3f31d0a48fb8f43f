# Verified models of a Modula-2 compiler's middle end

A Dafny model of the parts of the compiler where a mistake changes what a
program means, with proofs about every input, run or path. `dafny verify
dfyconfig.toml` checks all of it.

**Statements to graph** (`src/cfg/build.rs`, `src/cfg/mod.rs`). `Hir`, `Cfg` and
`Lowering` give the data and the builder as a function of its state;
`CfgBuilding` is the builder itself, a class whose methods are proved to do what
those functions say. `Semantics` gives the structured statements a big-step
meaning and the block graph a small-step one, for an arbitrary interpretation of
the leaves: any assignment, call or expression may change the store or raise.
It is stated on the syntax alone and shares no definition with the builder.
`Protocol` and `ProtocolStmts` show what every step of the builder keeps;
`Simulation`, `SimulationStmts` and `Correctness` show that the graph ends in
exactly the ways the statements do. The meaning of the statements follows the
code: EXIT leaves the innermost loop of any kind, FOR evaluates its limit and
step anew on each turn, RETURN, EXIT and exceptions raised by a handler skip an
enclosing FINALLY. `Fuel` and `ForLoops` derive the usual count of turns from
that meaning, for leaves that compute with integers, and carry it to the graph. `NestedTry` and `ExceptionNames` show exactly where the graph
stops agreeing, `Arms` and `Panics` on which bodies `build_cfg` panics.

**Graph to C** (`src/codegen_c/cfg_emit.rs`). `CEmit` emits labels, statements
and gotos and gives the lines a meaning; `CSimulation` and `EndToEnd` show that
the lines end in exactly the ways the graph, and hence the statements, do, but
for one thing: RAISE without an operand outside any handler raises exception 1.
`Selectors` shows which CASE selectors may have a side effect.

**Dataflow and its two lints** (`src/cfg/dataflow.rs`, `src/cfg/lint.rs`).
`Dataflow` is the worklist solver over any lattice of finite height; `Paths`
compares its result with the meet over all paths and says which blocks it ever
visits; `Lint` is "definitely assigned" (W10) and "not NIL" (W11) with their
warnings. `Occurrences` says on the syntax what it is to read, write or
dereference a local, and `LintScans` that this is what the lints collect.

**JSON and the build state** (`src/json.rs`, `src/build.rs`): `Numerals`, `Json`,
`JsonRoundTrip`, `JsonSpacing`, `JsonTokens`, `JsonParsing`, `BuildStates`.
Double-precision numbers are a
parameter with the laws in `Json.Lawful`; `NumsAreLawful` shows the laws can be
met.

**Smaller cores**: loading and ordering definition modules (`Definitions`,
`src/driver.rs`), the runtime subtype test (`TypeDescs`, `src/stdlib.rs`,
`src/codegen_c/m2plus.rs`), record layout (`Layout`, `Targets`, `LayoutSafety`,
`ArrayLayout`, `VariantLayout`, `LayoutBuilding`, `src/target.rs`).

Properties that one might expect and that do not hold, each with an input that
shows it and the condition under which it does:

- `build_cfg` does not return for every body that the parser and the semantic
  analysis accept. The builder panics if and only if, among the statements it
  lowers, an EXIT stands outside every loop or an EXCEPT clause follows a catch-all
  one (`BuilderPanicsIff`, `TryPanicsIff`, `TwoCatchAlls`; `src/cfg/build.rs:72`,
  306). If it does not, `cfg.verify()` panics at T3 (`src/cfg/mod.rs:190`) or T5 if
  and only if a CASE or TYPECASE that is lowered has no branch, as one with only an
  ELSE, or a branch has no label (`PassesIff`, `CaseWithoutBranches`). So
  `build_cfg` returns exactly for the bodies that are `Accepted`
  (`BuildReturnsIff`);
- the emitted C of a body without TRY ends as the statements do if and only if
  exception 1 is pending or the run executes no RAISE without operand
  (`SameEndsIff`, `BareRaiseEscapes`); a body without such a RAISE is always
  faithful (`EmittedIsFaithful`);
- the emitted C repeats the text of a CASE selector in every comparison, twice in
  a range; it ends as the statements do, whatever the selector does, if and only
  if there is one branch with one label that is not a range (`SelectorIff`,
  `SelectorRepeats`);
- the clauses of a TRY inside the body of a TRY keep their meaning, whatever the
  leaves do, if and only if there is a catch-all and every clause body starts
  without a leaf (`NestedIff`, `InnerHandlerEscapes`: any inner body that starts
  with a leaf and anything after the inner TRY, in an outer TRY that catches
  everything and is the whole body; clauses that name distinct exceptions);
- a condition, however built with AND, OR and NOT, keeps its meaning if and only
  if none of its leaves shares its name with an exception (`ConditionIff`,
  `TreeParts`);
- a block is updated only when its output changes (`src/cfg/dataflow.rs:88`), so
  a block is visited if and only if some path to it leaves a bit clear after
  each block on the way (`AwakeIff`); the result solves the equations if and only
  if `transfer` fixes `bottom` at every block no such path reaches (`SolvesIff`),
  and W11's states are exact if and only if no such block clears a bit
  (`NilSafetyExactIff`, `AsleepIsInexact`);
- a W11 warning has a witness path if and only if its block is reachable
  (`DerefWitnessIff`, `UnreachableDeref`);
- W10 misses uses (`MissedUse`); in the entry block, and in every block that does
  not itself define the variable, it reports a use if and only if some path
  leaves the variable undefined there and no earlier call of the block was
  collected as writing it (`FlaggedIff`);
- W11 misses dereferences in blocks it never visits; in the entry block, and in
  every block that does not itself change the pointer, it reports one if and only
  if some path that wakes its blocks leaves the pointer possibly NIL there
  (`DerefFlaggedIff`);
- control characters other than newline and tab do not survive the JSON round
  trip, NaN and infinities do not parse, and the negative zero prints as `0`
  (`RoundTripIff`, `CarriageReturnIsLost`, `NegativeZeroIsLost`);
- a build state comes back if and only if its paths are free of such characters
  and its times and sizes survive a cast to a double (`SaveLoadIff`,
  `CarriageReturnPath`);
- the subtype test is right for all pairs if and only if no type extends one of
  an earlier module that lies deeper than 1: the table of depths is emptied with
  every module (`RunIsSafeIff`, `EarlierModuleMisleads`);
- a variant record is laid out safely wherever its reported alignment allows if
  and only if no scalar of its tag or cases needs more (`VariantAlignIff`,
  `VariantTypesIff`, `LongintAtNine`).

Where the comments of the code and the code differ, the code is followed: the
JSON parser's documentation promises a JSON parser and the code decodes only
five escapes; the dataflow comment calls the result a fixpoint; the comment on
type descriptors relies on parents being registered first, and the code forgets
their depths with every module.

## Model

| member | source | states |
|---|---|---|
| Protocol.SealInv | src/cfg/build.rs:71-77 | sealing the open block with legitimate targets never trips the assertion, closes exactly that block and keeps the builder invariant |
| Protocol.StartInv | src/cfg/build.rs:63-69 | opening an unsealed block while none is open never trips the assertion and keeps the invariant |
| Protocol.PushInv | src/cfg/build.rs:79-83 | a pushed statement goes to the end of the open block; nothing else changes |
| Protocol.NewBlocksInv | src/cfg/build.rs:38-50 | new blocks are empty, open and carry the innermost handler; old ones are untouched |
| Protocol.NewBlocksNoHandlerInv | src/cfg/build.rs:52-61 | the same without a handler |
| Protocol.CondInv | src/cfg/build.rs:702-732 | lowering any AND, OR, NOT tree seals the open block, touches no earlier one and keeps the invariant |
| ProtocolStmts.StmtsInv | src/cfg/build.rs:120-124 | every legal statement list keeps the invariant, gives both stacks back and writes only the open block and new ones |
| ProtocolStmts.StmtInv | src/cfg/build.rs:126-213 | the same for each statement form |
| ProtocolStmts.IfInv | src/cfg/build.rs:217-263 | the same for IF with any chain of ELSIF; the merge block is opened only if something reaches it |
| ProtocolStmts.WhileInv | src/cfg/build.rs:267-283 | the same for WHILE |
| ProtocolStmts.LoopInv | src/cfg/build.rs:287-300 | the same for LOOP |
| ProtocolStmts.RepeatInv | src/cfg/build.rs:312-328 | the same for REPEAT |
| ProtocolStmts.ForInv | src/cfg/build.rs:332-389 | the same for FOR |
| ProtocolStmts.CaseInv | src/cfg/build.rs:453-563 | the same for CASE and TYPECASE |
| ProtocolStmts.TryInv | src/cfg/build.rs:567-698 | the same for TRY with a catch-all clause, if any, last |
| Correctness.FinishVerified | src/cfg/build.rs:95-116 | a finished graph passes every structural check but for T3 and T5, and a block sealed only by the blanket pass has no predecessor |
| Correctness.BuildIsSafe | src/cfg/build.rs:739-745 | for every legal body no assertion of the builder fails, both stacks end empty, the graph passes every check of `verify` but for T3 and T5, and blanket-sealed blocks are unreachable by any edge |
| Arms.StmtsTraced | src/cfg/build.rs:120-124 | lowering legal statements adds no edge to an old block that is not a loop exit, leaves a block open if and only if the text can fall through, and adds only switches with arms and labels if and only if every CASE that is lowered has them |
| Arms.ArmsFilledIff | src/cfg/mod.rs:186-197 | T3 and T5 hold of the graph of a legal body if and only if every CASE and TYPECASE that is lowered has a branch and each branch a label; statements after one that closes its block are not lowered |
| Arms.PassesIff | src/cfg/build.rs:739-745 | `cfg.verify()` passes if and only if that is so |
| Arms.CaseWithoutBranches | src/cfg/mod.rs:190 | a CASE with only an ELSE part goes through the builder and then fails T3 |
| Panics.BuilderPanicsIff | src/cfg/build.rs:71-77 | the builder panics if and only if, among the statements it lowers, an EXIT stands outside every loop or a clause follows a catch-all one |
| Panics.BuildReturnsIff | src/cfg/build.rs:739-745 | `build_cfg` returns, neither the builder nor `verify` having panicked, if and only if moreover every CASE that is lowered has branches and labels |
| Panics.TryPanicsIff | src/cfg/build.rs:618-667 | on a TRY with legal parts, anywhere in a body, the builder panics if and only if a clause follows a catch-all |
| Panics.TwoCatchAlls | src/cfg/build.rs:72 | a body that starts with a TRY with two catch-all clauses makes the builder panic |
| Panics.ExitPanicsIff | src/cfg/build.rs:304-308 | an EXIT panics if and only if no loop is open |
| Simulation.SimGraphCond | src/cfg/build.rs:702-732 | for any condition, control reaches the true block exactly when its leaves, taken as branches of the graph, make it true, in short-circuit order and with their store |
| Simulation.SimCond | src/cfg/build.rs:702-732 | control reaches the true block exactly when the short-circuit value is true, after evaluating the same leaves in the same order and with the same store; a leaf that raises goes to the handler |
| SimulationStmts.SimStmts | src/cfg/build.rs:120-124 | from the open block the graph goes wherever the outcome of the statements says: on, out of the loop, to the handler, to a return, or for at least as many steps as there was fuel |
| SimulationStmts.SimStmt | src/cfg/build.rs:126-213 | the same for one statement |
| SimulationStmts.SimIf | src/cfg/build.rs:217-263 | IF, ELSIF and ELSE run the part the conditions select |
| SimulationStmts.SimWhile | src/cfg/build.rs:267-283 | WHILE tests before each turn; EXIT lands after the loop |
| SimulationStmts.SimLoop | src/cfg/build.rs:287-300 | LOOP turns until EXIT |
| SimulationStmts.SimRepeat | src/cfg/build.rs:312-328 | REPEAT tests after each turn and leaves when the condition holds |
| SimulationStmts.SimFor | src/cfg/build.rs:332-389 | FOR assigns, tests <= or >=, runs and adds, evaluating limit and step on each turn; the statements that mean this are given apart from those the builder makes |
| SimulationStmts.SimCase | src/cfg/build.rs:453-495 | the first branch with a matching label runs, after its binding; otherwise ELSE, otherwise nothing |
| SimulationStmts.SimBranch | src/cfg/build.rs:499-563 | a TYPECASE branch assigns the selector to its variable before its body |
| SimulationStmts.SimDispatch | src/cfg/build.rs:618-667 | the dispatch chain reaches the first clause that catches the pending exception, or the re-raise block |
| SimulationStmts.SimFinally | src/cfg/build.rs:686-697 | on normal completion FINALLY runs once and control goes on to the merge block |
| SimulationStmts.SimReraise | src/cfg/build.rs:678-683 | on the unmatched path FINALLY runs once and the exception is raised again |
| SimulationStmts.SimTry | src/cfg/build.rs:567-698 | TRY as a whole, also inside the body of a TRY: body, first matching clause, FINALLY once on each falling-through or unmatched path |
| Correctness.LoweringPreserves | src/cfg/build.rs:739-745 | if the statements finish, the graph from block 0 finishes in the same way with the same value and store |
| Correctness.LoweringIsExact | src/cfg/build.rs:739-745 | the graph ends in a given way if and only if the statements do, and never gets stuck |
| Correctness.DivergenceIsExact | src/cfg/build.rs:739-745 | the statements run for ever if and only if the graph does |
| NestedTry.InnerHandlerEscapes | src/cfg/build.rs:612-616 | when the inner handling of an exception raises in a block without a handler, the statements end normally and the graph leaves the exception uncaught |
| NestedTry.NestedIff | src/cfg/build.rs:567-698 | for an inner TRY whose body starts with a leaf, anything after it, and an outer TRY that catches everything and is the whole body: the clauses, naming distinct exceptions, keep their meaning under every interpretation if and only if there is a catch-all and every clause body is quiet |
| ExceptionNames.TreeParts | src/codegen_c/cfg_emit.rs:238-263 | for every AND, OR, NOT tree with a leaf that names an exception, an interpretation that steers to that leaf and under which statements and graph end differently |
| ExceptionNames.ConditionIff | src/cfg/build.rs:702-732 | a condition, any AND, OR, NOT tree, keeps its meaning under every interpretation if and only if no leaf names an exception |
| Fuel.MoreFuel | src/cfg/build.rs:120-698 | more fuel never changes a finished outcome, so the structured meaning does not depend on the amount |
| ForLoops.CountedReads | src/cfg/build.rs:354-389 | if literals, the variable, <=, >=, + and assignment compute with integers, the FOR test compares the variable with the limit and the increment adds the step, 1 up and -1 down without BY |
| ForLoops.ForCounts | src/cfg/build.rs:354-389 | then, with a step in the loop's direction and any body that ends, the body runs exactly floor((limit - start) / step) + 1 times, or not at all, with start + k * step on pass k |
| ForLoops.ForStatementCounts | src/cfg/build.rs:332-389 | the same from the FOR statement, with the values of its start, limit and BY expressions; the variable ends at start + n * step |
| ForLoops.ForGraphCounts | src/cfg/build.rs:332-389 | the graph built for the statement ends in the store after that many passes |
| ForLoops.OneToTen | src/cfg/build.rs:332-389 | the graph of FOR i := 1 TO 10 ends after ten passes with 11 in i |
| ForLoops.ForDiverges | src/cfg/build.rs:376-389 | with a zero or opposite step a loop that starts never ends, whatever loops its body holds |
| CfgBuilding.CfgBuilder.constructor | src/cfg/build.rs:23-36 | one empty block, open |
| CfgBuilding.CfgBuilder.NewBlock | src/cfg/build.rs:38-50 | the new id and the state that results |
| CfgBuilding.CfgBuilder.NewBlockNoHandler | src/cfg/build.rs:52-61 | the new id and the state that results |
| CfgBuilding.CfgBuilder.StartBlock | src/cfg/build.rs:63-69 | the state that results, with a failed assertion recorded |
| CfgBuilding.CfgBuilder.Seal | src/cfg/build.rs:71-77 | the state that results, with a failed assertion recorded |
| CfgBuilding.CfgBuilder.PushStmt | src/cfg/build.rs:79-83 | the state that results |
| CfgBuilding.CfgBuilder.AnyPathReaches | src/cfg/build.rs:89-93 | true exactly when some sealed block has the target as a successor |
| CfgBuilding.CfgBuilder.Finish | src/cfg/build.rs:95-116 | every open block returns |
| CfgBuilding.CfgBuilder.LowerExprAsBranch | src/cfg/build.rs:702-732 | refines the function of the same state |
| CfgBuilding.CfgBuilder.LowerStmts | src/cfg/build.rs:120-124 | the loop over statements refines the recursive function |
| CfgBuilding.CfgBuilder.LowerStmt | src/cfg/build.rs:126-213 | refines the function of the same state |
| CfgBuilding.CfgBuilder.LowerIf | src/cfg/build.rs:217-263 | the loop over ELSIF parts refines the recursive function |
| CfgBuilding.CfgBuilder.LowerWhile | src/cfg/build.rs:267-283 | refines the function of the same state |
| CfgBuilding.CfgBuilder.LowerLoop | src/cfg/build.rs:287-300 | refines the function of the same state |
| CfgBuilding.CfgBuilder.LowerExit | src/cfg/build.rs:304-308 | refines the function of the same state |
| CfgBuilding.CfgBuilder.LowerRepeat | src/cfg/build.rs:312-328 | refines the function of the same state |
| CfgBuilding.CfgBuilder.LowerFor | src/cfg/build.rs:332-449 | refines the function of the same state |
| CfgBuilding.CfgBuilder.LowerCase | src/cfg/build.rs:453-563 | refines the function of the same state |
| CfgBuilding.CfgBuilder.LowerTry | src/cfg/build.rs:567-698 | refines the function of the same state |
| CfgBuilding.CfgBuilder.LowerHandlers | src/cfg/build.rs:601-684 | refines the function of the same state |
| CfgBuilding.CfgBuilder.LowerDispatch | src/cfg/build.rs:618-667 | the loop over clauses refines the recursive function |
| CfgBuilding.BuildCfg | src/cfg/build.rs:739-745 | the class builds the graph that the proofs are about; when it panics, and that it returns a verified graph exactly for the accepted bodies |
| CEmit.EmitBody | src/codegen_c/cfg_emit.rs:24-133 | the loop over blocks produces the lines that the proofs are about, with the constant raise for a RAISE without operand |
| CEmit.EmitBlock | src/codegen_c/cfg_emit.rs:64-133 | one block appends its label, its statements and its terminator's lines |
| CEmit.LabelIsUnique | src/codegen_c/cfg_emit.rs:64-75 | every block but the entry has exactly one label, at its start |
| CSimulation.ArmsRun | src/codegen_c/cfg_emit.rs:205-234 | the chain of arm tests takes the first arm with a matching label, or the default, when the selector has no side effects |
| CSimulation.OneArmRuns | src/codegen_c/cfg_emit.rs:152-159 | with a single comparison the chain does so whatever the selector does to the store |
| CSimulation.StepMatches | src/codegen_c/cfg_emit.rs:136-203 | with exception 1 pending, one step of the graph is one or more steps of the lines, to the matching place |
| CSimulation.RunMatches | src/codegen_c/cfg_emit.rs:24-133 | the same for runs of any length |
| CSimulation.EmissionIsExact | src/codegen_c/cfg_emit.rs:24-203 | for every start the lines end in a given way if and only if the graph does with exception 1 pending: no goto is lost and no block falls through |
| CSimulation.EmissionAgreesIff | src/codegen_c/cfg_emit.rs:194-200 | the lines end as the graph does from the same start if and only if exception 1 is pending or the run executes no bare RAISE |
| CSimulation.EmissionDiverges | src/codegen_c/cfg_emit.rs:24-203 | the lines run for ever if and only if the graph does |
| EndToEnd.BuildIsEmittable | src/cfg/build.rs:739-745 | the graph of a TRY-free body that `build_cfg` accepts, with selectors that have no side effect or a single comparison, has no handler and meets what emission needs; without a bare RAISE in the body no run executes one |
| EndToEnd.EmittedIsExact | src/codegen_c/cfg_emit.rs:14-133 | for such a body and every start the emitted C ends in a given way if and only if the statements do with exception 1 pending, and it never falls off its lines |
| EndToEnd.EmittedIsFaithful | src/codegen_c/cfg_emit.rs:14-203 | if the body has no bare RAISE, or exception 1 is pending, that is how the statements end from the same start |
| EndToEnd.SameEndsIff | src/codegen_c/cfg_emit.rs:194-200 | it is if and only if exception 1 is pending or the run executes no bare RAISE |
| EndToEnd.BareRaiseEscapes | src/codegen_c/cfg_emit.rs:194-200 | a body that is one bare RAISE, with another exception pending, ends differently in C |
| EndToEnd.EmittedDiverges | src/codegen_c/cfg_emit.rs:14-133 | the emitted C runs for ever if and only if the statements do |
| Selectors.SelectorRepeats | src/codegen_c/cfg_emit.rs:205-234 | with a second comparison, and a selector that may be evaluated only once, the emitted C raises where the statements end normally |
| Selectors.SelectorIff | src/codegen_c/cfg_emit.rs:152-159 | a body that is one CASE, with any TRY-free branches whose own selectors are other expressions and a straight-line or absent ELSE, ends in C as its statements do under every interpretation if and only if it has one branch with one label that is not a range |
| Dataflow.ComputePreds | src/cfg/mod.rs:141-154 | the predecessor lists are the inverse of the edges, without repeats |
| Dataflow.Enqueue | src/cfg/dataflow.rs:62-69 | successors already waiting are not queued again |
| Dataflow.JoinAll | src/cfg/dataflow.rs:73-83 | the loop joins the outputs of all predecessors |
| Dataflow.JoinGreatest | src/cfg/dataflow.rs:73-83 | the join is the greatest state below all predecessors' outputs |
| Dataflow.VisitChanged | src/cfg/dataflow.rs:88-99 | a visit that changes a block lowers it, keeps it above every solution and leaves every other awake block either queued or settled |
| Dataflow.SolveForward | src/cfg/dataflow.rs:50-102 | it terminates; values only descend, never below any solution; awake blocks meet their equation and the others were never visited |
| Dataflow.AsleepIsDormant | src/cfg/dataflow.rs:88-99 | the blocks the solver never visits are those that some assignment consistent with the equations leaves asleep, whatever order it works in |
| Dataflow.SolvesIff | src/cfg/dataflow.rs:88-99 | the result solves the equations if and only if transfer fixes bottom at every such block |
| Dataflow.SolvesGreatest | src/cfg/dataflow.rs:50-102 | every solution lies below the result |
| Paths.MopIsPreSolution | src/cfg/dataflow.rs:71-86 | the meet over all paths is consistent with the equations |
| Paths.ClearHasPath | src/cfg/dataflow.rs:71-99 | a bit left clear at the start of a block is clear on some path from the entry to it |
| Paths.SolutionOnPath | src/cfg/dataflow.rs:71-99 | a solution holds on every path |
| Paths.SolutionIsMop | src/cfg/dataflow.rs:50-102 | a solution that is not below the meet over all paths is that meet |
| Paths.WakeIsPreSolution | src/cfg/dataflow.rs:71-99 | the meet over the waking paths is consistent with the equations at every block it wakes |
| Paths.AwakeIff | src/cfg/dataflow.rs:88-99 | a block other than the entry is visited if and only if some path to it leaves a bit clear after each block on the way |
| Paths.OutIsWakeBit | src/cfg/dataflow.rs:50-102 | the result at every block is exactly the meet over the paths that wake their blocks |
| Paths.FixpointIsMopIff | src/cfg/dataflow.rs:50-102 | the result is the meet over all paths at every reachable block if and only if no block without such a path clears a bit |
| Paths.FixpointIsMop | src/cfg/dataflow.rs:50-102 | it always is when no block can clear a bit |
| LintScans.UsesIff | src/cfg/lint.rs:270-347 | a name is collected as read if and only if a place or address rooted at that local occurs where it is evaluated, other than as a VAR argument or a defining builtin's first argument; and as written if and only if a call on the way is handed it to write |
| LintScans.StmtReadsIff | src/cfg/lint.rs:350-396 | the same for statements |
| LintScans.DefinesIff | src/cfg/lint.rs:205-247 | an expression defines a variable if and only if a call in it is handed the local by address, or is a defining builtin with it as first argument |
| LintScans.BlockDefinesIff | src/cfg/lint.rs:138-203 | the same for the statements and the terminator of a block |
| LintScans.DerefsIff | src/cfg/lint.rs:684-745 | a name is collected as dereferenced if and only if a place with ^, or p^, on that local occurs in the expression |
| LintScans.StmtDerefsIff | src/cfg/lint.rs:747-766 | the same for statements |
| LintScans.NilEffectIff | src/cfg/lint.rs:623-681 | a statement makes a pointer NIL or non-NIL exactly by assigning to the whole local, NEW or DISPOSE |
| LintScans.NilEntryIff | src/cfg/lint.rs:589-599 | at the start exactly the parameters count as non-NIL |
| LintScans.ScanMeaning | src/cfg/lint.rs:205-250 | scanning an expression sets exactly the variables it defines through defining builtins, and clears none |
| Lint.AssignedIsBitwise | src/cfg/lint.rs:119-203 | W10's transfer works on each variable alone and never clears a bit |
| Lint.DefinitelyAssignedExact | src/cfg/lint.rs:121-247 | the final bit of a tracked variable is set if and only if every path from the entry through the block's end contains a block that writes the local |
| Lint.NilIsBitwise | src/cfg/lint.rs:586-681 | W11's transfer works on each pointer alone: its last tracked update in the block decides |
| Lint.NilSafetyExactIff | src/cfg/lint.rs:586-681 | W11's states are the meet over all paths at reachable blocks if and only if no block without a waking path leaves a pointer possibly NIL |
| Lint.AsleepIsInexact | src/cfg/lint.rs:586-681 | a graph in which a pointer counts as non-NIL after the block that assigns NIL to it |
| Lint.ScanPoint | src/cfg/lint.rs:441-499 | at one point every name it warns about is used there, tracked, not assigned in the scanning state and not warned about before |
| Lint.ScanBlock | src/cfg/lint.rs:436-500 | a block's statements in order, then its terminator |
| Lint.ScanGraph | src/cfg/lint.rs:432-501 | all blocks; each name is warned about at most once |
| Lint.UseHasWitness | src/cfg/lint.rs:432-500 | every W10 warning is at a point that reads the local and has a path from the entry on which the local is never written |
| Lint.FlaggedIff | src/cfg/lint.rs:432-500 | in the entry, and in a block that does not write the local, a point is flagged if and only if it reads the local, has such a path and no earlier call was collected as writing the local |
| Lint.DerefWitnessIff | src/cfg/lint.rs:768-838 | a W11 warning is at a point that dereferences the pointer, and has a path whose last change of it, or the entry, leaves it possibly NIL if and only if its block is reachable |
| Lint.DerefFlaggedIff | src/cfg/lint.rs:768-838 | in the entry, and in a block that does not change the pointer, a point is flagged if and only if it dereferences the pointer and some path that wakes its blocks leaves it possibly NIL there |
| Lint.LintUninitialized | src/cfg/lint.rs:417-502 | every W10 warning is at a read of the local and has a witness path, no name is reported twice, and every bad use in the entry or in a block that does not write the local has its name reported |
| Lint.LintNilSafety | src/cfg/lint.rs:768-838 | every W11 warning is at a dereference, in a reachable block it has a witness path, no name is reported twice, and every bad dereference in the entry or in a block that leaves the pointer alone has its name reported |
| Lint.UnreachableDeref | src/cfg/lint.rs:768-838 | a graph in which W11 warns about a dereference that no path reaches |
| Lint.CompleteBlocksAreSilent | src/cfg/dataflow.rs:88-90 | a block other than the entry through whose end every path defines every variable draws no W10 warning |
| Lint.MissedUse | src/cfg/lint.rs:432-500 | a graph in which a variable is used before any assignment and W10 says nothing |
| Numerals.HexRoundTrip | src/build.rs:78-80 | every 64-bit value is read back from its hexadecimal text, and no larger one is |
| Numerals.DecimalRoundTrip | src/json.rs:56-62 | every integer is read back from its decimal text |
| JsonRoundTrip.EscapeParses | src/json.rs:65-76 | one printed character is read as itself, or stays escaped if its escape is not decoded |
| JsonRoundTrip.StringParses | src/json.rs:193-214 | a printed string is consumed exactly and read as its characters with lossy ones left escaped |
| JsonRoundTrip.MangledIff | src/json.rs:199-207 | a string comes back unchanged if and only if it has no lossy character; what comes back never has one |
| JsonRoundTrip.NumeralParses | src/json.rs:216-233 | the scanner consumes exactly a printed number before anything that cannot continue it |
| JsonRoundTrip.TextParses | src/json.rs:179-288 | for every value with finite numbers, before any delimiter, the parser consumes exactly the printed text |
| JsonRoundTrip.NonFiniteFails | src/json.rs:56-62 | a value holding NaN or an infinity anywhere prints to text that is rejected |
| JsonRoundTrip.ParsePrinted | src/json.rs:15-20 | what parsing gives for any printed value and any delimited text after it |
| JsonRoundTrip.RoundTripIff | src/json.rs:52-99 | parsing a printed value gives it back if and only if its numbers are finite and not a negative zero and its strings and keys hold no lossy character |
| JsonRoundTrip.CarriageReturnIsLost | src/json.rs:65-76 | a string that is one carriage return comes back as a backslash and an r |
| JsonRoundTrip.NegativeZeroIsLost | src/json.rs:56-58 | the negative zero prints as `0` and comes back as the other zero |
| JsonRoundTrip.NumsAreLawful | src/json.rs:36-38 | the laws assumed of numbers hold of the integers together with a negative zero, NaN and both infinities |
| JsonSpacing.SpacedParses | src/json.rs:164-168 | whatever white space stands before a printed value and in any gap between its tokens, the parser takes exactly that text and returns what it returns for the printed text; the set of characters is given literally |
| JsonSpacing.PutIsText | src/json.rs:52-99 | with nothing in the gaps that is the printed text |
| JsonTokens.EscapesRead | src/json.rs:199-207 | the five escapes that are decoded, given literally; any other pair stands for itself |
| JsonTokens.ControlIsHex | src/json.rs:72-75 | every control character without an escape of its own prints as a backslash, u and its code in four hexadecimal digits |
| JsonTokens.TextPrints | src/json.rs:63-79 | the text of any value is free of raw control characters |
| JsonTokens.NumbersScan | src/json.rs:216-233 | every number of the JSON grammar, with fraction and exponent, is scanned whole |
| JsonTokens.NoValueStarts | src/json.rs:179-191 | a character that starts no value is reported, and so is the end of the text |
| JsonTokens.HexForms | src/build.rs:78-80 | a plus sign and capital digits are read; text without digits is not a number |
| JsonParsing.WriteString | src/json.rs:63-79 | the loop appends exactly the escaped text |
| JsonParsing.WriteTo | src/json.rs:52-99 | appends exactly the value's text |
| JsonParsing.WriteArray | src/json.rs:80-87 | the loop appends the elements with commas between them |
| JsonParsing.WriteObject | src/json.rs:88-97 | the loop appends keys and values with commas between them |
| JsonParsing.Serialize | src/json.rs:46-50 | the text of the value |
| JsonParsing.JsonParser.SkipWhitespace | src/json.rs:164-168 | moves past exactly the leading white space, up to the first character outside the literal set |
| JsonParsing.JsonParser.ExpectChar | src/json.rs:170-177 | takes the character or reports what it found |
| JsonParsing.JsonParser.ReadString | src/json.rs:193-214 | result, error and position agree with the function on text |
| JsonParsing.JsonParser.ScanNumber | src/json.rs:216-231 | stops where the function on text says |
| JsonParsing.JsonParser.ReadNumber | src/json.rs:216-233 | result, error and position agree with the function on text |
| JsonParsing.JsonParser.ReadBool | src/json.rs:235-243 | result, error and position agree with the function on text |
| JsonParsing.JsonParser.ReadNull | src/json.rs:245-251 | result, error and position agree with the function on text |
| JsonParsing.JsonParser.ReadValue | src/json.rs:179-191 | result, error and position agree with the function on text |
| JsonParsing.JsonParser.ReadArray | src/json.rs:253-267 | result, error and position agree with the function on text |
| JsonParsing.JsonParser.ReadObject | src/json.rs:269-288 | result, error and position agree with the function on text |
| JsonParsing.ParseText | src/json.rs:15-20 | the parser object computes the function that the round trip and the spacing result are about |
| BuildStates.SortedKeys | src/build.rs:100-101 | the map's keys in strictly ascending order: at the first difference the smaller code point, or the end, comes first |
| BuildStates.SortedIsUnique | src/build.rs:100-101 | there is only one such listing, so the saved text depends on the state alone |
| BuildStates.Save | src/build.rs:92-121 | the text of the state with its keys in ascending order |
| BuildStates.Load | src/build.rs:60-89 | the state read entry by entry; no file or unreadable text gives the empty state |
| BuildStates.MissingIsZero | src/build.rs:72-80 | fields that are missing or of the wrong kind load as zero |
| BuildStates.StampLoads | src/build.rs:72-80 | a saved stamp loads with its hash, and with its time and size after a cast to a double and back |
| BuildStates.SmallSurvives | src/build.rs:105-106 | times and sizes below 2^53 survive |
| BuildStates.SaveLoadIff | src/build.rs:60-121 | loading what was saved gives the same state if and only if every path is free of lossy characters and every time and size survives |
| BuildStates.CarriageReturnPath | src/build.rs:60-121 | a state whose one path holds a carriage return does not come back |
| Definitions.QueueImports | src/driver.rs:763-773 | for each clause the module after FROM, or else every module listed, is queued unless parsed, and nothing else |
| Definitions.LoadDefinitions | src/driver.rs:788-829 | it terminates; clause by clause, what the main module and every definition read import is settled; nothing is read that is not needed; a file that does not parse is reported only if it is needed |
| Definitions.DefSorter.Visit | src/driver.rs:835-856 | depth-first: the name ends up visited, the order kept so far is extended, what was pending stays pending, and clause by clause each name follows the modules it imports unless they import it back |
| Definitions.TakeDefinitions | src/driver.rs:861-863 | exactly the sorted names that have a definition, in order |
| Definitions.SortDefinitions | src/driver.rs:833-863 | for any listing of the names, a permutation of the parsed definitions in which, clause by clause, each follows every parsed module it imports that does not import it back; a topological order if there is no cycle |
| TypeDescs.Registry.RegisterTypeDesc | src/codegen_c/m2plus.rs:13-31 | a new entry with a depth one more than its parent's if the parent is still in the table, and 1 otherwise |
| TypeDescs.Registry.EmitTypeDescs | src/codegen_c/m2plus.rs:35-55 | hands over the table and empties it |
| TypeDescs.RunLinked | src/codegen_c/decls.rs:365-398 | after any run of registrations and emissions with new symbols and registered parents, every parent pointer leads to an earlier descriptor |
| TypeDescs.AncestorIsShallower | src/stdlib.rs:897 | if no parent is deeper than its child, no ancestor is |
| TypeDescs.IsA | src/stdlib.rs:892-903 | it terminates and answers yes if and only if the target is on the reflexive chain of parents and is not deeper |
| TypeDescs.ExitIsSafeIff | src/stdlib.rs:897 | the early exit is right for all pairs if and only if no parent is deeper than its child |
| TypeDescs.RegisterIff | src/codegen_c/m2plus.rs:16-23 | a registration keeps it right if and only if the parent is still in the table or lies no deeper than 1 |
| TypeDescs.RunIsSafeIff | src/codegen_c/m2plus.rs:13-55 | over a whole run the early exit is right if and only if every registration was such |
| TypeDescs.EarlierModuleMisleads | src/codegen_c/m2plus.rs:35-55 | three types in one module and a fourth in the next, each parent registered first, for which the test denies an ancestor |
| Layout.MaskIsAlignUp | src/target.rs:610-613 | barring overflow, masking with the complement of the alignment less one rounds up to the next multiple |
| Layout.AlignUpIsLeast | src/target.rs:610-613 | no smaller aligned offset is at or after the given one |
| LayoutSafety.LeavesArePacked | src/target.rs:350-429 | every scalar of an aligned variant-free value is aligned, they are pairwise disjoint, and they lie inside the value's size |
| ArrayLayout.ElementInside | src/target.rs:364-371 | the element of every index from low to high, index - low strides on, lies inside the array |
| ArrayLayout.ArraySizeIsLeast | src/target.rs:364-371 | no smaller multiple of the stride holds all elements; without an index the size is 0 |
| ArrayLayout.ElementLeavesAt | src/target.rs:364-371 | the scalars of that element are among the array's, at that place |
| ArrayLayout.ArrayLeavesCount | src/target.rs:364-371 | and there are no others |
| Targets.PrimitivesAgree | src/target.rs:300-345 | the primitive sizes and alignments are those the LP64 target gives |
| LayoutSafety.OffsetsAreFeasible | src/target.rs:516-531 | the fixed fields are aligned, in order and disjoint |
| LayoutSafety.OffsetsAreLeast | src/target.rs:516-531 | no aligned, ordered, non-overlapping layout puts any fixed field or the end earlier |
| VariantLayout.PartsArePacked | src/target.rs:450-478 | at an address aligned for all of it, a variant record's fixed fields, tag and selected case are aligned, disjoint and inside its size |
| VariantLayout.VariantAlignIff | src/target.rs:412-418 | they are wherever the reported alignment allows if and only if no scalar of the tag or of any case needs more than it |
| VariantLayout.VariantTypesIff | src/target.rs:412-418 | without empty arrays, if and only if neither the tag nor the union needs more than the fixed fields |
| VariantLayout.LongintAtNine | src/target.rs:412-418 | a variant record placed after a CHAR, with its LONGINT at absolute offset 9 |
| LayoutBuilding.ResolveType | src/target.rs:616-624 | following aliases ends and changes neither size, alignment nor layout |
| LayoutBuilding.TypeAlign | src/target.rs:398-429 | the loops compute the alignment the proofs are about |
| LayoutBuilding.TypeSize | src/target.rs:350-395 | the loops, with the target's primitive sizes and the element count, compute the size the proofs are about |
| LayoutBuilding.PlaceFields | src/target.rs:441-448 | the running offset and alignment over the fields |
| LayoutBuilding.PlaceUnion | src/target.rs:459-473 | the largest padded case and the largest alignment |
| LayoutBuilding.ComputeRecordSize | src/target.rs:432-482 | the size of the record, variants included |
| LayoutBuilding.ComputeRecordLayout | src/target.rs:507-579 | the total size equals the size computed on its own, variants included, and is a multiple of the layout's alignment; fixed fields get the least offsets; a named tag is the one further entry, at the first offset after them that suits its type; without variants the alignment is the reported one |

## Left out

- SimulationStmts.SimTry: the simulation asks for quiet clause bodies and a catch-all in a TRY inside the body of a TRY; passing other exceptions outwards is left to the runtime's frame stack, and `NestedIff` shows that the graph does not do it.
- NestedTry.NestedIff: clauses that name the same exception twice are not characterised, since the second is never reached; inner bodies that start without a leaf, and other outer clauses, are not either.
- FINALLY parts that are not straight-line: the builder copies their statements into one block unlowered, which has no meaning as a graph.
- EXCEPT clauses that name an undeclared exception, because the emitted test of any other name is an ordinary expression.
- RETRY and LOCK statements.
- The setjmp frames of the C emission and anything else it does for graphs with handlers.
- CSimulation.EmissionIsExact: a selector with a side effect has a single comparison, as `SelectorIff` shows it must, and conditions name no exception, because the emitted test mentions a frame that does not exist.
- EndToEnd.TryFree is asked of all statements, also of those that are never lowered.
- EndToEnd.SameEndsIff: whether a run executes a bare RAISE depends on what the leaves do; that the body has none is the condition on its text.
- Lint.FlaggedIff: in a block that itself writes the local further on, whether a read before that is reported depends on the order of the visits.
- Lint.DerefFlaggedIff: the same in a block that itself changes the pointer.
- Graph clean-up (unreachable-block removal and goto collapsing), which no pass of the compiler calls.
- `block_in` as a fixpoint, which it is not.
- Source locations, type ids and message texts; the numeric ids of type descriptors; the position in JSON error messages.
- Reading and writing files, finding definition files and parsing them: parameters.
- The names registered before the ordering of definitions: the set is empty at that point.
- 32-bit overflow of sizes and offsets, and types that contain themselves by value; variant records inside the parts of a variant record.
- How a double prints and reads beyond the laws stated, and COMPLEX arithmetic.
- `M2_TYPEOF`, which reads a payload's header: the subtype test starts from its descriptor.
- Lexer, parser, semantic analysis, the other lints, the LLVM backend, project files and the language server.
