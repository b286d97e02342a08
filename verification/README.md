# Verified model of the model-checking engines

A Dafny model of the engines, encoders and unrollers of a symbolic model
checker, and proofs of what they are for. A safety engine answers TRUE, FALSE or
UNKNOWN about a transition system; the main results say what each answer means,
over all runs, all systems and every behaviour of the solvers. SMT solvers,
interpolators and unsat cores appear only as oracles: a satisfiable answer comes
with a model, an unsatisfiable one means that there is none, a core is a part
that is still unsatisfiable, an interpolant lies between the two sides.

- `Cardinality` - sizes of finite sets; `Runs` - transition systems, finite runs,
  shortest counterexamples, loop cutting.
- `Ic3Formulas`, `Ic3Solver`, `Ic3Frames`, `Ic3Queries`, `Ic3Goals`, `Ic3Measure`,
  `Ic3` - IC3 with delta-encoded frames, labels, proof goals, in-place compaction,
  and its completeness over finite state spaces.
- `Terms`, `TransitionSystems` - terms, and the system object that is built step by step.
- `Liveness`, `LivenessToSafety`, `LivenessToSafetyCorrect` - justice over infinite
  runs, lassos, and the in-place translation.
- `KLiveness` - counter encodings, revisit search, the outer loop.
- `Unrolling`, `KInduction`, `Pdkind` - timed formulas, k-induction, and
  property-directed k-induction with its lemmas.
- `DualReach` - dual approximated reachability.
- `Unrollers` - the plain and the functional unroller.
- `Justification` - the worklist behind syntax-guided predecessor generalisation.
- `PredicateAbstraction` - implicit predicate abstraction and its refinement.

`dafny verify dfyconfig.toml` checks everything. All lemmas switch automatic
induction off; the inductive ones call themselves.

## Where the code falls short of its documentation

- `is_right_total` (`pono-src/core/ts.cpp:659-733`) treats state variables without
  update like inputs, also in the current state, so a passing query does not mean
  that every state has a successor. `Unrolling.RightTotalQueryIsNotEnough` gives a
  system with a two-valued counter and a free variable for which k-induction with
  the one-time base check and that query would answer TRUE although it is unsafe.
- When no variable has an update, `is_right_total` also skips the negation together with
  the quantifiers (`pono-src/core/ts.cpp:720-725`): the query then passes exactly when no
  state can be left (`Unrolling.NoUpdateQuery`). `Unrolling.NoUpdateQueryMisleads` is an
  unsafe system on which this too would make TRUE wrong, `Unrolling.NoUpdateQueryRefuses` one
  that is total and refused. `Unrolling.IsRightTotalIff` says exactly when the answer is
  right; `Unrolling.RightTotalDecides` gives what can be looked up: some variable has an
  update, and none lacks one or the transition relation does not read those that do. The
  flat check may then be used.
- `is_lemma_sound` (`pono-src/engines/pdk_ind.cpp:585-587`) is documented to make a
  lemma hold on every reachable state. Its queries run with the unrolled transitions
  in the background, so that is true exactly when no reachable state is stuck:
  `Pdkind.CheckSoundIff`.
- PDKind asserts the constraints also at the last time of the unrolling, so both checks
  miss a bad state whose own constraint fails (`Pdkind.StuckSystemPassesDepthZero`). The
  base check is exact for every property and depth precisely when every reachable state
  meets the constraints for some input (`Pdkind.BaseExactIff`), and TRUE rests on that,
  not on the absence of deadlocks, as far as no lemma is involved.
- A base check that comes back unknown is skipped (`pono-src/engines/pdk_ind.cpp:181`,
  and likewise `pono-src/engines/kinduction.cpp:243-250`). TRUE then means: safe exactly
  if no counterexample has one of the lengths skipped (`Pdkind.PDKind.CheckUntil`,
  `KInduction.KInduction.CheckUntil`); `Pdkind.UnknownBaseMisleads` and
  `KInduction.UnknownBaseMisleads` give an input where it is wrong.
- PDKind is said to prove everything that k-induction proves (`pono-src/engines/pdk_ind.cpp:328-330`).
  It skips a pair of times with nothing to compare (`pono-src/engines/pdk_ind.cpp:365`), where
  k-induction asserts false. The claim holds for every property exactly if some variable has an
  update, the depth is below 2, or there are no three different states of which the first two
  can be left, the last two can be entered and the last meets the constraints
  (`Pdkind.DominatesIff`); `Pdkind.DominanceFails` is the input otherwise.
- A predicate reducer that cannot reset keeps the formula of a query that was not unsatisfiable
  (`pono-src/modifiers/implicit_predicate_abstractor.cpp:121-132`); a later core may rest on it
  and exclude nothing (`PredicateAbstraction.LeftoverMisleads`). Refinement by a core is claimed
  if the reducer can reset or nothing is left over.
- The functional unroller does not rebuild its layers when variables are added, as the plain one
  does (`pono-src/core/unroller.cpp:131-151`): a term is unrolled to timed symbols exactly if its
  symbols were there when the layer was built (`Unrollers.TimedIffKnown`).
- IC3 asserts, in debug builds only, that its two base checks are not unknown
  (`pono-src/engines/ic3base.cpp:482-486`, `pono-src/engines/ic3base.cpp:505-508`). Without the
  assertion an unknown answer counts as unsat, and TRUE is then unfounded:
  `Ic3Solver.UnknownStartMisleads`. The model's solvers always decide.
- Inductive generalisation looks for a local minimum (`pono-src/engines/ic3base.cpp:312-313`), but a
  literal found necessary is not tried again after later drops (`pono-src/engines/ic3base.cpp:336-339`)
  that can make it redundant: `Ic3Queries.TriedIsNotMinimal` is an input. What holds is that each
  literal left was needed in some larger cube; if it was needed to avoid init, it still is
  (`Ic3Queries.NeededForInit`).
- `constrain_inputs` records its constraint with the flag that lets it be re-added over init and
  next states (`pono-src/core/ts.h:264-272`) but does not impose it there
  (`pono-src/core/ts.cpp:237-249`): a formula over the current state means more when re-added.
- The comment on `literal_drop` in `pono-src/engines/pdk_ind.h:109-118` has the answers
  of the probe the wrong way round; the model follows `pono-src/engines/pdk_ind.cpp:514-547`.
- The functional unroller is documented to introduce fresh symbols every `interval`
  steps (`pono-src/core/functional_unroller.h:36-39`); the code asks whether the requested
  time, not the step, is a multiple (`pono-src/core/functional_unroller.cpp:63`). With
  interval 4, `Unrollers.ScheduleMissed` shows both kinds of deviation; `Unrollers.ScheduleIff`
  is the exact condition on the history of requests: none skips a multiple of the interval
  (`Unrollers.NoMultipleSkipped`, in particular if each adds at most one layer). The meaning
  of unrolled terms does not depend on it.

## Model

| member | source | states |
|---|---|---|
| `Ic3.IC3.CheckUntil` | pono-src/engines/ic3base.cpp:161-201 | TRUE comes with an inductive invariant (the frame saved by the last step) and safety, FALSE with a real run through the recorded trace; UNKNOWN excludes counterexamples of up to k transitions and is impossible once k exceeds a bound quadratic in the number of states, where the verdict is TRUE exactly for safe systems; from fresh, a property that is already inductive gives TRUE at every bound from 2 on |
| `Ic3.IC3.Step` | pono-src/engines/ic3base.cpp:426-465 | one bound: keeps the frame invariant and reached_k equal to the last frame index; undecided means that every frame below the new frontier still has a clause and, if the solver could be reset, that the labels hold exactly the stored clauses; TRUE if frame 1 is empty and the frontier has no step into bad; an undecided step past n + 1 bounds removes a state from one of the first n + 2 frames |
| `Ic3.IC3.Step01` | pono-src/engines/ic3base.cpp:467-512 | bounds 0 and 1: either a real counterexample, or init and its successors avoid bad and the frame invariant holds |
| `Ic3Solver.UnknownStartMisleads` | pono-src/engines/ic3base.cpp:482-486 | an unsafe system whose only model is that of the first base check, so that taking an unknown answer there for unsat makes TRUE wrong |
| `Ic3.IC3.NoShortCex` | pono-src/engines/ic3base.cpp:436-438 | when k transitions have been checked every counterexample has more than k |
| `Ic3.IC3.Initialize` | pono-src/engines/ic3base.cpp:116-159 | two empty frames with the property implicit, nothing reached; no effect when already initialised |
| `Ic3.IC3.BlockAll` | pono-src/engines/ic3base.cpp:624-708 | terminates on finite state spaces; true means no state of the last frame steps into bad, false that the trace has a real run; frames only get stronger, and stay as they are if the last frame already had no step into bad |
| `Ic3.IC3.BlockGoals` | pono-src/engines/ic3base.cpp:634-701 | works the queue off by the measure (states in frames, blocked goals queued, lowest goal index), as a chain of rounds each of which handles the lowest goal the one before has left, ending only with an empty queue; that has cost a frame at least one state |
| `Ic3.IC3.BlockTop` | pono-src/engines/ic3base.cpp:634-701 | what each round makes of the lowest goal: dropped exactly if blocked; if it can be entered, a predecessor one frame below is queued above it; otherwise a clause is learned and the goal is asked again; every queued goal stays in order and the measure decreases |
| `Ic3.IC3.BlockGoal` | pono-src/engines/ic3base.cpp:663-694 | the learned clause blocks the goal at its frame and strictly shrinks the frames; it is a part of a generalisation whose every literal was tried, taken to the last frame it stays inductive for, and the frames change by it and what it subsumes only |
| `Ic3.IC3.BlockAndRequeue` | pono-src/engines/ic3base.cpp:663-694 | after the clause is stored the goal is queued again one frame above the one reached, exactly if that is below the frontier; the rest of the queue is kept |
| `Ic3.IC3.RelIndCheck` | pono-src/engines/ic3base.cpp:514-620 | unsat: a smaller cube, still apart from init, that no state of frame i-1 outside the original enters, and exactly the literals of the core with those the reducer needs to avoid init; sat: the cube can be entered, and the predecessor cube meets frame i-1 and steps into the target from every state; it is exactly the reducer's core, or a single state if that is switched off or i is 1 |
| `Ic3.IC3.FixIfIntersectsInitial` | pono-src/engines/ic3base.cpp:929-945 | re-adds exactly the literals of the reducer's core, which is enough to be apart from init, and none if nothing was dropped |
| `Ic3.IC3.SplitByCore` | pono-src/engines/ic3base.cpp:577-588 | a literal is kept exactly when its assumption is in the core |
| `Ic3.IC3.CheckIntersectsInitial` | pono-src/engines/ic3base.cpp:911-927 | true exactly when some initial state is in the cube |
| `Ic3.IC3.InductiveGeneralization` | pono-src/engines/ic3base.cpp:307-382 | terminates; the clause's negation is a subcube of the given one, contains no initial state and is inductive relative to frame i-1; if more than one literal is left, each of them was tried in vain: some cube between the result and the original met init or could be entered without it |
| `Ic3Queries.TriedIsNotMinimal` | pono-src/engines/ic3base.cpp:323-375 | a relatively inductive cube of three literals of which the first two are needed and the third is not, after which the first is not needed either, although it has been tried |
| `Ic3Queries.NeededForInit` | pono-src/engines/ic3base.cpp:323-375 | a literal without which the cube meets init stays needed when others are dropped |
| `Ic3Queries.PutBackKeepsTried` | pono-src/engines/ic3base.cpp:360-373 | putting a literal back at the end keeps the record of what was tried for the others, although the cube has been sorted again |
| `Ic3.IC3.TryDrop` | pono-src/engines/ic3base.cpp:334-358 | a successful drop gives a strictly smaller cube with the generalisation property; a failed one means that the cube without the literal meets init or can be entered |
| `Ic3.IC3.FindHighestFrame` | pono-src/engines/ic3base.cpp:947-974 | the clause is inductive relative to the frame below the returned one, which is the last frame or one past which the cube can be entered |
| `Ic3.IC3.PredecessorGeneralization` | pono-src/engines/ic3.cpp:74-133 | every state of the generalised predecessor cube steps into the target, and the cube still meets the frame it was found in; it keeps exactly the literals in the core, or all of them at frame 1 |
| `Ic3.IC3.GetModelFormula` | pono-src/engines/ic3.cpp:37-55 | the cube of exactly one state |
| `Ic3.IC3.ReachesBad` | pono-src/engines/ic3base.cpp:392-424 | false exactly means no step from the last frame into bad; true returns a cube that meets the last frame and steps into bad from every state, generalised exactly if the option says so |
| `Ic3.IC3.IsBlocked` | pono-src/engines/ic3base.cpp:710-732 | the syntactic and the solver check together decide whether the goal meets its frame |
| `Ic3.IC3.Propagate` | pono-src/engines/ic3base.cpp:734-767 | in-place propagation keeps the frame invariant and every frame but i and i+1; it keeps exactly clauses that were there and whose cube could be entered from frame i; true exactly when the frame is empty, and if it left frames i and i+1 as they were then frame i+1 has a state that frame i lacks |
| `Ic3.IC3.PropagateClause` | pono-src/engines/ic3base.cpp:743-761 | the exact frames afterwards: a pushed clause adds what the core leaves of it to the next level and nothing is lost, a kept one moves to the compacted prefix because its cube can be entered |
| `Ic3.IC3.PushFrame` | pono-src/engines/ic3base.cpp:809-826 | one more empty frame and label store |
| `Ic3.IC3.PushFrameKeeps` | pono-src/engines/ic3base.cpp:809-826 | opening a frame above one that avoids bad keeps the frame invariant |
| `Ic3.IC3.ConstrainFrame` | pono-src/engines/ic3base.cpp:828-854 | the stored frames are those of the specification: subsumed clauses deleted at levels 1 to i, the clause appended at i, the labels extended |
| `Ic3.IC3.Compact` | pono-src/engines/ic3base.cpp:839-846 | the in-place loop leaves exactly the clauses that are not subsumed, in order |
| `Ic3.IC3.LearnClause` | pono-src/engines/ic3base.cpp:687-687 | storing a blocking clause keeps the invariant, strengthens the frames, blocks its cube up to the level, and changes nothing but the clause and what it subsumes |
| `Ic3.IC3.ResetSolver` | pono-src/engines/ic3base.cpp:1036-1087 | after a reset each label activates exactly the stored clauses of its frame; a failed reset is remembered and changes nothing |
| `Ic3.IC3.GetFrameTerm` | pono-src/engines/ic3base.cpp:882-901 | all clauses stored at the level or above, and no others |
| `Ic3.IC3.ReconstructTrace` | pono-src/engines/ic3base.cpp:998-1015 | the targets along the next pointers, then bad |
| `Ic3Frames.FirstFramesOk` | pono-src/engines/ic3base.cpp:473-508 | after the two base checks the first two frames satisfy the invariant |
| `Ic3Frames.PushedFrameOk` | pono-src/engines/ic3base.cpp:809-826 | a frame holding only the property can be opened once the last frame does not lead to bad |
| `Ic3Frames.BlockingKeepsFrames` | pono-src/engines/ic3base.cpp:828-854 | removing a cube that is apart from init and not entered from frame i-1 from frames 1 to i keeps: frame 0 is init, frames grow, each frame steps into the next, none meets bad |
| `Ic3Frames.ConstrainedBlocks` | pono-src/engines/ic3base.cpp:837-853 | with subsumption deletion the frames change by exactly the new clause |
| `Ic3Frames.ConstrainedLabels` | pono-src/engines/ic3base.cpp:856-880 | labels still say what the frames say although deleted clauses remain asserted under their label |
| `Ic3Frames.ResetLabelsAgree` | pono-src/engines/ic3base.cpp:1062-1077 | re-asserting the stored clauses makes labels and frames agree |
| `Ic3Frames.SmallerCubeInductive` | pono-src/engines/ic3base.cpp:572-594 | a subcube that is not entered from outside the original cube is itself relatively inductive |
| `Ic3Frames.MoveDownEquivalent` | pono-src/engines/ic3base.cpp:757-760 | moving a kept clause down to the compaction index loses nothing |
| `Ic3Frames.TruncateEquivalent` | pono-src/engines/ic3base.cpp:763-764 | dropping the tail left by compaction loses nothing |
| `Ic3Frames.EqualFramesInductive` | pono-src/engines/ic3base.cpp:450-457 | an emptied frame equals the next one, and that frame is an inductive invariant |
| `Ic3Frames.InductivePropertyIsSafe` | pono-src/engines/ic3base.cpp:449-457 | a property that init meets and that no step leaves is safe, the case in which frame 1 stays empty |
| `Ic3Frames.InvarIsFrame` | pono-src/engines/ic3base.cpp:882-901 | the saved term denotes the frame |
| `Ic3Frames.FrameCoversRuns` | pono-src/engines/ic3base.cpp:436-438 | frame k contains every state reached in at most k steps |
| `Ic3Frames.FramesExcludeShortCex` | pono-src/engines/ic3base.cpp:436-438 | with n + 1 frames no counterexample has n transitions or fewer |
| `Ic3Formulas.NegateComplements` | pono-src/engines/ic3base.cpp:280-305 | negation complements the meaning for clauses and cubes |
| `Ic3Formulas.SubsumesIff` | pono-src/engines/ic3base.cpp:57-67 | on sorted children the size test and merge decide multiset inclusion |
| `Ic3Formulas.SubsumesImplies` | pono-src/engines/ic3base.cpp:57-67 | a subsumed clause follows from the subsuming one |
| `Ic3Formulas.SortSorted` | pono-src/engines/ic3base.h:85-89 | children are sorted on construction |
| `Ic3Goals.GoalInitDisjoint` | pono-src/engines/ic3base.cpp:929-945 | a queued goal with index at least 1 never meets init, so the repair can succeed |
| `Ic3Goals.PredecessorOk` | pono-src/engines/ic3base.cpp:604-616 | a predecessor found in frame i-1 does not meet frame i-2 and leads on to its goal |
| `Ic3Goals.FrontierGoalOk` | pono-src/engines/ic3base.cpp:629-632 | a goal found at the frontier does not meet the frame below it |
| `Ic3Goals.GoalSurvives` | pono-src/engines/ic3base.cpp:689-694 | goals stay in order when frames are strengthened and when re-queued one frame higher after being blocked |
| `Ic3Goals.GoalAtInitIsCex` | pono-src/engines/ic3base.cpp:637-649 | a goal that reaches frame 0 stands for a real run along the next pointers into bad |
| `Ic3Goals.InitQuery` | pono-src/engines/ic3base.cpp:473-487 | the first base check: a model is a counterexample of no transition, no model means that init avoids bad |
| `Ic3Goals.OneStepQuery` | pono-src/engines/ic3base.cpp:489-508 | the second: a model is a step from init into bad, no model means that there is none |
| `Ic3Goals.TopIndex` | pono-src/engines/ic3base.h:129-138 | the goal taken first has the lowest index |
| `Ic3Goals.ProofGoalQueue.Top` | pono-src/engines/ic3base.cpp:93-93 | a goal of lowest index that is in the queue |
| `Ic3Goals.ProofGoalQueue.Pop` | pono-src/engines/ic3base.cpp:95-95 | removes just the goal on top |
| `Ic3Goals.ProofGoalQueue.NewProofGoal` | pono-src/engines/ic3base.cpp:84-91 | adds the goal and nothing else |
| `Ic3Measure.NoLongChain` | pono-src/engines/ic3base.cpp:449-458 | with n states, among the first n + 2 frames some frame has nothing that its predecessor lacks |
| `Ic3Measure.UndecidedStepShrinks` | pono-src/engines/ic3base.cpp:446-464 | a propagation phase without verdict means that one of the first n + 2 frames lost a state |
| `Ic3Measure.LearnedBlocksGoal` | pono-src/engines/ic3base.cpp:681-694 | a clause over part of the goal's cube blocks the goal and shrinks the frames |
| `Ic3Measure.BlockedPushGrows` | pono-src/engines/ic3base.cpp:751-760 | a clause that cannot be pushed shows a state only the next frame has |
| `Ic3Measure.ConcretizedIsUnsafe` | pono-src/engines/ic3base.cpp:182-185 | a run through the recorded trace refutes the property |
| `Runs.InvariantImpliesSafe` | pono-src/engines/ic3base.cpp:450-457 | an inductive invariant excludes every reachable bad state |
| `Runs.ShortestCexNoShortcut` | pono-src/engines/kinduction.cpp:275-298 | a shortest counterexample has no step that skips ahead, the fact behind simple-path constraints |
| `TransitionSystems.TransitionSystem.AssignNext` | pono-src/core/ts.cpp:182-216 | succeeds exactly for a known variable without update and a value without next-state symbols; trans gains the equality, and the determinism flag is set when every variable has an update and nothing is constrained |
| `TransitionSystems.TransitionSystem.ConstrainInit` | pono-src/core/ts.cpp:172-180 | accepts exactly state formulas and conjoins them to init |
| `TransitionSystems.TransitionSystem.AddStateConstraint` | pono-src/core/ts.cpp:218-235 | an invariant is recorded with its flag, imposed on init, and on the current and the next state of every transition; without the flag the constraint holds in the current state only |
| `TransitionSystems.TransitionSystem.AddConstraint` | pono-src/core/ts.cpp:251-273 | the three cases of a constraint, how each is recorded, and that only state formulas with the flag are imposed on init and next states |
| `TransitionSystems.TransitionSystem.ConstrainInputs` | pono-src/core/ts.cpp:237-249 | accepts exactly formulas without next-state symbols, recorded with the flag although they are not imposed on next states |
| `TransitionSystems.TransitionSystem.MakeStatevar` | pono-src/core/ts.cpp:293-303 | a fresh name becomes a state variable without update; a known one is refused |
| `TransitionSystems.TransitionSystem.Copy` | pono-src/core/ts.cpp:58-138 | the copy has the same meaning |
| `TransitionSystems.AllUpdatedIsDeterministic` | pono-src/core/ts.h:288-300 | when the determinism flag may be set, a state and an input have exactly one successor |
| `TransitionSystems.SuccessorReplaceable` | pono-src/core/ts.cpp:182-273 | in any system built this way a successor can be replaced by any state of a run that agrees on the updated variables |
| `Unrolling.BuiltDesignsWellFormed` | pono-src/core/ts.cpp:182-273 | every built system satisfies what simple-path reasoning needs |
| `LivenessToSafety.LivenessToSafetyTranslator.Translate` | pono-src/modifiers/liveness_to_safety_translator.cpp:16-93 | the variables added in place, and what init, trans and the property mean afterwards, for every assignment |
| `LivenessToSafety.LivenessToSafetyTranslator.AddSaved` | pono-src/modifiers/liveness_to_safety_translator.cpp:25-36 | the oracle input and the saved flag with its update |
| `LivenessToSafety.LivenessToSafetyTranslator.AddLoopStates` | pono-src/modifiers/liveness_to_safety_translator.cpp:38-54 | one loop variable per original variable, loaded when the state is saved |
| `LivenessToSafety.LivenessToSafetyTranslator.AddJusticeStates` | pono-src/modifiers/liveness_to_safety_translator.cpp:56-74 | one flag per condition, set once the condition holds inside the loop |
| `LivenessToSafety.LivenessToSafetyTranslator.LoopedTerm` | pono-src/modifiers/liveness_to_safety_translator.cpp:76-84 | holds exactly when a state is saved and equals the current one |
| `Liveness.WatchedBadIffLasso` | pono-src/modifiers/liveness_to_safety_translator.cpp:16-93 | the watched system reaches bad exactly when the original has a lasso meeting every condition in its loop |
| `Liveness.LassoIsFairRun` | pono-src/modifiers/liveness_to_safety_translator.cpp:25-27 | unwinding a lasso forever meets every condition infinitely often |
| `Liveness.FairRunHasLasso` | pono-src/modifiers/liveness_to_safety_translator.cpp:25-27 | over finitely many states a fair infinite run contains a lasso |
| `Liveness.WatchedSafeIffNoFairRun` | pono-src/modifiers/liveness_to_safety_translator.cpp:16-93 | over finitely many states: safe exactly when no infinite run is fair |
| `LivenessToSafetyCorrect.StepDecodes` | pono-src/modifiers/liveness_to_safety_translator.cpp:33-74 | a transition of the translated terms is exactly a step of the watched system |
| `LivenessToSafetyCorrect.TranslationCorrect` | pono-src/modifiers/liveness_to_safety_translator.cpp:16-93 | the translated property fails exactly when the original system has a fair lasso |
| `LivenessToSafetyCorrect.TranslationCorrectFinite` | pono-src/modifiers/liveness_to_safety_translator.cpp:16-93 | over finitely many states the translated property holds exactly when no infinite run is fair |
| `Unrolling.SimplePathConstraint` | pono-src/engines/kinduction.cpp:275-298 | compares the two times on all variables, without the ones lacking an update unless one of the times is 0 |
| `Unrolling.ShortestCexSimple` | pono-src/engines/kinduction.cpp:281-287 | every window of a shortest counterexample differs on the compared variables, so leaving out variables without update is sound |
| `Unrolling.SimplePathIsBounded` | pono-src/engines/pdk_ind.cpp:107-109 | a simple path is no longer than the number of states |
| `Unrolling.NestedExact` | pono-src/engines/kinduction.cpp:436-450 | the nested final check is satisfiable exactly when a counterexample of at most the bound exists |
| `Unrolling.FlatExact` | pono-src/engines/kinduction.cpp:411-430 | the flat final check is satisfiable exactly when a run of exactly the bound's length visits bad |
| `Unrolling.FlatAgreesIff` | pono-src/engines/kinduction.cpp:411-451 | the flat check agrees with the nested one for every property and bound exactly when each state a run ends in is also visited by runs of every larger length |
| `Unrolling.FlatAgreesWithNested` | pono-src/engines/kinduction.cpp:411-451 | agreement for one property, under that condition |
| `Unrolling.TotalVisitsContinue` | pono-src/core/ts.h:302-316 | without reachable deadlock the condition holds |
| `Unrolling.FunctionalIsTotal` | pono-src/core/ts.cpp:661-664 | in a functional system without constraints every state has a successor, with or without an update for every variable, so no reachable state is stuck |
| `Unrolling.RightTotalQueryIsNotEnough` | pono-src/core/ts.cpp:659-733 | a concrete system whose right-total query passes and which is unsafe, while its inductive step at 1 and its flat final check have no model |
| `Unrolling.RightTotalIff` | pono-src/core/ts.cpp:713-732 | with at least one update: every state has a successor exactly when the query passes and whether a state can be left does not depend on the variables without update |
| `Unrolling.UnreadIsIgnored` | pono-src/core/ts.cpp:687-697 | it does not depend on them when every variable has an update, or when the transition relation does not read those without |
| `Unrolling.RightTotalDecides` | pono-src/core/ts.h:302-315 | with at least one update, and none of the other variables read: the query passes exactly when every state has a successor; a passing query then excludes reachable deadlocks and makes the flat final check agree with the nested one at every bound |
| `Unrolling.NoUpdateQuery` | pono-src/core/ts.cpp:720-725 | without any update the query, left without its negation, passes exactly when no state can be left, and then not every state has a successor |
| `Unrolling.IsRightTotalIff` | pono-src/core/ts.cpp:659-733 | the answer of the function is right exactly when there is no constraint, or, with an update, a passing query comes with independence of the other variables, or, without any update, some state can be left and some cannot |
| `Unrolling.NoUpdateFlatIff` | pono-src/engines/kinduction.cpp:411-451 | without any update a passing query leaves the flat final check without a model at every bound above 0, so that it agrees with the nested one exactly for safe systems |
| `Unrolling.NoUpdateQueryMisleads` | pono-src/core/ts.cpp:720-725 | an unsafe system without update and without transition that the query passes, while its flat final check and its step at 1 have no model |
| `Unrolling.NoUpdateQueryRefuses` | pono-src/core/ts.cpp:720-725 | a system without update whose states all continue and that the query does not pass |
| `KInduction.KInduction.CheckUntil` | pono-src/engines/kinduction.cpp:92-273 | TRUE at any of the three exits means: safe exactly if no counterexample has a length whose base check was inconclusive (with the flat check trusted); FALSE means unsafe; UNKNOWN excludes counterexamples up to k with other lengths and, with a definite solver, means that at each bound tried none of the enabled exits could be taken: there are a simple path of this length, a path that leaves init for good, and a path that is bad at its end only, and k is below the number of states plus the bound step; it can be called again with a larger bound; which option combinations throw |
| `KInduction.KInduction.Bound` | pono-src/engines/kinduction.cpp:127-269 | one bound: a verdict as promised, or the loop state at the next bound and, from a definite solver, a path for each enabled exit that shows why it was not taken |
| `KInduction.KInduction.SimplePathExit` | pono-src/engines/kinduction.cpp:140-156 | no simple bad-free path of the bound's length proves safety; not exiting with a definite solver exhibits such a path |
| `KInduction.KInduction.InitialStatesExit` | pono-src/engines/kinduction.cpp:158-194 | negated init is asserted at every time from 1 on; exits exactly when no such path starts in init and never returns there, which proves safety; otherwise a decided check has found one |
| `KInduction.KInduction.PropertyExit` | pono-src/engines/kinduction.cpp:196-230 | exits exactly when no path of this length is bad at its end only, which proves safety; otherwise a decided check has found one |
| `KInduction.KInduction.BaseCheck` | pono-src/engines/kinduction.cpp:232-250 | sat is a counterexample; unsat extends the excluded lengths by one; the bound of an unknown answer is recorded |
| `KInduction.KInduction.FinalBaseCaseCheck` | pono-src/engines/kinduction.cpp:404-463 | true excludes all counterexamples up to the bound, false is a counterexample, the exception only on an unknown answer |
| `KInduction.KInduction.CheckSimplePathLazy` | pono-src/engines/kinduction.cpp:331-393 | terminates; true only when the constrained paths have no model; only legitimate constraints are added |
| `KInduction.KInduction.AddViolated` | pono-src/engines/kinduction.cpp:363-388 | adds a new pair whenever it adds anything, one or all violated ones as the option says; adding nothing means that the model is a simple path |
| `KInduction.KInduction.CheckSimplePathEager` | pono-src/engines/kinduction.cpp:300-329 | adds exactly the pairs with the new time and reports whether a model is left |
| `KInduction.EagerCoversPairs` | pono-src/engines/kinduction.cpp:307-315 | adding the pairs of the new time to those of smaller ones gives all pairs |
| `KInduction.KInduction.Advance` | pono-src/engines/kinduction.cpp:254-269 | transitions and negated bad for the next interval, reached_k set to the bound |
| `KInduction.NewConstraintsShrink` | pono-src/engines/kinduction.cpp:370-388 | a violated constraint was not asserted before, so fewer pairs remain |
| `KInduction.NoPathNoCex` | pono-src/engines/kinduction.cpp:140-194 | why an unsatisfiable path query proves safety when shorter counterexamples are excluded |
| `KInduction.NoStepNoCex` | pono-src/engines/kinduction.cpp:214-229 | why an unsatisfiable inductive step proves safety |
| `KInduction.UnknownBaseMisleads` | pono-src/engines/kinduction.cpp:243-250 | a system without deadlock whose only counterexample has no transition, and whose property step at bound 1 has no model: an inconclusive base check at 0 makes TRUE wrong |
| `Pdkind.PDKind.CheckUntil` | pono-src/engines/pdk_ind.cpp:148-236 | if constraints are met on every reachable state and the lemmas hold, TRUE means: safe exactly if no counterexample has a length whose base check was inconclusive, and UNKNOWN excludes counterexamples up to k with other lengths; both premises follow when no reachable state is stuck; FALSE means unsafe; with a definite solver no base check is inconclusive, k is at most the number of states when undecided, and each depth from 1 to k has generalised a counterexample to induction under the lemmas before it, adopted exactly when it is new, not trivial and passes |
| `Pdkind.PDKind.Bound` | pono-src/engines/pdk_ind.cpp:152-233 | one bound: a verdict as promised, or the loop state at the next bound and, for a definite solver, a counterexample to induction of this depth and what was learned from it, and with some updated variable a system with at least this many states |
| `Pdkind.PDKind.ExtendBackground` | pono-src/engines/pdk_ind.cpp:155-170 | the permanent context is exactly: constraints and every lemma at each time up to the depth, and the transitions in between |
| `Pdkind.PDKind.BaseCheck` | pono-src/engines/pdk_ind.cpp:250-273 | FALSE is a counterexample of this depth, TRUE excludes those of this depth once constraints are met and lemmas hold, the depth of an UNKNOWN is recorded |
| `Pdkind.PDKind.InductiveCheck` | pono-src/engines/pdk_ind.cpp:332-384 | at most k(k+1)/2 restarts, and no pair of times that agreed in one of the models agrees in a later one; TRUE proves safety once shorter counterexamples are excluded, constraints are met and lemmas hold; FALSE returns a model without cyclic pair |
| `Pdkind.PDKind.CyclicPairs` | pono-src/engines/pdk_ind.cpp:361-370 | every violated constraint of every pair, and nothing else; pairs without usable variable are skipped |
| `Pdkind.PDKind.ExtractCti` | pono-src/engines/pdk_ind.cpp:391-413 | one literal per state variable with its value at time k-1 |
| `Pdkind.PDKind.LiteralDrop` | pono-src/engines/pdk_ind.cpp:445-574 | a part of the literals; if any was dropped, every property-respecting path through the cube at k-1 is bad at k; without unknown answers and budget hit, dropping any kept literal lets some path escape; no probe beyond depth 50 |
| `Pdkind.PDKind.Probe` | pono-src/engines/pdk_ind.cpp:514-549 | a redundant literal leaves a cube that still forces bad; otherwise a definite solver shows an escape |
| `Pdkind.PDKind.IsLemmaSound` | pono-src/engines/pdk_ind.cpp:601-644 | accepts only cubes whose initiation and consecution queries have no model, and all of them when the solver is definite |
| `Pdkind.PDKind.TryAddLemma` | pono-src/engines/pdk_ind.cpp:661-688 | refuses exactly the trivial and the known lemma; a new one is stamped at every time up to the depth |
| `Pdkind.PDKind.Learn` | pono-src/engines/pdk_ind.cpp:193-225 | the cube at the time before bad is generalised to one that forces bad, without a redundant literal if the budget lasts; it is adopted only if it passes the check and, with a definite solver, exactly if it is also new and not trivial; lemmas stay true on reachable states and stamped everywhere |
| `Pdkind.DominatesKInduction` | pono-src/engines/pdk_ind.cpp:328-330 | a depth whose k-induction step has no model leaves no counterexample to induction here, if some variable has an update, or the depth is below 2, or the system has no detour through three different states |
| `Pdkind.DominatesIff` | pono-src/engines/pdk_ind.cpp:328-330 | for every property, all lemmas and all constraints of k-induction, exactly under that condition |
| `Pdkind.DominanceFails` | pono-src/engines/pdk_ind.cpp:365-365 | depth 2 for a single variable without update: the pair of times 1 and 2 leaves k-induction without a model, and a counterexample to induction remains here |
| `Pdkind.CtiIsSimplePath` | pono-src/engines/pdk_ind.cpp:372-375 | the model that stops the retry loop is a simple path |
| `Pdkind.RunInBackground` | pono-src/engines/pdk_ind.cpp:155-170 | any window of a run satisfies the permanent context when every reachable state meets the constraints for some input |
| `Pdkind.InductiveProves` | pono-src/engines/pdk_ind.cpp:285-384 | the last k transitions of a shortest counterexample would be a model of the inductive check |
| `Pdkind.CheckedCubeAvoided` | pono-src/engines/pdk_ind.cpp:585-587 | no run enters a cube that passed the check, by induction along the run with earlier lemmas in the background |
| `Pdkind.CheckedLemmaHolds` | pono-src/engines/pdk_ind.cpp:585-587 | adopting a checked lemma keeps all lemmas true on reachable states |
| `Pdkind.CheckSoundIff` | pono-src/engines/pdk_ind.cpp:577-600 | the check passes only unreachable cubes exactly for systems whose reachable states all have a successor |
| `Pdkind.StuckCubePasses` | pono-src/engines/pdk_ind.cpp:601-644 | otherwise the cube of a stuck reachable state passes at depth 2 |
| `Pdkind.StuckSystemPassesDepthZero` | pono-src/engines/pdk_ind.cpp:157-191 | an unsafe system for which both checks at depth 0 have no model, because the bad initial state violates a constraint of the current step only |
| `Pdkind.BaseExactIff` | pono-src/engines/pdk_ind.cpp:155-161 | for every property and depth the base check finds a counterexample of that depth if there is one, exactly for systems whose reachable states meet the constraints for some input |
| `Pdkind.DeadlockFreeMeets` | pono-src/engines/pdk_ind.cpp:155-161 | without stuck reachable states that condition holds |
| `Pdkind.StuckButMet` | pono-src/engines/pdk_ind.cpp:155-161 | it is weaker: a system with a stuck reachable state that meets the constraints |
| `Pdkind.UnknownBaseMisleads` | pono-src/engines/pdk_ind.cpp:179-191 | a system without deadlock whose only counterexample has depth 0, and whose inductive check at depth 1 has no model under any lemmas: an inconclusive base check at 0 makes TRUE wrong |
| `Unrolling.PairsCount` | pono-src/engines/pdk_ind.cpp:362-363 | the number of pairs scanned at depth k is k(k+1)/2 |
| `DualReach.DualApproxReach.CheckUntil` | pono-src/engines/dual_approx_reach.cpp:95-121 | TRUE comes with an inductive invariant, FALSE with a shortest counterexample of reached_k + 1 transitions, UNKNOWN excludes counterexamples up to k and leaves the engine ready for a larger bound; with definite tools no unexpected-answer exception occurs, and after UNKNOWN each set of both sequences adds a state to those before it; over n states k is at most n when undecided |
| `DualReach.DualApproxReach.Step` | pono-src/engines/dual_approx_reach.cpp:123-150 | passes over a bound that was reached before; otherwise keeps both sequences in order, one set longer, or proves, or finds a shortest counterexample; strengthened from the last pair without a step between, and only without such a pair from the first missing path from init |
| `DualReach.DualApproxReach.Step0` | pono-src/engines/dual_approx_reach.cpp:152-174 | init meets bad (a shortest counterexample), or the sequences are in order at bound 0 |
| `DualReach.DualApproxReach.LocalStrengthen` | pono-src/engines/dual_approx_reach.cpp:193-241 | success leaves both sequences in order and longer, and unchanged up to the last pair without a step between; failure changes nothing and means that init steps into the last backward set and, with definite tools, that every pair has a step |
| `DualReach.DualApproxReach.GlobalStrengthen` | pono-src/engines/dual_approx_reach.cpp:244-318 | success as above, from the first set that no path from init leads into: the forward sets before it have got exactly their interpolants, the backward sets up to it are unchanged; failure means a path of full length from init to bad |
| `DualReach.DualApproxReach.FirstMiss` | pono-src/engines/dual_approx_reach.cpp:254-285 | the first index whose opposite backward set cannot be reached from init in one transition more, every smaller one being reachable for definite tools; none means a full path |
| `DualReach.DualApproxReach.ConjoinInterpolants` | pono-src/engines/dual_approx_reach.cpp:306-315 | conjoins exactly the i-th interpolant at index i; that keeps the sequences and makes the pairwise query at the found index unsatisfiable |
| `DualReach.DualApproxReach.PairwiseStrengthen` | pono-src/engines/dual_approx_reach.cpp:321-393 | from an unsatisfiable pair on, every interpolation query is unsatisfiable and both sequences end one longer and in order; the sets up to the pair are unchanged |
| `DualReach.DualApproxReach.StrengthenForward` | pono-src/engines/dual_approx_reach.cpp:330-359 | the forward half: index arithmetic lines up, the set at the start index is untouched |
| `DualReach.DualApproxReach.StrengthenBackward` | pono-src/engines/dual_approx_reach.cpp:361-390 | the backward half |
| `DualReach.DualApproxReach.InterpolateForward` | pono-src/engines/dual_approx_reach.cpp:341-350 | without a step between the sets the expected-unsat exception cannot be raised, and the interpolant separates them |
| `DualReach.DualApproxReach.CheckFixedPoint` | pono-src/engines/dual_approx_reach.cpp:395-411 | the fixed point, or its complement for the backward sequence, is an inductive invariant; finding none with definite tools means that each set of both sequences adds a state |
| `DualReach.DualApproxReach.FixedPointIn` | pono-src/engines/dual_approx_reach.cpp:413-439 | finds the first set contained in the union of its predecessors; finding none means that each adds a state |
| `DualReach.ForwardFixedPoint` | pono-src/engines/dual_approx_reach.cpp:395-403 | a covered union of forward sets is an inductive invariant |
| `DualReach.BackwardFixedPoint` | pono-src/engines/dual_approx_reach.cpp:404-409 | the complement of a covered union of backward sets is an inductive invariant |
| `DualReach.ForwardExcludesCex` | pono-src/engines/dual_approx_reach.cpp:139-144 | a forward sequence of n sets apart from bad excludes counterexamples of fewer than n transitions |
| `DualReach.GrowingIsShort` | pono-src/engines/dual_approx_reach.cpp:421-438 | a sequence whose every set adds a state is at most one longer than the number of states |
| `KLiveness.KLiveness.CheckUntil` | pono-src/engines/kliveness.cpp:76-131 | from any live count that an earlier call left: TRUE bounds the justice steps of every run, so no run is fair; FALSE means a fair run exists; the verdict is that of the first decided count within the bounds; with a decisive prover, revisit search and n states, UNKNOWN only when the bounds are small |
| `KLiveness.KLiveness.Round` | pono-src/engines/kliveness.cpp:93-128 | one count: the prover's verdict, except that a refutation is believed exactly for a revisit in its counterexample or a lasso found by BMC; what each verdict means, and that an undecided round has a count of at most the number of states |
| `KLiveness.KLiveness.InstrumentTs` | pono-src/engines/kliveness.cpp:138-193 | the system gains exactly the counter, its update and its initial value; the property says that it misses the target |
| `KLiveness.CounterHitsTargetAt` | pono-src/engines/kliveness.cpp:143-181 | in each encoding the target value is met after k increments and not before |
| `KLiveness.Log2Bounds` | pono-src/engines/kliveness.cpp:145-148 | the binary width holds k and is the least that does |
| `KLiveness.IncrementChanges` | pono-src/engines/kliveness.cpp:164-182 | an increment changes the counter value, wrap-around included |
| `KLiveness.CounterReachesIff` | pono-src/engines/kliveness.cpp:138-193 | the target is reachable exactly when some run has k justice steps, for every encoding |
| `KLiveness.FewOnInfiniteRuns` | pono-src/engines/kliveness.cpp:115-117 | safety bounds the justice steps of every prefix of every infinite run |
| `KLiveness.BoundedMeansUnfair` | pono-src/engines/kliveness.cpp:115-117 | a bound on justice steps excludes fair runs |
| `KLiveness.LargeBoundDecides` | pono-src/engines/kliveness.cpp:79-80 | over n states a count above n decides whether a fair run exists |
| `KLiveness.KLiveness.JusticeSteps` | pono-src/engines/kliveness.cpp:224-238 | exactly the times at which the counter changes, in order |
| `KLiveness.KLiveness.ComparedVars` | pono-src/engines/kliveness.cpp:245-254 | the state variables with an update, except the counter |
| `KLiveness.KLiveness.DetectRevisit` | pono-src/engines/kliveness.cpp:210-286 | true exactly when two counter changes agree on the compared variables, except that a count of 1 is not searched |
| `KLiveness.ChangeIffJust` | pono-src/engines/kliveness.cpp:224-236 | in a counterexample the counter changes exactly at the justice steps |
| `KLiveness.AgreeingStepsAreFair` | pono-src/engines/kliveness.cpp:240-284 | two justice steps equal on the updated variables give an infinite run with justice infinitely often |
| `KLiveness.RevisitIsFair` | pono-src/engines/kliveness.cpp:261-280 | a detected revisit is a real refutation |
| `KLiveness.LargeCexRevisits` | pono-src/engines/kliveness.cpp:255-284 | more justice steps than states force a revisit |
| `KLiveness.KLiveness.BmcLassoIsFair` | pono-src/engines/kliveness.cpp:288-300 | a refutation of the liveness-to-safety translation is a fair run |
| `Unrollers.Unroller.VarCacheAtTime` | pono-src/core/unroller.cpp:107-154 | the cache covers all variables the system has now, at every cached time, also after variables were added |
| `Unrollers.Unroller.AtTime` | pono-src/core/unroller.cpp:37-48 | renames current, next and input symbols of the system to their timed ones and leaves any other symbol alone |
| `Unrollers.UntimeUndoes` | pono-src/core/unroller.cpp:50-53 | untiming an unrolled term returns it |
| `Unrollers.TimeUndoes` | pono-src/core/unroller.cpp:37-53 | unrolling an untimed term returns it, for terms at one time |
| `Unrollers.Unroller.Untime` | pono-src/core/unroller.cpp:50-53 | the round trip on the caches of the object |
| `Unrollers.FunctionalUnroller.AtTime` | pono-src/core/functional_unroller.cpp:41-48 | refuses exactly terms with next-state symbols; under every assignment satisfying the extra constraints up to k the result has the value of the term in the k-th state of the run, for any order of requests |
| `Unrollers.FunctionalUnroller.VarCacheAtTime` | pono-src/core/functional_unroller.cpp:50-108 | keeps all layers and constraints; if fresh symbols were exactly at the multiples of the interval, they still are exactly if the request skips no multiple |
| `Unrollers.FunctionalUnroller.NewLayer` | pono-src/core/functional_unroller.cpp:54-105 | a layer of fresh symbols or substituted updates, and the constraint that defines exactly the fresh ones |
| `Unrollers.TimedIffKnown` | pono-src/core/functional_unroller.cpp:50-108 | a term is unrolled to timed symbols only, exactly when its symbols belonged to the system for which the layers were built |
| `Unrollers.LateVariableStays` | pono-src/core/functional_unroller.cpp:50-108 | a variable added later stays untimed in every layer built before |
| `Unrollers.ScheduleKeptIff` | pono-src/core/functional_unroller.cpp:60-64 | a request keeps fresh symbols at exactly the multiples of the interval exactly when it adds one layer, or the interval is at most 1, or no multiple lies between the last layer and the requested time |
| `Unrollers.ScheduleIff` | pono-src/core/functional_unroller.h:36-39 | over any history of requests the documented schedule holds exactly when every request meets that condition |
| `Unrollers.ScheduleMissed` | pono-src/core/functional_unroller.h:36-39 | interval 4: a first request for time 5 leaves time 4 without fresh symbols, a first request for 4 gives them to times 1 to 3 as well |
| `Unrollers.OneByOne` | pono-src/core/functional_unroller.h:36-39 | requesting one time after the other is on schedule for every interval |
| `Unrollers.FunctionalMeansRun` | pono-src/core/functional_unroller.cpp:50-108 | unrolled terms mean the original in the state of the run |
| `Unrollers.FunctionalRefinesPlain` | pono-src/core/functional_unroller.cpp:66-98 | assignments of the plain unrolling satisfy the extra constraints and give both unrollings the same value |
| `Unrollers.PlainCoversFunctional` | pono-src/core/functional_unroller.h:63-71 | each satisfying assignment corresponds to one of the plain unrolling with the same values |
| `Justification.IC3SA.JustifyCoi` | pono-src/engines/ic3sa.cpp:834-884 | terminates; the projection gains exactly the symbols of plain terms reached from the term by the values: from an ite to its condition and the branch taken, from a controlled term to its one controlling argument, from any other to its arguments, and from variables to their updates; any assignment that obeys the updates and agrees on the projection gives the term its value in the model |
| `Justification.IC3SA.GetControlling` | pono-src/engines/ic3sa.cpp:901-934 | the first argument that decides the value exists and is found; an implication is read as a disjunction |
| `Justification.ControllingExists` | pono-src/engines/ic3sa.cpp:886-932 | a controlled term has a controlling argument |
| `Justification.ControllingDecides` | pono-src/engines/ic3sa.cpp:886-934 | an argument with the controlling value fixes the value in any assignment |
| `Justification.IC3SA.Dependencies` | pono-src/engines/ic3sa.cpp:854-882 | what is pushed is exactly what the value of the visited term rests on, and symbols are collected exactly if nothing is; together they cover the term |
| `Justification.JustifiedUnfolds` | pono-src/engines/ic3sa.cpp:834-884 | a symbol justifies a term exactly if it occurs in it and the term is plain, or it justifies one of the terms its value rests on |
| `Justification.CoveredKeepsValue` | pono-src/engines/ic3sa.cpp:834-884 | every visited term keeps its value, through shared subterms, controlling arguments and updates |
| `Justification.IC3SA.PredecessorProjection` | pono-src/engines/ic3sa.cpp:150-164 | one projection, of exactly the symbols that justify the target, a constraint or one imposed on the next state, suffices for all of them |
| `Justification.ProjectedStatesStep` | pono-src/engines/ic3sa.cpp:150-172 | every state that agrees with the model on the projection, next-state symbols dropped, steps into the target |
| `PredicateAbstraction.IC3IA.DoAbstraction` | pono-src/modifiers/implicit_predicate_abstractor.cpp:157-230 | the abstract relation is the concrete step to an abstract copy; Boolean variables stay precise |
| `PredicateAbstraction.IC3IA.AddPredicate` | pono-src/engines/ic3ia.cpp:431-482 | a new predicate constrains the abstract relation by agreement on it, unless it is a Boolean symbol, which is precise already; a known one is refused |
| `PredicateAbstraction.RefinementMeans` | pono-src/modifiers/implicit_predicate_abstractor.cpp:81-87 | the refinement term says that next state and abstract copy agree on the predicate |
| `PredicateAbstraction.ConcreteRunIsAbstract` | pono-src/modifiers/implicit_predicate_abstractor.cpp:157-230 | for any predicates every concrete run is a run of the abstraction |
| `PredicateAbstraction.AbstractionIsSound` | pono-src/modifiers/implicit_predicate_abstractor.cpp:157-230 | a safe abstraction means a safe system |
| `PredicateAbstraction.IC3IA.Refine` | pono-src/engines/ic3ia.cpp:241-364 | none: exactly if the trace is a single cube or the interpolator finds it concrete; success: exactly the new predicates of the interpolants, or those a core and the important variables select, are added, and after decided interpolation or a core of a clean query, no run of the abstraction goes through the old counterexample with bad at its end only (none at all if its inner cubes avoid bad), in both modes; the paths excluded are those of the interpolated formulas, or of the counterexample itself if a core chose the predicates; fail: no new predicate, and all that was excluded already |
| `PredicateAbstraction.IC3IA.ReducePredicates` | pono-src/modifiers/implicit_predicate_abstractor.cpp:89-155 | asks for a core of what is asserted under one assumption per predicate; keeps exactly the predicates in the core or on important variables; success when there is one, and then they exclude the trace if the reducer can reset or no earlier query left its formula asserted; which formula stays behind |
| `PredicateAbstraction.CoreRulesOut` | pono-src/modifiers/implicit_predicate_abstractor.cpp:96-133 | if the unrolled cubes and abstract transitions have no model together with the kept refinements at every step, the abstraction with the kept predicates has no path through the trace |
| `PredicateAbstraction.LeftoverMisleads` | pono-src/modifiers/implicit_predicate_abstractor.cpp:121-132 | a query with a model whose formula stays asserted makes any choice of predicates a core for the next trace, and none of them excludes it |
| `PredicateAbstraction.IC3IA.UnrollTrace` | pono-src/modifiers/implicit_predicate_abstractor.cpp:96-104 | every cube at its time, and the abstract transition at every time but the last |
| `PredicateAbstraction.IC3IA.RefinementAssumptions` | pono-src/modifiers/implicit_predicate_abstractor.cpp:106-118 | for each predicate its refinement at every step |
| `PredicateAbstraction.BmcRulesOutTrace` | pono-src/engines/ic3ia.cpp:264-273 | excluding init, good in between and bad excludes every run through an old counterexample ending in bad that is good in between |
| `PredicateAbstraction.IC3IA.BuildRegions` | pono-src/engines/ic3ia.cpp:256-278 | the formulas interpolated, for both modes |
| `PredicateAbstraction.IC3IA.FreshPredicates` | pono-src/engines/ic3ia.cpp:295-316 | exactly the predicates of the interpolants that are not known, and with them every interpolant is expressed |
| `PredicateAbstraction.InterpolantsRuleOut` | pono-src/engines/ic3ia.cpp:280-363 | predicates that express the interpolants leave no abstract path through the trace |
| `PredicateAbstraction.PathInInterpolants` | pono-src/engines/ic3ia.cpp:280-307 | an abstract path through the trace stays in the interpolants |
| `PredicateAbstraction.MorePredicatesRuleOut` | pono-src/engines/ic3ia.cpp:352-358 | a trace that is excluded stays so under further predicates |

## Left out

- SMT solvers, interpolators, term translation between solvers, sorts and symbol or label names: oracles over formulas read as sets of states, or abstract names that are told apart by construction.
- Witness extraction, logging, profiling, option parsing, front ends and printing.
- Debug assertions of the source: treated as not executed; those that matter are proved as invariants or contracts.
- IC3 solver answers of unknown: an exception or a debug assertion in the source, not modelled beyond the input above; the oracles of `Ic3Solver` always decide.
- IC3 over an empty cube: the source indexes the first child, which only fails for a system without initial state; the model reads the empty conjunction as true.
- IC3 options for approximate predecessor generalisation, random order and a bounded number of generalisation rounds; the order of equal goals in the priority queue is the one of a list.
- Refinement inside the IC3 loop: `Ic3` has none, as in bit-level IC3; `PredicateAbstraction` states what a refinement leaves to the next round, without running IC3 on the abstraction.
- Labels of predicates and `reabstract` in IC3IA; the shuffling of new predicates.
- `get_predicates`: assumed to return predicates that, with the Boolean variables, determine the formula.
- Equivalence classes and the partition cube of IC3SA: the projection is modelled, not the cube built from it; constraints imposed on the next state are visited after all constraints instead of in between.
- Wall-clock budgets: a function that may expire at any probe.
- The selector literals and push/pop levels of k-induction and PDKind: which formulas are active is modelled, not the literals; PDKind's lemma keys are the lemmas themselves.
- `--kind-bound-step 0`, refused when options are read, is excluded by a precondition; so are k-liveness counts and step sizes of 0.
- KInduction.CheckUntil: a second call is modelled for bound step 1; with a larger step the transitions and good states asserted ahead already reach past the bound at which it would start.
- FunctionalUnroller.AtTime: states its meaning for the system the layers were built for; what becomes of variables added later is in `Unrollers.TimedIffKnown`.
- RightTotalQuery: next-state copies of variables without update are taken not to occur in the transition relation, as the source asserts (`pono-src/core/ts.cpp:709`).
- ReducePredicates: a trace of one cube, for which the source has no assumption to build and which `refine` never passes on.
- The floating-point logarithm of the counter width is taken as exact.
- Bit-vector arithmetic of the solver: `KLiveness.Increments` states what the increment of a counter sort computes, wrap-around included.
- The safety prover and BMC inside k-liveness are oracles with the meaning the other modules prove.
- BMC, the interpolation-based engines, SyGuS-PDR, cone of influence, array and operator abstraction, value abstraction, prophecy variables: they overlap with what is here or are not part of this model.
- Relational transition systems beyond what predicate abstraction needs, and `set_init`.
