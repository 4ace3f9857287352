# Ability-stone refinement advisor, modelled in Dafny

The advisor helps a player facet an ability stone. A stone has three rows: two buffs and one debuff. Each row has the same number of slots. Each attempt spends one slot of a chosen row. It succeeds with the current chance, a ladder of six levels from 25% to 75%. A success moves the ladder one level down; a failure moves it one level up. The player gives a weight to a success and to a failure of each row. For every reachable state, the solver computes by backward induction the row with the largest expected weighted score. The front end keeps an editable game state and a weights editor. A recompute worker rebuilds the solution, or only reruns the simulation, whenever one of them changes.

The Dafny modules follow the source files:

| module | file | source |
|---|---|---|
| `Options` | options.dfy | Rust's `Option` and its `?` operator |
| `Chances` | chance.dfy | src/app/chance.rs |
| `Solver` | solution.dfy | src/app/solution.rs |
| `GameStates` | game_state.dfy | src/app/widgets/game_state.rs |
| `Weights` | weights.dfy | src/app/widgets/weights.rs |
| `Worker` | worker.dfy | src/app/wasm_worker.rs |

### The solver

The solver is specified by a reference definition. `Value`, `Best` and `Expected` form the textbook Bellman recursion over the remaining slots.

The imperative solver follows `build_impl` step by step:
- the odometer over `remaining`;
- the loop over the six ladder levels;
- the per-row scores;
- sorting and popping.

Its methods are proved against that definition. Every entry it stores is the reference answer (`Solution.Sound`). When it finishes, it has stored every non-terminal state with at most `count` slots per row, and no other state (`Solution.Valid`).

The key step is that every lookup finds its state. This holds because the odometer visits triples in lexicographic order and both successors of a state are lexicographically smaller (`Transition`, `SuccessorsStored`, `OdometerStep`).

### Notes on the code

- `build_impl` stores only the popped best `Answer` for each state (src/app/solution.rs:129), and so does the model.
- The comparator puts the higher index first among equal scores, and `pop` takes the last entry, so on a tie the lowest row wins (`Solver.BestIsOptimal`).
- `Scoring` in src/app/solution.rs:62-66 derives only `Debug`. weights.rs nonetheless compares scorings with `==` and copies them. The model gives `Scoring` value semantics, with equality field by field.

## Model

| member | source | states |
|---|---|---|
| Chances.Up | src/app/chance.rs:14-23 | one level higher, except that 75% stays at 75% |
| Chances.Down | src/app/chance.rs:25-34 | one level lower, except that 25% stays at 25% |
| Chances.AsReal | src/app/chance.rs:36-45 | the probability is 0.25 + 0.1 · level, within [0.25, 0.75] |
| Chances.AsStr | src/app/chance.rs:47-56 | the label is two digits and '%', and the digits are 100 × the probability |
| Chances.Saturation | src/app/chance.rs:14-34 | `up` leaves a level unchanged exactly at 75%, and `down` exactly at 25% |
| Chances.UpDownInverse | src/app/chance.rs:14-34 | down∘up is the identity except at 75%; up∘down is the identity except at 25% |
| Chances.AsRealMonotone | src/app/chance.rs:36-45 | the probability is strictly monotone in the level; `up` raises it below the top and `down` lowers it above the bottom |
| Solver.AllChancesByLevel | src/app/solution.rs:164-171 | the solver's level list holds every level once, lowest first |
| Solver.Initial | src/app/solution.rs:20-25 | the new state is at 75% with `count` slots in every row; it is terminal only when `count` is 0 |
| Solver.Choices | src/app/solution.rs:27-35 | every choice is a row with a slot left, and there is none exactly at a terminal state |
| Solver.ChoicesSpec | src/app/solution.rs:27-35 | the choices are exactly the rows with a slot left, in ascending order |
| Solver.AvailableChoices | src/app/solution.rs:27-35 | the push loop yields `Choices` |
| Solver.Transition | src/app/solution.rs:37-47 | both successors spend one slot of the chosen row and no other; success steps down and failure steps up; they are lexicographically smaller and stay in range |
| Solver.Update | src/app/solution.rs:49-59 | success exactly when the draw is below the current chance, and the new state is the matching successor of `transition` |
| Solver.Eval | src/app/solution.rs:69-76 | the final score of the success counts; its properties are `EvalByRows` (one term per row) and `EvalIsPlayReward` (the sum of the rewards of a finished stone's attempts) |
| Solver.RowRewardClosedForm | src/app/solution.rs:69-76 | a row's reward summed attempt by attempt equals success weight × successes + fail weight × failures |
| Solver.EvalIsPlayReward | src/app/solution.rs:69-76 | `eval` of the success counts of a finished stone is the sum of the rewards of its attempts |
| Solver.EvalByRows | src/app/solution.rs:69-76 | `eval` splits into one term per row |
| Solver.GreatestIsBest | src/app/solution.rs:123-129 | sort-then-pop returns a candidate of maximal score, the lowest index among equal scores |
| Solver.PopGreatest | src/app/solution.rs:123-129 | the candidate returned is the one sorting puts last |
| Solver.MixIsWeighted | src/app/solution.rs:109-118 | the expectation equals p · (success branch) + (1 − p) · (fail branch) with p the level's probability |
| Solver.ExpectedFromValues | src/app/solution.rs:113-118 | a row's expected score is computed from the values of its two successors |
| Solver.CandidatesSnoc | src/app/solution.rs:112-121 | scoring one more available row appends its answer to the candidates |
| Solver.BestIsOptimal | src/app/solution.rs:112-129 | the stored answer is an available row; its score is that row's expectation; no available row scores higher; the lowest row wins a tie |
| Solver.OdometerStep | src/app/solution.rs:132-145 | one odometer step: the states through the current triple are the states below the next one, and six more are counted |
| Solver.OdometerLast | src/app/solution.rs:132-145 | after the last triple every in-range non-terminal state is stored, 6 · ((count+1)³ − 1) of them |
| Solver.Advance | src/app/solution.rs:132-145 | the `u8` odometer moves to the lexicographic successor and stops exactly after the triple (count, count, count) |
| Solver.LevelReady | src/app/solution.rs:98-106 | before a level is scored its state is not stored, and every state below its triple is |
| Solver.LevelStep | src/app/solution.rs:98-130 | scoring one level adds exactly its state, unless the triple is terminal |
| Solver.SuccessorsStored | src/app/solution.rs:113-115 | once everything below a triple is stored, every successor of a state at it is stored or terminal |
| Solver.Solution.Build | src/app/solution.rs:86-93 | the new solution is finished (`Valid`) for the given weights and slot count |
| Solver.Solution.Lookup | src/app/solution.rs:148-161 | a stored state yields its reference answer; a terminal state yields score 0 and index `usize::MAX` |
| Solver.Solution.NumStates | src/app/wasm_worker.rs:39 | the number of states is 6 · ((count+1)³ − 1) |
| Solver.Solution.RowCandidate | src/app/solution.rs:113-118 | the computed score of a row is its reference expectation |
| Solver.Solution.BestAnswer | src/app/solution.rs:108-129 | the answer pushed, sorted and popped for a state is its reference answer |
| Solver.Solution.StoreState | src/app/solution.rs:99-129 | a terminal state is skipped; any other is stored with its reference answer |
| Solver.Solution.StoreTriple | src/app/solution.rs:98-130 | after the six levels the triple is stored too, six states more except at (0, 0, 0) |
| Solver.Solution.BuildImpl | src/app/solution.rs:95-146 | the loop ends with every in-range non-terminal state stored with its reference answer and nothing else |
| Solver.RecommendsAvailable | src/app/solution.rs:112-129 | a stored recommendation is a row with a slot left, and no available row has a higher expectation |
| Solver.BuildIsDeterministic | src/app/solution.rs:86-93 | two solutions built from the same weights and slot count have the same table |
| GameStates.ComboChancesDescending | src/app/widgets/game_state.rs:41-48 | the chance combo box offers every level, highest probability first |
| GameStates.RecordStep | src/app/widgets/game_state.rs:123-130 | recording appends the outcome; a success steps down and a fail steps up |
| GameStates.UndoStep | src/app/widgets/game_state.rs:140-146 | undo pops the last outcome and applies the opposite step; an empty row is unchanged |
| GameStates.RecordThenUndo | src/app/widgets/game_state.rs:117-147 | undo after record restores the row, and restores the chance exactly when the record did not saturate |
| GameStates.UndoThenRecord | src/app/widgets/game_state.rs:117-147 | re-recording the undone outcome restores the row, and restores the chance exactly when the undo did not saturate |
| GameStates.Truncated | src/app/widgets/game_state.rs:95-98 | the row is a prefix of at most `num_slots` outcomes and is unchanged when it already fits |
| GameStates.GameState.Default | src/app/widgets/game_state.rs:17-25 | 75%, 8 slots and three empty rows |
| GameStates.GameState.Clone | src/app/widgets/game_state.rs:10-15 | the snapshot carries the chance, the slot count and the rows |
| GameStates.GameState.SelectChance | src/app/widgets/game_state.rs:76-83 | the chosen level is set and nothing else changes |
| GameStates.GameState.SelectNumSlots | src/app/widgets/game_state.rs:86-92 | an offered slot count (2 to 16) is set and the chance is kept |
| GameStates.GameState.Truncate | src/app/widgets/game_state.rs:95-98 | afterwards every row fits in `num_slots`, each is its own truncation, and the chance is untouched |
| GameStates.GameState.Record | src/app/widgets/game_state.rs:117-131 | an outcome is recorded exactly when the row is shorter than `num_slots`; the other rows do not change and rows keep fitting |
| GameStates.GameState.Undo | src/app/widgets/game_state.rs:136-147 | the row and chance follow `UndoStep`; the other rows do not change |
| Weights.ParseField | src/app/widgets/weights.rs:79-94 | a field yields a value exactly when it parses to a finite number, and then that number |
| Weights.ParseColumn | src/app/widgets/weights.rs:118-123 | each field of a column is parsed in its own position |
| Weights.ParsedFieldsToScoring | src/app/widgets/weights.rs:96-101 | Some exactly when all six inputs are Some, with each value in its own position |
| Weights.FieldsToScoringRoundTrip | src/app/widgets/weights.rs:96-101 | every scoring is obtained back from its own six values |
| Weights.PresetIndexFrom | src/app/widgets/weights.rs:130-136 | the first matching preset from a position on, or the end |
| Weights.PresetIndex | src/app/widgets/weights.rs:126-140 | the first preset equal to the scoring, or `PRESETS.len()` exactly when none is; always within [0, `PRESETS.len()`] |
| Weights.PresetIndexOfPreset | src/app/widgets/weights.rs:18-33 | the presets are distinct, so matching a preset's scoring finds that preset |
| Weights.MatchPreset | src/app/widgets/weights.rs:126-140 | the loop with `break` returns `PresetIndex` |
| Weights.PickedPresetIsStable | src/app/widgets/weights.rs:155-161 | once a preset is chosen, the rewritten fields read back as its scoring and the next frame keeps it selected, if formatting round-trips |
| Weights.Weights.Default | src/app/widgets/weights.rs:42-48 | the default field texts |
| Weights.Weights.FieldsScoring | src/app/widgets/weights.rs:109-126 | a scoring exists exactly when all six fields parse to finite numbers, and it holds them |
| Weights.Weights.Edit | src/app/widgets/weights.rs:79-94 | typing into one field changes that field only |
| Weights.Weights.AssignToPreset | src/app/widgets/weights.rs:167-172 | every field becomes the formatted preset value of its position |
| Weights.Weights.Show | src/app/widgets/weights.rs:104-165 | a parsed scoring moves the selection to its preset index, an unparsed one leaves it; choosing a preset sets the selection, rewrites the fields and returns that preset's scoring |
| Worker.Inner.constructor | src/app/wasm_worker.rs:21-27 | the fields as given, with no solution and no simulation yet |
| Worker.Inner.Simulated | src/app/wasm_worker.rs:117 | the simulation result for the current solution, trial count and game state |
| Worker.Inner.RebuildSolution | src/app/wasm_worker.rs:96-104 | without a scoring nothing changes; otherwise a fresh solution is built from the scoring and the slot count, and the invariant holds |
| Worker.Inner.RerunSimulation | src/app/wasm_worker.rs:106-120 | without a trial count or a solution nothing changes; the solution and the scoring are never touched |
| Worker.ThreadHandle.Spawn | src/app/wasm_worker.rs:15-32 | the invariant holds, and a solution exists exactly when a scoring was given |
| Worker.ThreadHandle.Status | src/app/wasm_worker.rs:34-49 | "finding" exactly without a solution; "solved" exactly with both results; "running simulations" otherwise, i.e. with no trial count; the state count is 6 · ((n+1)³ − 1) |
| Worker.ThreadHandle.UpdateWeights | src/app/wasm_worker.rs:51-55 | the scoring is stored and a fresh solution is built; a simulation result is never lost |
| Worker.ThreadHandle.UpdateSimTries | src/app/wasm_worker.rs:57-61 | the solution and the scoring are untouched, and a simulation result exists exactly when a solution does |
| Worker.ThreadHandle.UpdateGameState | src/app/wasm_worker.rs:63-72 | the solution is replaced exactly when the slot count changed and a scoring exists; results that exist are never lost |

The worker's invariant, `Worker.Inner.Valid`, is kept by every entry point (src/app/wasm_worker.rs:20-31, 51-72, 96-120). It says:
- a solution exists exactly when a scoring does;
- the solution was built from the current scoring and the current slot count;
- a simulation result exists exactly when a solution and a trial count do;
- the simulation result is the one for the current solution, trial count and game state.

## Left out

- Concurrency: the threaded worker (src/app/worker_thread.rs) is not part of this model. For the `RefCell` of the modelled worker, each call is atomic: borrow panics cannot arise in single-threaded use. The repaint signal is not modelled. The modelled worker (src/app/wasm_worker.rs) is the single-threaded build: each update is applied at once, with no message queue and no skipping of stale updates.
- Floating point: `f64` is modelled as `real`. NaN, rounding, and the panic of `partial_cmp(..).unwrap()` on NaN are not modelled.
- Solver.PopGreatest: `sort_by` followed by `pop` is modelled as one scan that keeps the entry the sort would put last. The in-place sort of the `ArrayVec` is not modelled.
- Solver.Solution: the `FnvHashMap` is a Dafny `map`; hashing is not modelled. The weights a solution was built for are a ghost field; the source does not keep them.
- Solver.Solution.Lookup: the terminal index `usize::MAX` is taken for the wasm32 target (2^32 − 1), the build the modelled worker belongs to; no caller reads that index. The `assert!` on a missing non-terminal state is a precondition. The precondition always holds where the solver calls it.
- Solver.Solution.Build: requires `count < 255`, because the `u8` odometer digit would overflow at 255. The game state only offers 2 to 16.
- Solver.Update: the random draw `rng.gen::<f64>()` is a parameter.
- Solver.Solution.NumStates: `num_states` is not defined in the source files of this model. Here it is the size of the table.
- Worker.Inner.Simulated: `simulate_top_10` is not defined in the source files of this model. It is an arbitrary function fixed when the worker is spawned, so its properties are not modelled.
- `ThreadHandle::sorted_choices` and `Solution::sorted_choices` are not modelled: the latter is not defined in the source files of this model.
- `ThreadHandle::sim_results` is not modelled; it only clones `most_likely`.
- Worker.ThreadHandle.Status: the text is not modelled; the result names its three cases and the state count.
- Worker.ThreadHandle.UpdateSimTries: the trial count is an unbounded natural rather than a `u32`.
- Worker: `spawn` and `update_game_state` require a slot count below 255, for the solver's odometer.
- Chances.Up and Chances.Down are functions; the source's in-place `*self =` update is the caller assigning the result.
- GameStates: egui rendering (labels, radio buttons, the grid and `ROW_LABELS`) is not modelled. Each click is a method call on the state.
- GameStates.GameState.Truncate: the chance is not adjusted for dropped outcomes; the source does not adjust it either.
- Weights.ParseField: `trim` and `parse::<f64>` are one parameter, `parse`, which tells a finite number, a non-finite one, and unparseable text apart. The red or transparent frame is not modelled.
- Weights.Weights.AssignToPreset: `format!("{:.1}", ..)` is a parameter, `format`. Weights.PickedPresetIsStable assumes it parses back to the six preset values.
- Weights.Weights.Show: the text edit of a field happens after the field is parsed in the same frame; it is the separate method `Edit`. The `println!` is not modelled. `picked` stands for the combo box reporting a change to the given index.
- Persistence (serde) and the rest of the egui application in src/app.rs are not modelled.
