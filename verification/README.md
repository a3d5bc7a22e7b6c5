# Colonoscopy-prep app: the sequencing game and the checklist state

This project models the two pieces of logic in a small React Native app and
proves their properties in Dafny:

- **The sequencing game** (`app/game.tsx`), module `Game` in `game.dfy`.
  The ten steps of antibiotic reconstitution are shown in shuffled order and
  the player taps them in sequence. A tap on the next expected step marks it
  "used", appends it to the selected order and raises the score. Any other
  tap marks the step "incorrect" until an 800 ms timer sets it back to
  "idle", with two exceptions. A tap on an option already used is ignored
  (`app/game.tsx:67`). Any tap after the game is complete is ignored
  (`app/game.tsx:168`). Reset deals a fresh shuffle.
  - The shuffle (`shuffleArray`) is a Fisher–Yates swap loop over an array
    copy. If the result is the identity order, it starts over.
  - The transitions are pure functions on a `GameState` value. The screen is
    the class `GameScreen`, whose methods update its fields in place and are
    proved equal to those functions.
- **The checklist state** (`app/checklist.tsx`), module `Checklist` in
  `checklist.dfy`.
  - Three phases of tasks.
  - A map from task id to "checked", written whole to one storage key on
    every change.
  - An in-memory map from phase id to "expanded".
  - Counts derived from the checked map.
  - The store is the class `Store`. The screen is the class
    `ChecklistScreen`, whose methods replace its maps.

`common.dfy` holds the `Option` type and the `Distinct` predicate, which both modules share.

Randomness is a parameter. One pass of the shuffle takes a sequence of draws
with `draws[i] <= i`; each draw stands for `Math.floor(Math.random() * (i + 1))`.
The reshuffle takes one such sequence per attempt (`rounds`).

## Model

| member | source | states |
|---|---|---|
| Game.CorrectOrderDistinct | app/game.tsx:25-36 | The canonical order has ten steps, all different. |
| Game.Swap | app/game.tsx:42 | The destructuring swap exchanges positions i and j and leaves every other position alone. |
| Game.SwapPermutes | app/game.tsx:42 | A swap keeps the multiset of elements. |
| Game.SwapsDownPermutes | app/game.tsx:40-43 | The descending swap loop, from any index down to 1, yields a permutation. |
| Game.FisherYatesPermutes | app/game.tsx:39-43 | One shuffle pass yields a permutation of its input: same length, same multiset. |
| Game.SameOrder | app/game.tsx:44 | The `every` test holds exactly when the shuffled sequence equals the input. |
| Game.ShufflePass | app/game.tsx:39-43 | The in-place swap loop on a fresh array copy computes the pass's result, which is a permutation of the input. The input is a value and stays unchanged. |
| Game.ShuffledSomeIff | app/game.tsx:38-48 | The reshuffle returns an order exactly when some attempt gives an order other than the identity. |
| Game.ShuffledIsProper | app/game.tsx:44-47 | Whatever the reshuffle returns is a permutation of the input and never the input's own order. |
| Game.ShuffledIsFirstReordering | app/game.tsx:44-47 | The result is the first attempt that reorders; every earlier attempt gave the identity. |
| Game.ShuffleArray | app/game.tsx:38-48 | `shuffleArray` agrees with its specification. Any result is a proper permutation. |
| Game.ShuffleCanSucceed | app/game.tsx:41-43 | If the first and last elements differ, some valid draws give an order other than the identity. |
| Game.CorrectOrderCanBeShuffled | app/game.tsx:38-48 | Some draws reorder the canonical steps, so the reshuffle of `CORRECT_ORDER` can stop. |
| Game.ShuffleOfUniformIsIdentity | app/game.tsx:44-46 | When all elements are equal (every input of length 0 or 1 included), every pass gives the identity, so the reshuffle never stops. |
| Game.Expected | app/game.tsx:170 | The step expected at `currentStep` occurs at no other position of `CORRECT_ORDER`, so a step already selected is never expected again. |
| Game.NewGame | app/game.tsx:154-162 | A new round has the given options, nothing selected, score 0, not complete, and every option reads as idle. |
| Game.Press | app/game.tsx:166-190 | A tap after completion changes nothing. A correct tap marks the step used, appends it, adds one to the score and completes the game when the tenth step is selected. A wrong tap marks the step incorrect and keeps order, score and completion. Other steps' statuses and the options never change. |
| Game.PressOption | app/game.tsx:67-70 | A tap on a used option is dropped; any other tap is `handleStepPress`. |
| Game.Revert | app/game.tsx:184-186 | The timer callback sets the step to idle whatever its status, and changes nothing else. |
| Game.NewGameValid | app/game.tsx:154-162 | A new round satisfies the game invariant. |
| Game.PressPreservesValid | app/game.tsx:166-190 | A tap keeps the invariant: the selection is a prefix of the canonical order, the score is its length, completion means all ten are selected, no status is "correct", and a used step is a selected one. |
| Game.RevertPreservesValid | app/game.tsx:184-186 | The timer callback keeps the invariant. |
| Game.ApplyPreservesValid | app/game.tsx:67-70 | Every event (guarded tap, timer callback, reset) keeps the invariant. |
| Game.RunPreservesValid | app/game.tsx:164-199 | The invariant holds after any sequence of taps, timer callbacks and resets. |
| Game.RunOptionsOrigin | app/game.tsx:192-199 | The options on screen are the initial ones or those installed by some reset. |
| Game.RunKeepsShuffle | app/game.tsx:154-155 | If the initial options and every reset's options are proper shuffles, the options on screen always are. |
| Game.UsedTapIgnored | app/game.tsx:67-70 | A tap on a used option changes no status, order, score or completion. |
| Game.UnguardedUsedTapWouldMarkIncorrect | app/game.tsx:68 | Without the used-guard, tapping a selected step in a running game would mark it incorrect. |
| Game.CanonicalTapsComplete | app/game.tsx:170-180 | From a state with the first k steps selected, tapping the remaining steps in order completes the game, with full score and every step used. |
| Game.NewGameCanonicalPlay | app/game.tsx:170-180 | From a new game, tapping the ten steps in canonical order completes it with score ten. |
| Game.WrongFirstTapReverts | app/game.tsx:181-186 | A wrong first tap marks the step incorrect and keeps order and score; the timer then shows it as idle. |
| Game.StaleRevertShowsSelectedStepIdle | app/game.tsx:184-186 | A step tapped wrongly, then correctly within the delay, is selected but is shown idle once the old timer fires. |
| Game.ShuffleSteps | app/game.tsx:155 | `shuffleArray(CORRECT_ORDER)` returns the first reordering the supplied draws produce (`Shuffled`): a permutation of the canonical steps other than the canonical order. |
| Game.GameScreen.constructor | app/game.tsx:154-162 | The screen starts as a new round on the shuffle that the supplied draws produce (`Shuffled`), which is proper, and satisfies the invariant. |
| Game.GameScreen.HandleStepPress | app/game.tsx:166-190 | The field updates equal `Press` and keep the invariant. |
| Game.GameScreen.HandlePress | app/game.tsx:67-70 | The guarded tap equals `PressOption` and keeps the invariant. |
| Game.GameScreen.RevertToIdle | app/game.tsx:184-186 | The callback equals `Revert` and keeps the invariant. |
| Game.GameScreen.HandleReset | app/game.tsx:192-199 | After reset the screen is a new round on the shuffle that this reset's draws produce (`Shuffled`), which is proper, and satisfies the invariant. |
| Game.GameScreen.StartRound | app/game.tsx:195-198 | The state updates of reset give a new round on the given options. |
| Checklist.Toggle | app/checklist.tsx:217 | The toggled entry is the negation of the old value, with an absent key read as unchecked. The key set gains only that id. Every other entry is kept. |
| Checklist.ToggleTwice | app/checklist.tsx:217 | Toggling twice restores every displayed value. An originally absent entry is now present as false. |
| Checklist.ToggleParity | app/checklist.tsx:215-221 | After any sequence of toggles, a task is checked exactly when its old value differs from "toggled an odd number of times". |
| Checklist.CountChecked | app/checklist.tsx:290-292 | The number of checked ids is at most the number of ids. |
| Checklist.CountCheckedExtremes | app/checklist.tsx:290-292 | The count equals the number of ids exactly when all are checked, and is 0 exactly when none is. |
| Checklist.CompletedCount | app/checklist.tsx:290-292 | A phase's completed count lies between 0 and its task count. |
| Checklist.CompletedCountExtremes | app/checklist.tsx:83-84 | A phase is complete (`completedCount === totalCount`) exactly when all its tasks are checked, and its count is 0 exactly when none is. |
| Checklist.TotalTasks | app/checklist.tsx:232 | `totalTasks` equals the number of task ids over all phases. |
| Checklist.TotalChecked | app/checklist.tsx:233 | `totalChecked` is at most the number of entries. |
| Checklist.TotalCheckedZeroIff | app/checklist.tsx:233 | `totalChecked` is 0 exactly when no entry is true. |
| Checklist.ContentIds | app/checklist.tsx:21-68 | The phases list the sixteen task ids, so `totalTasks` is 16. |
| Checklist.ContentIdsDistinct | app/checklist.tsx:21-68 | No two tasks share an id. |
| Checklist.CountCheckedAppend | app/checklist.tsx:290-292 | The count over a concatenation is the sum of the counts. |
| Checklist.CountCheckedIsCardinality | app/checklist.tsx:233 | Over duplicate-free ids, the count is the size of the set of checked ids. |
| Checklist.SumOfThreeCounts | app/checklist.tsx:232-233 | Over three id lists that hold no duplicate and cover every key, the overall count is the sum of the three counts. |
| Checklist.TotalCheckedIsSumOfPhases | app/checklist.tsx:233 | While every key is a task id, `totalChecked` is the sum of the three phases' completed counts. |
| Checklist.CompleteOfThree | app/checklist.tsx:232-234 | If the overall count is the sum of three phases' counts, it is at most their task total and reaches it exactly when every task is checked. |
| Checklist.AllCompleteIffEveryTaskChecked | app/checklist.tsx:234 | While every key is a task id, `allComplete` holds exactly when every task of every phase is checked. |
| Checklist.TrueEntryCountsOnce | app/checklist.tsx:233 | Each true entry adds exactly one to `totalChecked`. |
| Checklist.CountIgnoresOtherKeys | app/checklist.tsx:290-292 | A phase's count does not depend on entries for ids outside the phase. |
| Checklist.ForeignOfThree | app/checklist.tsx:233 | A true entry outside three covering id lists adds one to the overall count and to none of theirs. |
| Checklist.ForeignEntryCounts | app/checklist.tsx:233 | A true entry for an id that belongs to no task counts in `totalChecked` but in no phase. |
| Checklist.ToggleKeepsTaskKeys | app/checklist.tsx:215-218 | Toggling a task id keeps the map's keys within the task ids. |
| Checklist.FlipPhase | app/checklist.tsx:223-225 | `togglePhase` flips the expansion of a phase that has an entry. A phase without an entry gets `true` and stays expanded. Other entries are kept. |
| Checklist.InitiallyAllExpanded | app/checklist.tsx:193-197 | Every phase starts expanded, with an entry of its own. |
| Checklist.PhaseTogglesFlip | app/checklist.tsx:223-225 | Once a phase has an entry, each toggle of it flips its expansion; other phases' toggles leave it alone. |
| Checklist.Store.constructor | app/checklist.tsx:200 | The store starts with the given contents and no writes. |
| Checklist.Store.SetItem | app/checklist.tsx:210 | A write replaces the value under its key and is recorded once, after earlier writes. |
| Checklist.ChecklistScreen.constructor | app/checklist.tsx:192-197 | The screen starts with no checked tasks and all three phases expanded. |
| Checklist.ChecklistScreen.LoadChecked | app/checklist.tsx:199-205 | A stored map replaces the checked map, which then matches storage. Without a stored value the checked map stays as it was. |
| Checklist.ChecklistScreen.SaveChecked | app/checklist.tsx:207-213 | `saveChecked` installs the map and writes that same map, whole, under `"colonoscopy_checklist"`, as exactly one write. |
| Checklist.ChecklistScreen.ToggleTask | app/checklist.tsx:215-221 | The checked map becomes `Toggle` of the old one, and exactly one write stores it whole. |
| Checklist.ChecklistScreen.TogglePhase | app/checklist.tsx:223-225 | The expansion map becomes `FlipPhase` of the old one. Nothing is written. |
| Checklist.ChecklistScreen.HandleReset | app/checklist.tsx:227-230 | Reset empties the checked map, so `totalChecked` is 0. It writes the empty map once and leaves the expansion map alone. |

## Left out

- Rendering, styles, animations (the shake), haptics and router navigation: presentation and foreign calls.
- `app/index.tsx` and `constants/colors.ts`: navigation and colours, with no logic. They are not part of this model.
- The icons of the phases (`icon`, `iconSet`): presentation only.
- `Math.random`, and whether the shuffle is uniform. The draws are parameters, and only permutation and non-identity are proved.
- Game.ShuffleArray: the source recurses until an attempt reorders, which terminates only with probability 1 and never when all elements are equal (`ShuffleOfUniformIsIdentity`). The model takes a finite list of attempts and returns None when all of them give the identity.
- Game.ShuffleSteps: requires that one of the supplied attempts reorders the canonical steps (possible by `CorrectOrderCanBeShuffled`), the case in which the source returns.
- Game.GameScreen.constructor and Game.GameScreen.HandleReset: carry the same requirement as `ShuffleSteps`.
- `setTimeout`, the 800 ms delay and React's batching of state updates. The timer callback is an explicit event (`TimerFired`, `RevertToIdle`), and events apply one at a time.
- The floating-point progress-bar widths (`app/game.tsx:232`, `app/checklist.tsx:83`, `app/checklist.tsx:268`).
- AsyncStorage's asynchrony. A load that finishes after a toggle would overwrite the newer map; the model runs each operation to completion.
- JSON serialisation: a stored value is the map it encodes. A malformed stored text makes `JSON.parse` throw at `app/checklist.tsx:202` with no handler. An empty stored string is skipped by the `if (val)` test. Neither is modelled, since the app itself only ever writes serialised maps.
- Checklist.TotalCheckedIsSumOfPhases and Checklist.AllCompleteIffEveryTaskChecked: stated only for maps whose keys are task ids, which covers every map the screen itself produces. `ForeignEntryCounts` states what happens otherwise.

Behaviour of the code that the model keeps as it is:

- **The revert callback is unconditional** (`app/game.tsx:184-186`). The code has no generation check. A timer set by a wrong tap also fires after that step was selected, and then shows it idle (`Revert`, `StaleRevertShowsSelectedStepIdle`).
- **Reset writes an empty map** (`app/checklist.tsx:227-230`). It stores `{}` under the key; the stored value is never removed (`ChecklistScreen.HandleReset`).
- **A failed parse on load is not caught** (`app/checklist.tsx:200-204`). `JSON.parse` runs with no handler around it, so a malformed stored text throws; the model stores maps only (see the JSON serialisation item above).
