# Drifter adventure: a verified model of the story engine

`DrifterCYOA` is a choose-your-own-adventure game. The player, a rail-yard
drifter, moves through a fixed graph of sixteen scenes by clicking a choice
or pressing 1–4. Each choice may roll a six-sided die against a stat. It can
then change four integer stats (grit, charm, luck, health), add an item to or
remove one from an inventory, and move to another scene. Every choice adds a
line at the top of an event log that keeps the eight newest lines. At health 0 or below the game goes to "gameover". R, or
the Restart button, puts everything back to the starting values.

This project models that engine in Dafny:

- `StatModel` (`stats.dfy`): the stats record, stat deltas and `applyStats`.
  `applyStats` is a loop over the delta's keys followed by clamps, and is
  modelled as a method with a loop, proved against the function `Merged`.
- `Inventory` (`inventory.dfy`): `addItem` (append when absent) and
  `removeItem` (filter out every copy).
- `CheckResolver` (`check.dfy`): `rollCheck`. The die is a parameter in 1..6.
- `NodeGraph` (`graph.dfy`): the scene graph returned by `buildNodes`. Every
  choice is written out with its text, check, outcome bundles, stat delta,
  items and target. `GraphValid` proves the graph has the expected shape:
  1–4 choices per scene, and every target a known scene other than "gameover".
- `Engine` (`engine.dfy`):
  - the game state and the pure transition `Step`, which is `applyChoice`;
  - the reset, the 1–4 / R key handling and runs of inputs;
  - the component's state as the class `Game`, whose methods update its
    fields in the source's order: `ApplyChoice` is proved to agree with
    `Step`, `HardReset` with `ResetState`, `PressKey` with `HandleKey`, and
    `Click` with `Handle` on a click input.
- `KeyListener` (`listener.dfy`): the keyboard listener as it is actually
  registered, stale values included (see Findings).

Some conventions of the source are made explicit:

- JavaScript truthiness becomes `Truthy`: a `next`, `itemAdd` or `itemRemove`
  counts only when it is present and non-empty.
- An absent outcome bundle is the empty `Bundle()`. So is `{}`, because
  `result?.x` is then undefined for every field.
- A stat delta counts when present, even when empty, because `{}` is truthy.
- The stats object always holds all four keys, so the `|| 0` fallbacks in
  `applyStats` and `rollCheck` never change the result (for a stat of 0
  they give 0 again). The model's `Stats` is a record of
  four integers.

Start's first two choices have empty pass and fail bundles (`onPass:{}`,
`onFail:{}`). Their check therefore only decides the log note, and the model
proves that (`EmptyBundlesOnlyLog`, `StartRaccoonEitherWay`). One choice whose check
changes both the inventory and the health is the peace treaty at "raccoon"
(`RaccoonTreaty`).

## Model

| member | source | states |
|---|---|---|
| `StatModel.With` | cyoa_canvas_hobo_ish_drifter_adventure.jsx:314 | setting one stat changes that stat to the given value and no other stat |
| `StatModel.Merged` | cyoa_canvas_hobo_ish_drifter_adventure.jsx:312-321 | a merge always leaves health at most 8 and grit, charm and luck at least 0 |
| `StatModel.ApplyStats` | cyoa_canvas_hobo_ish_drifter_adventure.jsx:312-321 | the key loop plus the clamps yields, for every stat, the clamp of old value plus the delta's amount (0 for an absent key); the result satisfies the bounds and equals `Merged` |
| `StatModel.MergedAt` | cyoa_canvas_hobo_ish_drifter_adventure.jsx:314-319 | a stat named in the delta becomes min(8, old + amount) for health and max(0, old + amount) otherwise; an unnamed stat is only clamped |
| `StatModel.HealthCanGoNegative` | cyoa_canvas_hobo_ish_drifter_adventure.jsx:316 | health has no lower clamp: enough damage makes it negative, exactly old + amount |
| `StatModel.MergedUntouched` | cyoa_canvas_hobo_ish_drifter_adventure.jsx:313-319 | on in-bounds stats, a stat the delta does not name keeps its value |
| `StatModel.MergedEmpty` | cyoa_canvas_hobo_ish_drifter_adventure.jsx:312-321 | an empty delta leaves the stats unchanged exactly when they are already within the bounds |
| `StatModel.MergedNegatedRestores` | cyoa_canvas_hobo_ish_drifter_adventure.jsx:312-321 | when no clamp fires, applying a delta and then its negation gives back the original stats |
| `Inventory.AddItem` | cyoa_canvas_hobo_ish_drifter_adventure.jsx:116 | the item is in the result, and the result holds exactly the old items plus the item |
| `Inventory.RemoveItem` | cyoa_canvas_hobo_ish_drifter_adventure.jsx:117 | the item is gone, no other item is lost (multiset equality with the item's count set to 0), and the list does not grow |
| `Inventory.AddItemIdempotent` | cyoa_canvas_hobo_ish_drifter_adventure.jsx:116 | adding an item twice is the same as adding it once |
| `Inventory.AddItemAbsent` | cyoa_canvas_hobo_ish_drifter_adventure.jsx:116 | adding an absent item appends it at the end |
| `Inventory.AddItemPresent` | cyoa_canvas_hobo_ish_drifter_adventure.jsx:116 | adding an item already held leaves the list unchanged |
| `Inventory.AddItemKeepsNoDup` | cyoa_canvas_hobo_ish_drifter_adventure.jsx:116 | adding keeps an inventory without duplicates free of duplicates |
| `Inventory.RemoveAbsent` | cyoa_canvas_hobo_ish_drifter_adventure.jsx:117 | removing an item that is not held leaves the list unchanged |
| `Inventory.RemoveItemIdempotent` | cyoa_canvas_hobo_ish_drifter_adventure.jsx:117 | removing an item twice is the same as removing it once |
| `Inventory.RemoveItemAppend` | cyoa_canvas_hobo_ish_drifter_adventure.jsx:117 | removal distributes over concatenation, so it keeps the order of the other items |
| `Inventory.RemoveKeepsNoDup` | cyoa_canvas_hobo_ish_drifter_adventure.jsx:117 | removing keeps an inventory without duplicates free of duplicates |
| `Inventory.RemoveAfterAdd` | cyoa_canvas_hobo_ish_drifter_adventure.jsx:116-117 | adding an absent item and then removing it gives back the original list |
| `CheckResolver.RollCheck` | cyoa_canvas_hobo_ish_drifter_adventure.jsx:119-124 | die + stat against the difficulty; a pass needs a difficulty that a six can reach, and a fail one that a one misses |
| `CheckResolver.AlwaysPasses` | cyoa_canvas_hobo_ish_drifter_adventure.jsx:119-124 | when stat + 1 reaches the difficulty, every die result passes |
| `CheckResolver.AlwaysFails` | cyoa_canvas_hobo_ish_drifter_adventure.jsx:119-124 | when stat + 6 is below the difficulty, every die result fails |
| `CheckResolver.Winnable` | cyoa_canvas_hobo_ish_drifter_adventure.jsx:119-124 | some die result passes exactly when stat + 6 reaches the difficulty, and some fails exactly when stat + 1 is below it |
| `CheckResolver.ZeroStat` | cyoa_canvas_hobo_ish_drifter_adventure.jsx:121-123 | with stat 0, difficulty 7 can never pass and difficulty 1 always passes |
| `CheckResolver.MonotoneInStat` | cyoa_canvas_hobo_ish_drifter_adventure.jsx:122-123 | a higher stat passes whenever a lower one does, for the same die |
| `NodeGraph.StartNodeOk` | cyoa_canvas_hobo_ish_drifter_adventure.jsx:159-172 | "start" is in the graph and is well formed |
| `NodeGraph.RaccoonNodeOk` | cyoa_canvas_hobo_ish_drifter_adventure.jsx:173-181 | "raccoon" is in the graph and is well formed |
| `NodeGraph.YardPassNodeOk` | cyoa_canvas_hobo_ish_drifter_adventure.jsx:182-190 | "yardpass" is in the graph and is well formed |
| `NodeGraph.BuskNodeOk` | cyoa_canvas_hobo_ish_drifter_adventure.jsx:191-199 | "busk" is in the graph and is well formed |
| `NodeGraph.BoxcarNodeOk` | cyoa_canvas_hobo_ish_drifter_adventure.jsx:200-208 | "boxcar" is in the graph and is well formed |
| `NodeGraph.SandwichNodeOk` | cyoa_canvas_hobo_ish_drifter_adventure.jsx:209-217 | "sandwich" is in the graph and is well formed |
| `NodeGraph.LatrineNodeOk` | cyoa_canvas_hobo_ish_drifter_adventure.jsx:218-225 | "latrine" is in the graph and is well formed |
| `NodeGraph.OddJobsNodeOk` | cyoa_canvas_hobo_ish_drifter_adventure.jsx:226-235 | "oddjobs" is in the graph and is well formed |
| `NodeGraph.ShortcutNodeOk` | cyoa_canvas_hobo_ish_drifter_adventure.jsx:236-244 | "shortcut" is in the graph and is well formed |
| `NodeGraph.SparksNodeOk` | cyoa_canvas_hobo_ish_drifter_adventure.jsx:245-253 | "sparks" is in the graph and is well formed |
| `NodeGraph.RoadNodeOk` | cyoa_canvas_hobo_ish_drifter_adventure.jsx:254-263 | "road" is in the graph and is well formed |
| `NodeGraph.DinerNodeOk` | cyoa_canvas_hobo_ish_drifter_adventure.jsx:264-272 | "diner" is in the graph and is well formed |
| `NodeGraph.GazeboNodeOk` | cyoa_canvas_hobo_ish_drifter_adventure.jsx:273-281 | "gazebo" is in the graph and is well formed |
| `NodeGraph.AdviceNodeOk` | cyoa_canvas_hobo_ish_drifter_adventure.jsx:282-289 | "advice" is in the graph and is well formed |
| `NodeGraph.ArtNodeOk` | cyoa_canvas_hobo_ish_drifter_adventure.jsx:290-298 | "art" is in the graph and is well formed |
| `NodeGraph.GameOverNodeOk` | cyoa_canvas_hobo_ish_drifter_adventure.jsx:299-306 | "gameover" is in the graph and is well formed |
| `NodeGraph.KeysAre` | cyoa_canvas_hobo_ish_drifter_adventure.jsx:157-309 | the graph has exactly the sixteen scene ids |
| `NodeGraph.GraphValid` | cyoa_canvas_hobo_ish_drifter_adventure.jsx:157-309 | every scene has 1 to 4 choices; every `next`, `onPass.next` and `onFail.next` names a scene of the graph and never "gameover"; "start" and "gameover" exist |
| `NodeGraph.ChoiceOfNodeOk` | cyoa_canvas_hobo_ish_drifter_adventure.jsx:157-309 | any choice of any scene has only valid targets |
| `Engine.ResetState` | cyoa_canvas_hobo_ish_drifter_adventure.jsx:11-14 | the initial and reset state: node "start", grit 1, charm 1, luck 1, health 5, empty inventory and log |
| `Engine.ApplyEffects` | cyoa_canvas_hobo_ish_drifter_adventure.jsx:100-102 | a present delta merges the stats and an absent one keeps them; afterwards an item is held exactly when it was held or added, and is not the removed one |
| `Engine.ApplyEffectsKeepsNoDup` | cyoa_canvas_hobo_ish_drifter_adventure.jsx:100-102 | one group of effects keeps the inventory free of duplicates |
| `Engine.NextOf` | cyoa_canvas_hobo_ish_drifter_adventure.jsx:93-103 | the working `next` is always one of the choice's `next`, `onPass.next` or `onFail.next`, and is the choice's own when there is no check |
| `Engine.PushLog` | cyoa_canvas_hobo_ish_drifter_adventure.jsx:111 | the new line is first, the older lines follow shifted by one, and at most 8 lines are kept |
| `Engine.Destination` | cyoa_canvas_hobo_ish_drifter_adventure.jsx:112-113 | health at most 0 always gives "gameover"; the scene reached is "gameover", the current scene or a truthy `next` |
| `Engine.Step` | cyoa_canvas_hobo_ish_drifter_adventure.jsx:89-114 | `applyChoice` on a state: health at most 0 afterwards means "gameover", and the log starts with the choice's line |
| `Engine.StepDestination` | cyoa_canvas_hobo_ish_drifter_adventure.jsx:110-113 | health at most 0 after all effects means "gameover" whatever `next` says; otherwise a truthy `next` is taken, and a falsy one keeps the current scene |
| `Engine.NextPrecedence` | cyoa_canvas_hobo_ish_drifter_adventure.jsx:93-103 | the selected bundle's truthy `next` overrides the choice's; otherwise, and without a check, the choice's `next` stays |
| `Engine.StepEffectOrder` | cyoa_canvas_hobo_ish_drifter_adventure.jsx:96-108 | the selected bundle's effects come first, then the choice's own; the choice's removed item is never held afterwards; its added item is held unless it is also the removed one |
| `Engine.StepLog` | cyoa_canvas_hobo_ish_drifter_adventure.jsx:94-111 | the new log has "➡ " + the choice text first, with " (nailed it)" on a pass and " (whiff)" on a fail; the older lines follow; at most 8 are kept |
| `Engine.EmptyBundlesOnlyLog` | cyoa_canvas_hobo_ish_drifter_adventure.jsx:96-104 | a check whose bundles are both empty, on a choice without its own effects, changes neither stats nor inventory, and the scene reached does not depend on the die |
| `Engine.StartRaccoonEitherWay` | cyoa_canvas_hobo_ish_drifter_adventure.jsx:167 | start's first choice goes to "raccoon" on either outcome, with stats and inventory unchanged |
| `Engine.RaccoonTreaty` | cyoa_canvas_hobo_ish_drifter_adventure.jsx:178 | the treaty passes exactly when die + charm reaches 6; a pass adds "Raccoon Respect" and goes to "yardpass"; a fail costs one health and goes to "start", or to "gameover" at health 1 |
| `Engine.StepKeepsInv` | cyoa_canvas_hobo_ish_drifter_adventure.jsx:89-114 | one choice keeps the invariant: a known scene, no duplicate items, stats within the bounds, health at most 0 only at "gameover", at most 8 log lines |
| `Engine.KeyIndex` | cyoa_canvas_hobo_ish_drifter_adventure.jsx:41-42 | exactly the keys "1" to "4" select an index, and key "1" + i selects index i |
| `Engine.HandleKey` | cyoa_canvas_hobo_ish_drifter_adventure.jsx:40-47 | the keyboard handler on the current state: "r" or "R" gives the reset state; any key other than 1–4 and R leaves the state alone |
| `Engine.Handle` | cyoa_canvas_hobo_ish_drifter_adventure.jsx:133-148 | one input: a key, a click on a choice button or the Restart button; Restart gives the reset state, and a click with no such choice changes nothing |
| `Engine.Run` | cyoa_canvas_hobo_ish_drifter_adventure.jsx:133-148 | inputs handled in order; a run that ends with the Restart button ends at the reset state, whatever came before |
| `Engine.KeyBeyondChoicesNoOp` | cyoa_canvas_hobo_ish_drifter_adventure.jsx:43-44 | a number key past the scene's last choice changes nothing |
| `Engine.HandleKeepsInv` | cyoa_canvas_hobo_ish_drifter_adventure.jsx:41-46 | any key press, choice click or Restart click keeps the invariant |
| `Engine.ReachableInv` | cyoa_canvas_hobo_ish_drifter_adventure.jsx:11-14 | every state reachable from the initial state by any inputs satisfies the invariant |
| `Engine.RunKeepsInv` | cyoa_canvas_hobo_ish_drifter_adventure.jsx:89-114 | any sequence of inputs keeps the invariant |
| `Engine.GameOverTrap` | cyoa_canvas_hobo_ish_drifter_adventure.jsx:112 | with health at most 0 the game is at "gameover", and its one choice "Restart (R)" keeps it there with the stats unchanged |
| `Engine.OnlyResetEscapes` | cyoa_canvas_hobo_ish_drifter_adventure.jsx:299-306 | from game over, any inputs without R or the Restart button stay at "gameover" with the same stats |
| `Engine.ApplyEffectGroup` | cyoa_canvas_hobo_ish_drifter_adventure.jsx:100-102 | the conditional `applyStats`, `addItem` and `removeItem` calls compute `ApplyEffects` |
| `Engine.Game.constructor` | cyoa_canvas_hobo_ish_drifter_adventure.jsx:11-14 | the fields start at the reset state, which satisfies the invariant |
| `Engine.Game.CurrentNode` | cyoa_canvas_hobo_ish_drifter_adventure.jsx:19 | the scene shown always has 1 to 4 choices |
| `Engine.Game.HardReset` | cyoa_canvas_hobo_ish_drifter_adventure.jsx:84-87 | the fields become the reset state |
| `Engine.Game.ApplyChoice` | cyoa_canvas_hobo_ish_drifter_adventure.jsx:89-114 | the field updates equal `Step` on the old state, and the invariant is kept |
| `Engine.Game.PressKey` | cyoa_canvas_hobo_ish_drifter_adventure.jsx:40-47 | a key press updates the fields as `HandleKey` does on the current state, and keeps the invariant |
| `Engine.Game.Click` | cyoa_canvas_hobo_ish_drifter_adventure.jsx:133-134 | clicking the i-th choice button applies that choice to the current state, and keeps the invariant |
| `KeyListener.KeyAsWritten` | cyoa_canvas_hobo_ish_drifter_adventure.jsx:39-50 | one key press through the listener as registered; the captured stats and inventory are refreshed exactly when the scene changes; R gives the reset state, and keys other than 1–4 and R change nothing |
| `KeyListener.AgreesWhenFresh` | cyoa_canvas_hobo_ish_drifter_adventure.jsx:39-50 | while the listener's captured stats and inventory are current, the registered listener does what `HandleKey` does |
| `KeyListener.WrittenBusk` | cyoa_canvas_hobo_ish_drifter_adventure.jsx:168 | "2" from the initial state reaches "busk" and re-registers the listener with the baseline stats |
| `KeyListener.WrittenCoin` | cyoa_canvas_hobo_ish_drifter_adventure.jsx:196 | "1" at "busk" returns to "start" and re-registers the listener holding charm 2 |
| `KeyListener.WrittenReset` | cyoa_canvas_hobo_ish_drifter_adventure.jsx:39-50 | "r" at "start" resets the state but keeps the listener and its captured values, because the scene did not change |
| `KeyListener.WrittenRaccoon` | cyoa_canvas_hobo_ish_drifter_adventure.jsx:167 | "1" at "start", with a listener holding charm 2, leaves charm at 2 |
| `KeyListener.StaleStatsAfterReset` | cyoa_canvas_hobo_ish_drifter_adventure.jsx:39-50 | as written, the keys "2", "1", "r", "1" from the start end with charm 2: the reset's charm of 1 is lost |
| `KeyListener.IntendedAfterReset` | cyoa_canvas_hobo_ish_drifter_adventure.jsx:84-87 | with each key acting on the current state, the same keys end with charm 1 |
| `KeyListener.IntendedResetSticks` | cyoa_canvas_hobo_ish_drifter_adventure.jsx:84-87 | with each key acting on the current state, "r" then "1" from any state leaves the baseline stats and an empty inventory |

## Left out

- Drawing is left out. This covers the canvas scenes, the HUD, text wrapping and the typewriter text reveal with its Space pause and pause button. None of it affects the game state.
- Scene titles, scene texts and draw callbacks are left out, because only the choices drive the engine. Choice texts are kept, since they go into the log.
- `Math.random` is replaced by the die value, which the caller supplies as a parameter in 1..6.
- Adding and removing the keydown listener is modelled only as the stale-value behaviour in `KeyListener`. The browser's event dispatch is not modelled.
- React's batching of `setState` calls is not modelled. Each handler is one atomic transition from the state of the render it runs in.
- Numbers are mathematical integers. The source's stats are JavaScript doubles, but every delta and difficulty in the graph is a small integer, so no rounding can occur.
- Stat deltas can only name the four stats. A delta key outside `grit`, `charm`, `luck` and `health` would add a new field in the source; no choice in the graph has one.
- Inventory items and the `next` fields are strings or absent. The other falsy JavaScript values (`0`, `null`, `false`) do not occur in the graph.

## Findings

The rest of the model, `Engine.HandleKey` and `Engine.Game.PressKey`, follows the intended behaviour: a key acts on the current state. `KeyListener` models the listener as written, next to it.

| source | as written | input that shows it | evidently intended | confidence | as-written member | corrected member |
|---|---|---|---|---|---|---|
| cyoa_canvas_hobo_ish_drifter_adventure.jsx:39-50 | the keydown listener depends only on `node`, so its `applyChoice` uses the `stats` and `inv` captured when the scene last changed | from the start, keys "2", "1", "r", "1": the reset at "start" keeps the scene and the listener, so the last key acts on charm 2 and the charm ends at 2 | a number key acts on the current stats and inventory, as a button click does; after a reset the charm is back to 1 | not executed | `KeyListener.StaleStatsAfterReset` | `KeyListener.IntendedResetSticks` |
