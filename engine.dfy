/** The transition engine of `DrifterCYOA`: the game state (current node,
    stats, inventory, event log), the transition `applyChoice`, the reset
    `hardReset` and the 1-4 key selection. The pure function `Step` states
    what one transition computes; the class `Game` holds the component's
    state and its methods are proved against `Step`. */
module Engine {
  import opened Wrappers
  import opened StatModel
  import opened Inventory
  import opened CheckResolver
  import opened NodeGraph

  const LogCap: nat := 8
  const Arrow: string := "➡ "
  const PassNote: string := " (nailed it)"
  const FailNote: string := " (whiff)"
  const BaselineStats: Stats := Stats(grit := 1, charm := 1, luck := 1, health := 5)

  datatype GameState = GameState(nodeId: NodeId, stats: Stats, inv: seq<Item>, log: seq<string>)

  /** The state `hardReset` installs, which is also the initial state. */
  function ResetState(): (g: GameState)
    ensures g.nodeId == StartId && g.inv == [] && g.log == []
    ensures g.stats.grit == 1 && g.stats.charm == 1 && g.stats.luck == 1 && g.stats.health == 5
  {
    GameState(StartId, BaselineStats, [], [])
  }

  /** What holds of every state from the reset onward. */
  predicate Inv(g: GameState) {
    && g.nodeId in NodeIds
    && NoDup(g.inv)
    && InBounds(g.stats)
    && (g.stats.health <= 0 ==> g.nodeId == GameOverId)
    && |g.log| <= LogCap
  }

  /** The working values `s` and `inventory` of `applyChoice`. */
  datatype Work = Work(stats: Stats, inv: seq<Item>)

  /** One group of effects, in the order the source applies them: the stat
      delta, then the item added, then the item removed. */
  function ApplyEffects(w: Work, delta: Option<Delta>, add: Option<string>, remove: Option<string>): (r: Work)
    ensures delta.Some? ==> r.stats == Merged(w.stats, delta.value)
    ensures delta.None? ==> r.stats == w.stats
    ensures forall y :: y in r.inv <==>
      (y in w.inv || (Truthy(add) && y == add.value)) && !(Truthy(remove) && y == remove.value)
  {
    var s := if delta.Some? then Merged(w.stats, delta.value) else w.stats;
    var added := if Truthy(add) then AddItem(w.inv, add.value) else w.inv;
    var removed := if Truthy(remove) then RemoveItem(added, remove.value) else added;
    Work(s, removed)
  }

  lemma ApplyEffectsKeepsNoDup(w: Work, delta: Option<Delta>, add: Option<string>, remove: Option<string>)
    requires NoDup(w.inv)
    ensures NoDup(ApplyEffects(w, delta, add, remove).inv)
  {
    var added := if Truthy(add) then AddItem(w.inv, add.value) else w.inv;
    if Truthy(add) { AddItemKeepsNoDup(w.inv, add.value); }
    if Truthy(remove) { RemoveKeepsNoDup(added, remove.value); }
  }

  /** The check outcome: none for a choice without a check. */
  function Outcome(c: Choice, s: Stats, die: Die): Option<bool> {
    if c.check.Some? then Some(RollCheck(c.check.value, s, die)) else None
  }

  function Selected(c: Choice, passed: bool): Bundle {
    if passed then c.onPass else c.onFail
  }

  /** The effects of the bundle the check outcome selects. */
  function AfterCheck(w: Work, c: Choice, o: Option<bool>): Work {
    match o
    case None => w
    case Some(passed) =>
      var b := Selected(c, passed);
      ApplyEffects(w, b.stats, b.itemAdd, b.itemRemove)
  }

  /** The choice's own effects, applied after the bundle's whatever the outcome. */
  function AfterChoice(w: Work, c: Choice): Work {
    ApplyEffects(w, c.stats, c.itemAdd, c.itemRemove)
  }

  /** The working `next`: the choice's, overwritten by the selected bundle's. */
  function NextOf(c: Choice, o: Option<bool>): (r: Option<NodeId>)
    ensures r == c.next || r == c.onPass.next || r == c.onFail.next
    ensures o.None? ==> r == c.next
  {
    match o
    case Some(passed) => if Truthy(Selected(c, passed).next) then Selected(c, passed).next else c.next
    case None => c.next
  }

  function Annotation(o: Option<bool>): string {
    match o
    case None => ""
    case Some(passed) => if passed then PassNote else FailNote
  }

  function LogLine(c: Choice, o: Option<bool>): string {
    Arrow + c.text + Annotation(o)
  }

  /** `[logline, ...l].slice(0, 8)`: the newest line first, at most eight kept. */
  function PushLog(log: seq<string>, line: string): (r: seq<string>)
    ensures |r| == if |log| < LogCap then |log| + 1 else LogCap
    ensures r[0] == line
    ensures forall i :: 1 <= i < |r| ==> r[i] == log[i - 1]
  {
    var l := [line] + log;
    if |l| <= LogCap then l else l[..LogCap]
  }

  /** Game over wins over any `next`; a falsy `next` keeps the current node. */
  function Destination(current: NodeId, health: int, next: Option<NodeId>): (d: NodeId)
    ensures health <= 0 ==> d == GameOverId
    ensures d == GameOverId || d == current || (Truthy(next) && d == next.value)
  {
    if health <= 0 then GameOverId
    else if Truthy(next) then next.value
    else current
  }

  /** The working values once every effect of the choice is applied. */
  function Worked(g: GameState, c: Choice, die: Die): Work {
    AfterChoice(AfterCheck(Work(g.stats, g.inv), c, Outcome(c, g.stats, die)), c)
  }

  /** `applyChoice(choice)` on state `g`, with `die` the value the check would draw. */
  function Step(g: GameState, c: Choice, die: Die): (r: GameState)
    ensures r.stats.health <= 0 ==> r.nodeId == GameOverId
    ensures |r.log| > 0 && r.log[0] == LogLine(c, Outcome(c, g.stats, die))
  {
    var o := Outcome(c, g.stats, die);
    var w := Worked(g, c, die);
    GameState(Destination(g.nodeId, w.stats.health, NextOf(c, o)), w.stats, w.inv, PushLog(g.log, LogLine(c, o)))
  }

  /** The destination: game over when the merged health is at most 0 (and
      the stored stats keep that health), else the working `next` when it is
      set, else the current node. */
  lemma StepDestination(g: GameState, c: Choice, die: Die)
    ensures Step(g, c, die).stats == Worked(g, c, die).stats
    ensures Step(g, c, die).stats.health <= 0 ==> Step(g, c, die).nodeId == GameOverId
    ensures Step(g, c, die).stats.health > 0 && Truthy(NextOf(c, Outcome(c, g.stats, die))) ==>
      Step(g, c, die).nodeId == NextOf(c, Outcome(c, g.stats, die)).value
    ensures Step(g, c, die).stats.health > 0 && !Truthy(NextOf(c, Outcome(c, g.stats, die))) ==>
      Step(g, c, die).nodeId == g.nodeId
  {
  }

  /** A bundle's `next` overrides the choice's; without one the choice's stays. */
  lemma NextPrecedence(c: Choice, passed: bool)
    ensures Truthy(Selected(c, passed).next) ==> NextOf(c, Some(passed)) == Selected(c, passed).next
    ensures !Truthy(Selected(c, passed).next) ==> NextOf(c, Some(passed)) == c.next
    ensures NextOf(c, None) == c.next
  {
  }

  /** The effects come in a fixed order: the selected bundle's stats, item
      added and item removed first, then the choice's own, whatever the outcome.
      So the choice's own delta is merged last, the item it removes is gone and
      the item it adds (unless it also removes it) is there, and every other
      item is held exactly when it was held before, or the bundle added it and
      the choice did not remove it. */
  lemma StepEffectOrder(g: GameState, c: Choice, die: Die)
    ensures var o := Outcome(c, g.stats, die);
      Step(g, c, die).stats ==
        (var s1 := AfterCheck(Work(g.stats, g.inv), c, o).stats;
         if c.stats.Some? then Merged(s1, c.stats.value) else s1)
    ensures Truthy(c.itemRemove) ==> c.itemRemove.value !in Step(g, c, die).inv
    ensures Truthy(c.itemAdd) && c.itemAdd != c.itemRemove ==> c.itemAdd.value in Step(g, c, die).inv
    ensures c.check.None? ==> Step(g, c, die).inv == AfterChoice(Work(g.stats, g.inv), c).inv
    ensures forall y :: y in Step(g, c, die).inv <==>
      && (y in AfterCheck(Work(g.stats, g.inv), c, Outcome(c, g.stats, die)).inv
          || (Truthy(c.itemAdd) && y == c.itemAdd.value))
      && !(Truthy(c.itemRemove) && y == c.itemRemove.value)
  {
  }

  /** The log gains the line "➡ " + the choice's text, with the check's
      annotation only when the choice has a check, and keeps at most eight
      lines, newest first. */
  lemma StepLog(g: GameState, c: Choice, die: Die)
    ensures |Step(g, c, die).log| <= LogCap
    ensures |Step(g, c, die).log| == if |g.log| < LogCap then |g.log| + 1 else LogCap
    ensures forall i :: 1 <= i < |Step(g, c, die).log| ==> Step(g, c, die).log[i] == g.log[i - 1]
    ensures c.check.None? ==> Step(g, c, die).log[0] == Arrow + c.text
    ensures c.check.Some? && RollCheck(c.check.value, g.stats, die) ==>
      Step(g, c, die).log[0] == Arrow + c.text + PassNote
    ensures c.check.Some? && !RollCheck(c.check.value, g.stats, die) ==>
      Step(g, c, die).log[0] == Arrow + c.text + FailNote
  {
  }

  /** A check whose bundles are both empty, on a choice with no effects of
      its own, changes only the log: the destination does not depend on the
      die. */
  lemma EmptyBundlesOnlyLog(g: GameState, c: Choice, die: Die, other: Die)
    requires c.check.Some? && c.onPass == Bundle() && c.onFail == Bundle()
    requires c.stats.None? && c.itemAdd.None? && c.itemRemove.None?
    ensures Step(g, c, die).stats == g.stats && Step(g, c, die).inv == g.inv
    ensures Step(g, c, die).nodeId == Step(g, c, other).nodeId
  {
  }

  /** Start's first choice goes to "raccoon" on either outcome, changing
      nothing but the log. */
  lemma StartRaccoonEitherWay(g: GameState, die: Die)
    requires Inv(g) && g.nodeId == StartId
    ensures var c := StartNode.choices[0];
      && Step(g, c, die).nodeId == "raccoon"
      && Step(g, c, die).stats == g.stats
      && Step(g, c, die).inv == g.inv
  {
    var c := StartNode.choices[0];
    EmptyBundlesOnlyLog(g, c, die, die);
  }

  /** The peace treaty at "raccoon": a pass adds "Raccoon Respect" and goes to
      "yardpass"; a fail costs one health and goes back to "start", or to game
      over when that was the last point. */
  lemma RaccoonTreaty(g: GameState, die: Die)
    requires Inv(g) && g.nodeId == "raccoon"
    ensures var c := RaccoonNode.choices[0]; var r := Step(g, c, die);
      if die + g.stats.charm >= 6 then
        r.inv == AddItem(g.inv, "Raccoon Respect") && r.stats == g.stats && r.nodeId == "yardpass"
      else
        r.inv == g.inv && r.stats == g.stats.(health := g.stats.health - 1)
        && r.nodeId == (if g.stats.health - 1 <= 0 then GameOverId else StartId)
  {
    var c := RaccoonNode.choices[0];
    if die + g.stats.charm < 6 {
      assert c.onFail.stats == Some(map[Health := -1]);
      MergedAt(g.stats, map[Health := -1], Health);
    }
  }

  /** One transition keeps the invariant, through any choice whose targets
      are nodes other than game over: every choice of the graph is one. */
  lemma StepKeepsInv(g: GameState, c: Choice, die: Die)
    requires Inv(g) && ChoiceOk(c)
    ensures Inv(Step(g, c, die))
  {
    var o := Outcome(c, g.stats, die);
    var w1 := AfterCheck(Work(g.stats, g.inv), c, o);
    if o.Some? {
      var b := Selected(c, o.value);
      ApplyEffectsKeepsNoDup(Work(g.stats, g.inv), b.stats, b.itemAdd, b.itemRemove);
    }
    assert InBounds(w1.stats) && NoDup(w1.inv);
    var w := Worked(g, c, die);
    ApplyEffectsKeepsNoDup(w1, c.stats, c.itemAdd, c.itemRemove);
    assert InBounds(w.stats) && NoDup(w.inv);
    var next := NextOf(c, o);
    assert TargetOk(next);
  }

  /** The 1-4 keys: "1" to "4" select the choice at index 0 to 3. */
  function KeyIndex(key: string): (i: Option<nat>)
    ensures i.Some? <==> |key| == 1 && '1' <= key[0] <= '4'
    ensures i.Some? ==> i.value < 4 && key[0] as int == '1' as int + i.value
  {
    if key == "1" then Some(0)
    else if key == "2" then Some(1)
    else if key == "3" then Some(2)
    else if key == "4" then Some(3)
    else None
  }

  predicate IsResetKey(key: string) {
    key == "r" || key == "R"
  }

  /** The keyboard handler: a number key applies the choice at its index when
      the node has one (no-op otherwise), "r"/"R" resets, any other key leaves
      the game state alone. The `nodeId in Nodes` test always holds under `Inv`. */
  function HandleKey(g: GameState, key: string, die: Die): (r: GameState)
    ensures IsResetKey(key) ==> r == ResetState()
    ensures KeyIndex(key).None? && !IsResetKey(key) ==> r == g
  {
    match KeyIndex(key)
    case Some(i) =>
      if g.nodeId in Nodes && i < |Nodes[g.nodeId].choices| then Step(g, Nodes[g.nodeId].choices[i], die) else g
    case None =>
      if IsResetKey(key) then ResetState() else g
  }

  /** A number key at or beyond the node's choice count changes nothing. */
  lemma KeyBeyondChoicesNoOp(g: GameState, key: string, die: Die)
    requires Inv(g)
    requires KeyIndex(key).Some? && KeyIndex(key).value >= |Nodes[g.nodeId].choices|
    ensures HandleKey(g, key, die) == g
  {
  }

  /** Player input: a key press, a click on the i-th choice button (buttons
      exist only for the node's choices) or the Restart button. */
  datatype Input = Key(key: string, die: Die) | Click(index: nat, die: Die) | RestartButton

  function Handle(g: GameState, input: Input): (r: GameState)
    ensures input.RestartButton? ==> r == ResetState()
    ensures input.Click? && (g.nodeId !in Nodes || input.index >= |Nodes[g.nodeId].choices|) ==> r == g
  {
    match input
    case Key(key, die) => HandleKey(g, key, die)
    case Click(i, die) =>
      if g.nodeId in Nodes && i < |Nodes[g.nodeId].choices| then Step(g, Nodes[g.nodeId].choices[i], die) else g
    case RestartButton => ResetState()
  }

  /** The inputs in order; a run ending with the Restart button ends at the
      reset state, whatever came before. */
  function Run(g: GameState, inputs: seq<Input>): (r: GameState)
    ensures inputs != [] && inputs[|inputs| - 1].RestartButton? ==> r == ResetState()
    decreases |inputs|
  {
    if inputs == [] then g else Run(Handle(g, inputs[0]), inputs[1..])
  }

  lemma HandleKeepsInv(g: GameState, input: Input)
    requires Inv(g)
    ensures Inv(Handle(g, input))
  {
    GraphValid();
    match input
    case Key(key, die) =>
      if KeyIndex(key).Some? && KeyIndex(key).value < |Nodes[g.nodeId].choices| {
        ChoiceOfNodeOk(g.nodeId, Nodes[g.nodeId].choices[KeyIndex(key).value]);
        StepKeepsInv(g, Nodes[g.nodeId].choices[KeyIndex(key).value], die);
      }
    case Click(i, die) =>
      if i < |Nodes[g.nodeId].choices| {
        ChoiceOfNodeOk(g.nodeId, Nodes[g.nodeId].choices[i]);
        StepKeepsInv(g, Nodes[g.nodeId].choices[i], die);
      }
    case RestartButton =>
  }

  /** From the reset onward, whatever the inputs: the node exists, the
      inventory has no duplicates, the stats are within their bounds and a
      health of at most 0 means game over. */
  lemma {:induction false} ReachableInv(inputs: seq<Input>)
    ensures Inv(Run(ResetState(), inputs))
  {
    RunKeepsInv(ResetState(), inputs);
  }

  lemma {:induction false} RunKeepsInv(g: GameState, inputs: seq<Input>)
    requires Inv(g)
    ensures Inv(Run(g, inputs))
    decreases |inputs|
  {
    if inputs != [] {
      HandleKeepsInv(g, inputs[0]);
      RunKeepsInv(Handle(g, inputs[0]), inputs[1..]);
    }
  }

  /** With health at most 0 the game is at game over, and taking its
      "Restart (R)" choice leaves it there. */
  lemma GameOverTrap(g: GameState, die: Die)
    requires Inv(g) && g.stats.health <= 0
    ensures g.nodeId == GameOverId
    ensures Step(g, GameOverNode.choices[0], die).nodeId == GameOverId
    ensures Step(g, GameOverNode.choices[0], die).stats == g.stats
  {
  }

  /** Only a reset leaves game over: every other input keeps the game there. */
  lemma {:induction false} OnlyResetEscapes(g: GameState, inputs: seq<Input>)
    requires Inv(g) && g.stats.health <= 0
    requires forall i :: 0 <= i < |inputs| ==> !inputs[i].RestartButton? && !(inputs[i].Key? && IsResetKey(inputs[i].key))
    ensures Run(g, inputs).nodeId == GameOverId && Run(g, inputs).stats == g.stats
    decreases |inputs|
  {
    if inputs != [] {
      var h := Handle(g, inputs[0]);
      assert h.nodeId == GameOverId && h.stats == g.stats && Inv(h) by {
        HandleKeepsInv(g, inputs[0]);
      }
      OnlyResetEscapes(h, inputs[1..]);
    }
  }

  /** One group of effects on the working stats and inventory, as the source
      writes it twice: merge the delta, add the item, remove the item. */
  method ApplyEffectGroup(s: Stats, inventory: seq<Item>, delta: Option<Delta>, add: Option<string>, remove: Option<string>)
    returns (s': Stats, inventory': seq<Item>)
    ensures Work(s', inventory') == ApplyEffects(Work(s, inventory), delta, add, remove)
  {
    s', inventory' := s, inventory;
    if delta.Some? { s' := ApplyStats(s', delta.value); }
    if Truthy(add) { inventory' := AddItem(inventory', add.value); }
    if Truthy(remove) { inventory' := RemoveItem(inventory', remove.value); }
  }

  /** The drifter component's game state. */
  class Game {
    var nodeId: NodeId
    var stats: Stats
    var inv: seq<Item>
    var log: seq<string>

    function State(): GameState
      reads this
    {
      GameState(nodeId, stats, inv, log)
    }

    ghost predicate Valid()
      reads this
    {
      Inv(State())
    }

    /** The initial `useState` values. */
    constructor ()
      ensures State() == ResetState() && Valid()
    {
      nodeId := StartId;
      stats := BaselineStats;
      inv := [];
      log := [];
    }

    /** The node being shown: `nodes[nodeId]`. */
    function CurrentNode(): (n: Node)
      reads this
      requires Valid()
      ensures 1 <= |n.choices| <= 4
    {
      GraphValid();
      Nodes[nodeId]
    }

    method HardReset()
      modifies this
      ensures State() == ResetState() && Valid()
    {
      stats := BaselineStats;
      inv := [];
      log := [];
      nodeId := StartId;
    }

    method ApplyChoice(choice: Choice, die: Die)
      requires Valid() && ChoiceOk(choice)
      modifies this
      ensures State() == Step(old(State()), choice, die)
      ensures Valid()
    {
      ghost var g := State();
      StepKeepsInv(g, choice, die);
      var s := stats;
      var inventory := inv;
      var next := choice.next;
      var logline := Arrow + choice.text;

      if choice.check.Some? {
        var passed := RollCheck(choice.check.value, s, die);
        logline := logline + (if passed then PassNote else FailNote);
        var result := if passed then choice.onPass else choice.onFail;
        s, inventory := ApplyEffectGroup(s, inventory, result.stats, result.itemAdd, result.itemRemove);
        if Truthy(result.next) { next := result.next; }
      }
      assert Work(s, inventory) == AfterCheck(Work(g.stats, g.inv), choice, Outcome(choice, g.stats, die));
      assert next == NextOf(choice, Outcome(choice, g.stats, die));
      assert logline == LogLine(choice, Outcome(choice, g.stats, die));

      s, inventory := ApplyEffectGroup(s, inventory, choice.stats, choice.itemAdd, choice.itemRemove);

      stats := s;
      inv := inventory;
      log := PushLog(log, logline);
      if s.health <= 0 {
        nodeId := GameOverId;
        return;
      }
      if Truthy(next) { nodeId := next.value; }
    }

    method PressKey(key: string, die: Die)
      requires Valid()
      modifies this
      ensures State() == HandleKey(old(State()), key, die)
      ensures Valid()
    {
      var idx := KeyIndex(key);
      if idx.Some? {
        var node := CurrentNode();
        if idx.value < |node.choices| {
          ChoiceOfNodeOk(nodeId, node.choices[idx.value]);
          ApplyChoice(node.choices[idx.value], die);
        }
      } else if IsResetKey(key) {
        HardReset();
      }
    }

    /** A click on the button of the node's `i`-th choice. */
    method Click(i: nat, die: Die)
      requires Valid() && i < |Nodes[nodeId].choices|
      modifies this
      ensures State() == Handle(old(State()), Input.Click(i, die))
      ensures Valid()
    {
      GraphValid();
      ChoiceOfNodeOk(nodeId, Nodes[nodeId].choices[i]);
      ApplyChoice(Nodes[nodeId].choices[i], die);
    }
  }
}
