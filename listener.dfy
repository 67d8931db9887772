/** The keydown listener as the component registers it. The listener is
    installed by an effect whose only dependency is the current node, so the
    `applyChoice` it calls reads the stats and inventory of the render in
    which the node last changed. A change of stats or inventory that keeps
    the node (a reset while already at "start") leaves the listener with the
    old values. */
module KeyListener {
  import opened StatModel
  import opened Inventory
  import opened CheckResolver
  import opened NodeGraph
  import opened Engine

  /** The game state together with the stats and inventory the registered
      listener has closed over. */
  datatype Session = Session(game: GameState, seen: Work)

  function Fresh(g: GameState): Session {
    Session(g, Work(g.stats, g.inv))
  }

  /** The effect re-registers the listener, with the new state, exactly when
      the node changed. */
  function Reregister(before: GameState, after: GameState, seen: Work): Work {
    if after.nodeId != before.nodeId then Work(after.stats, after.inv) else seen
  }

  /** A key press as written: a number key runs `applyChoice` on the node's
      choice, but with the stats and inventory the listener saw; the log is
      updated through a functional update and so is current. */
  function KeyAsWritten(ss: Session, key: string, die: Die): (r: Session)
    ensures r.game.nodeId == ss.game.nodeId ==> r.seen == ss.seen
    ensures r.game.nodeId != ss.game.nodeId ==> r.seen == Work(r.game.stats, r.game.inv)
    ensures IsResetKey(key) ==> r.game == ResetState()
    ensures KeyIndex(key).None? && !IsResetKey(key) ==> r == ss
  {
    var g := ss.game;
    var stale := GameState(g.nodeId, ss.seen.stats, ss.seen.inv, g.log);
    var after :=
      match KeyIndex(key)
      case Some(i) =>
        if g.nodeId in Nodes && i < |Nodes[g.nodeId].choices| then Step(stale, Nodes[g.nodeId].choices[i], die) else g
      case None =>
        if IsResetKey(key) then ResetState() else g;
    Session(after, Reregister(g, after, ss.seen))
  }

  /** Key presses as written, from a session. */
  function KeysAsWritten(ss: Session, keys: seq<string>, die: Die): Session
    decreases |keys|
  {
    if keys == [] then ss else KeysAsWritten(KeyAsWritten(ss, keys[0], die), keys[1..], die)
  }

  /** Key presses as intended: each one acts on the current state. */
  function KeysIntended(g: GameState, keys: seq<string>, die: Die): GameState
    decreases |keys|
  {
    if keys == [] then g else KeysIntended(HandleKey(g, keys[0], die), keys[1..], die)
  }

  /** While the listener's snapshot is the current state, the written handler
      does what the intended one does. */
  lemma AgreesWhenFresh(g: GameState, key: string, die: Die)
    ensures KeyAsWritten(Fresh(g), key, die).game == HandleKey(g, key, die)
  {
  }

  /** "2" at "start": to "busk", which registers a fresh listener. */
  lemma WrittenBusk()
    ensures KeyAsWritten(Fresh(ResetState()), "2", 6).game.nodeId == "busk"
    ensures KeyAsWritten(Fresh(ResetState()), "2", 6).seen.stats == BaselineStats
  {
    StartNodeOk();
  }

  /** "1" at "busk": charm + 1 and back to "start", which registers a fresh
      listener holding charm 2. */
  lemma WrittenCoin(ss: Session)
    requires ss.game.nodeId == "busk" && ss.seen.stats == BaselineStats
    ensures KeyAsWritten(ss, "1", 6).game.nodeId == StartId
    ensures KeyAsWritten(ss, "1", 6).seen.stats.charm == 2
  {
    BuskNodeOk();
  }

  /** "r" at "start": the state is reset, the node is unchanged and the
      listener is kept. */
  lemma WrittenReset(ss: Session)
    requires ss.game.nodeId == StartId
    ensures KeyAsWritten(ss, "r", 6) == Session(ResetState(), ss.seen)
  {
  }

  /** "1" at "start" with a listener holding charm 2: the raccoon choice
      keeps that charm. */
  lemma WrittenRaccoon(ss: Session)
    requires ss.game.nodeId == StartId && ss.seen.stats.charm == 2
    ensures KeyAsWritten(ss, "1", 6).game.stats.charm == 2
  {
    StartNodeOk();
  }

  lemma {:induction false} KeysAsWrittenCons(ss: Session, k: string, rest: seq<string>, die: Die)
    ensures KeysAsWritten(ss, [k] + rest, die) == KeysAsWritten(KeyAsWritten(ss, k, die), rest, die)
  {
    assert ([k] + rest)[1..] == rest;
  }

  /** From the initial state, the keys "2" (busk), "1" (pocket the coin,
      charm + 1, back at "start"), "r" (reset at "start") and "1" (approach
      the raccoon) end with charm 2: the reset is undone. */
  lemma StaleStatsAfterReset()
    ensures KeysAsWritten(Fresh(ResetState()), ["2", "1", "r", "1"], 6).game.stats.charm == 2
  {
    var s0 := Fresh(ResetState());
    WrittenBusk();
    var s1 := KeyAsWritten(s0, "2", 6);
    WrittenCoin(s1);
    var s2 := KeyAsWritten(s1, "1", 6);
    WrittenReset(s2);
    var s3 := KeyAsWritten(s2, "r", 6);
    WrittenRaccoon(s3);
    var s4 := KeyAsWritten(s3, "1", 6);
    KeysAsWrittenCons(s3, "1", [], 6);
    KeysAsWrittenCons(s2, "r", ["1"], 6);
    KeysAsWrittenCons(s1, "1", ["r", "1"], 6);
    KeysAsWrittenCons(s0, "2", ["1", "r", "1"], 6);
  }

  /** The same keys acting on the current state end with the baseline charm. */
  lemma IntendedAfterReset()
    ensures KeysIntended(ResetState(), ["2", "1", "r", "1"], 6).stats.charm == 1
  {
    var g2 := KeysIntended(ResetState(), ["2", "1"], 6);
    IntendedResetSticks(g2, 6);
    assert KeysIntended(ResetState(), ["2", "1", "r", "1"], 6) == HandleKey(HandleKey(g2, "r", 6), "1", 6) by {
      assert ["2", "1", "r", "1"][1..] == ["1", "r", "1"];
      assert ["1", "r", "1"][1..] == ["r", "1"];
      assert ["r", "1"][1..] == ["1"];
      assert ["2", "1"][1..] == ["1"];
    }
  }

  /** The intended handler after a reset: start's first choice keeps the
      baseline stats and the empty inventory, whatever came before. */
  lemma IntendedResetSticks(g: GameState, die: Die)
    ensures HandleKey(HandleKey(g, "r", die), "1", die).stats == BaselineStats
    ensures HandleKey(HandleKey(g, "r", die), "1", die).inv == []
  {
    StartNodeOk();
    StartRaccoonEitherWay(ResetState(), die);
  }
}
