/** The static node graph `buildNodes`: sixteen nodes keyed by id, each with
    an ordered list of one to four choices. Titles, narrative text and scene
    painters are presentation and are not part of the model. */
module NodeGraph {
  import opened Wrappers
  import opened StatModel
  import opened CheckResolver

  type NodeId = string

  /** An effect bundle (`onPass`/`onFail`); an absent bundle is the empty one. */
  datatype Bundle = Bundle(
    stats: Option<Delta> := None,
    itemAdd: Option<string> := None,
    itemRemove: Option<string> := None,
    next: Option<NodeId> := None)

  datatype Choice = Choice(
    text: string,
    next: Option<NodeId> := None,
    check: Option<Check> := None,
    onPass: Bundle := Bundle(),
    onFail: Bundle := Bundle(),
    stats: Option<Delta> := None,
    itemAdd: Option<string> := None,
    itemRemove: Option<string> := None)

  datatype Node = Node(choices: seq<Choice>)

  const StartId: NodeId := "start"
  const GameOverId: NodeId := "gameover"

  const StartNode: Node := Node([
    Choice("Approach the suspiciously friendly raccoon.", next := Some("raccoon"),
           check := Some(Check(Charm, 5)), onPass := Bundle(), onFail := Bundle()),
    Choice("Try to busk with your one‑note harmonica.", next := Some("busk"),
           check := Some(Check(Charm, 4)), onPass := Bundle(), onFail := Bundle()),
    Choice("Investigate the boxcar with the sign 'Absolutely Not Haunted'.", next := Some("boxcar")),
    Choice("Search the crate labeled 'Mystery Sandwiches'.", next := Some("sandwich"))])
  const RaccoonNode: Node := Node([
    Choice("Attempt a peace treaty with a shiny bottlecap.", check := Some(Check(Charm, 6)),
           onPass := Bundle(itemAdd := Some("Raccoon Respect"), next := Some("yardpass")),
           onFail := Bundle(stats := Some(map[Health := -1]), next := Some("start"))),
    Choice("Stand your ground. Growl back.", check := Some(Check(Grit, 6)),
           onPass := Bundle(stats := Some(map[Grit := 1]), next := Some("yardpass")),
           onFail := Bundle(stats := Some(map[Health := -1]), next := Some("start")))])
  const YardPassNode: Node := Node([
    Choice("Use your 'status' to approach workers for odd jobs.", next := Some("oddjobs")),
    Choice("Flex your luck and poke the ‘Definitely Not Button’ on the signal box.",
           check := Some(Check(Luck, 6)),
           onPass := Bundle(stats := Some(map[Luck := 1]), next := Some("shortcut")),
           onFail := Bundle(stats := Some(map[Health := -1]), next := Some("sparks")))])
  const BuskNode: Node := Node([
    Choice("Pocket the coin and bow like a celebrity.", stats := Some(map[Charm := 1]), next := Some("start")),
    Choice("Try a solo so intense you see colors.", check := Some(Check(Luck, 5)),
           onPass := Bundle(itemAdd := Some("Bent Coin"), stats := Some(map[Luck := 1]), next := Some("start")),
           onFail := Bundle(stats := Some(map[Health := -1]), next := Some("start")))])
  const BoxcarNode: Node := Node([
    Choice("Sit quietly and let the universe roast you.", stats := Some(map[Grit := 1]), next := Some("start")),
    Choice("Challenge the seagull to a staring contest.", check := Some(Check(Grit, 5)),
           onPass := Bundle(itemAdd := Some("Seagull Feather"), next := Some("start")),
           onFail := Bundle(stats := Some(map[Health := -1]), next := Some("start")))])
  const SandwichNode: Node := Node([
    Choice("Eat it. What could go wrong?", check := Some(Check(Grit, 7)),
           onPass := Bundle(stats := Some(map[Health := 1, Grit := 1]), next := Some("start")),
           onFail := Bundle(stats := Some(map[Health := -2]), next := Some("latrine"))),
    Choice("Trade it to the pigeon for intel.", check := Some(Check(Charm, 5)),
           onPass := Bundle(itemAdd := Some("Pigeon Gossip"), next := Some("shortcut")),
           onFail := Bundle(next := Some("start")))])
  const LatrineNode: Node := Node([
    Choice("Dignity? Never met her. Exit with renewed perspective (and soap).",
           stats := Some(map[Grit := 1]), next := Some("start"))])
  const OddJobsNode: Node := Node([
    Choice("Sweep like a choreography montage.", stats := Some(map[Grit := 1, Charm := 1]),
           itemAdd := Some("Free Pass"), next := Some("shortcut")),
    Choice("Exorcise the forklift with jazz hands.", check := Some(Check(Charm, 6)),
           onPass := Bundle(stats := Some(map[Charm := 1]), next := Some("shortcut")),
           onFail := Bundle(stats := Some(map[Health := -1]), next := Some("sparks"))),
    Choice("Serenade the coffee machine in B‑flat.", check := Some(Check(Luck, 5)),
           onPass := Bundle(itemAdd := Some("Coffee"), stats := Some(map[Luck := 1]), next := Some("start")),
           onFail := Bundle(next := Some("start")))])
  const ShortcutNode: Node := Node([
    Choice("Grab a pretzel (carbs = courage).", stats := Some(map[Health := 1]), next := Some("road")),
    Choice("Pocket the map and whistle ominously.", itemAdd := Some("Crumpled Map"), next := Some("road"))])
  const SparksNode: Node := Node([
    Choice("Laugh it off. Style it as ‘electro‑mullet’.", stats := Some(map[Charm := 1]), next := Some("start")),
    Choice("Take a breather and hydrate.", stats := Some(map[Health := 1]), next := Some("start"))])
  const RoadNode: Node := Node([
    Choice("Head to the diner and negotiate for pie.", next := Some("diner")),
    Choice("Seek shelter at the gazebo and befriend local chess grandpa.", next := Some("gazebo")),
    Choice("Contemplate the cardboard ‘Art?’ until enlightenment or splinters.", next := Some("art"))])
  const DinerNode: Node := Node([
    Choice("Charm the server with self‑deprecation and exact pie facts.", check := Some(Check(Charm, 7)),
           onPass := Bundle(itemAdd := Some("Pie"), stats := Some(map[Charm := 1, Health := 1]), next := Some("road")),
           onFail := Bundle(next := Some("road"))),
    Choice("Offer to wash dishes with heroic gusto.", stats := Some(map[Grit := 1]),
           itemAdd := Some("Clean Spoon"), next := Some("road"))])
  const GazeboNode: Node := Node([
    Choice("Play seriously.", check := Some(Check(Grit, 7)),
           onPass := Bundle(stats := Some(map[Grit := 1]), next := Some("advice")),
           onFail := Bundle(next := Some("advice"))),
    Choice("Distract with harmonica solo mid‑match.", check := Some(Check(Charm, 6)),
           onPass := Bundle(stats := Some(map[Charm := 1]), next := Some("advice")),
           onFail := Bundle(next := Some("advice")))])
  const AdviceNode: Node := Node([
    Choice("Nod solemnly and move on.", next := Some("road"))])
  const ArtNode: Node := Node([
    Choice("Bow. Accept the role.", stats := Some(map[Charm := 1]), next := Some("road")),
    Choice("Steal the title card because it’s funny.", itemAdd := Some("Art Card"),
           stats := Some(map[Luck := 1]), next := Some("road"))])
  const GameOverNode: Node := Node([
    Choice("Restart (R)", next := Some("start"))])

  const Nodes: map<NodeId, Node> := map[
    "start" := StartNode,
    "raccoon" := RaccoonNode,
    "yardpass" := YardPassNode,
    "busk" := BuskNode,
    "boxcar" := BoxcarNode,
    "sandwich" := SandwichNode,
    "latrine" := LatrineNode,
    "oddjobs" := OddJobsNode,
    "shortcut" := ShortcutNode,
    "sparks" := SparksNode,
    "road" := RoadNode,
    "diner" := DinerNode,
    "gazebo" := GazeboNode,
    "advice" := AdviceNode,
    "art" := ArtNode,
    "gameover" := GameOverNode
  ]

  /** The ids of the sixteen nodes. */
  const NodeIds: set<NodeId> := {"start", "raccoon", "yardpass", "busk", "boxcar", "sandwich", "latrine",
    "oddjobs", "shortcut", "sparks", "road", "diner", "gazebo", "advice", "art", "gameover"}

  /** A target a choice may send the game to: its own `next` or either bundle's. */
  predicate TargetOk(t: Option<NodeId>) {
    t.Some? ==> t.value in NodeIds && t.value != GameOverId
  }

  predicate ChoiceOk(c: Choice) {
    TargetOk(c.next) && TargetOk(c.onPass.next) && TargetOk(c.onFail.next)
  }

  predicate NodeOk(n: Node) {
    1 <= |n.choices| <= 4 && forall i :: 0 <= i < |n.choices| ==> ChoiceOk(n.choices[i])
  }

  /** Start-up validation of the graph: exactly the sixteen ids, "start" and
      "gameover" among them, and every node well formed. */
  predicate GraphOk() {
    && Nodes.Keys == NodeIds
    && StartId in NodeIds && GameOverId in NodeIds
    && forall id :: id in Nodes ==> NodeOk(Nodes[id])
  }

  lemma StartNodeOk() ensures Nodes["start"] == StartNode && NodeOk(StartNode) { }
  lemma RaccoonNodeOk() ensures Nodes["raccoon"] == RaccoonNode && NodeOk(RaccoonNode) { }
  lemma YardPassNodeOk() ensures Nodes["yardpass"] == YardPassNode && NodeOk(YardPassNode) { }
  lemma BuskNodeOk() ensures Nodes["busk"] == BuskNode && NodeOk(BuskNode) { }
  lemma BoxcarNodeOk() ensures Nodes["boxcar"] == BoxcarNode && NodeOk(BoxcarNode) { }
  lemma SandwichNodeOk() ensures Nodes["sandwich"] == SandwichNode && NodeOk(SandwichNode) { }
  lemma LatrineNodeOk() ensures Nodes["latrine"] == LatrineNode && NodeOk(LatrineNode) { }
  lemma OddJobsNodeOk() ensures Nodes["oddjobs"] == OddJobsNode && NodeOk(OddJobsNode) { }
  lemma ShortcutNodeOk() ensures Nodes["shortcut"] == ShortcutNode && NodeOk(ShortcutNode) { }
  lemma SparksNodeOk() ensures Nodes["sparks"] == SparksNode && NodeOk(SparksNode) { }
  lemma RoadNodeOk() ensures Nodes["road"] == RoadNode && NodeOk(RoadNode) { }
  lemma DinerNodeOk() ensures Nodes["diner"] == DinerNode && NodeOk(DinerNode) { }
  lemma GazeboNodeOk() ensures Nodes["gazebo"] == GazeboNode && NodeOk(GazeboNode) { }
  lemma AdviceNodeOk() ensures Nodes["advice"] == AdviceNode && NodeOk(AdviceNode) { }
  lemma ArtNodeOk() ensures Nodes["art"] == ArtNode && NodeOk(ArtNode) { }
  lemma GameOverNodeOk() ensures Nodes["gameover"] == GameOverNode && NodeOk(GameOverNode) { }

  lemma KeysAre()
    ensures Nodes.Keys == NodeIds
  {
  }


  /** Every node has one to four choices; every `next`, `onPass.next` and
      `onFail.next` names a node of the graph; no choice targets the game-over
      node, which is reached only through health depletion. */
  lemma GraphValid()
    ensures GraphOk()
  {
    StartNodeOk();
    RaccoonNodeOk();
    YardPassNodeOk();
    BuskNodeOk();
    BoxcarNodeOk();
    SandwichNodeOk();
    LatrineNodeOk();
    OddJobsNodeOk();
    ShortcutNodeOk();
    SparksNodeOk();
    RoadNodeOk();
    DinerNodeOk();
    GazeboNodeOk();
    AdviceNodeOk();
    ArtNodeOk();
    GameOverNodeOk();
    KeysAre();
    forall id | id in Nodes
      ensures NodeOk(Nodes[id])
    {
      assert id in NodeIds;
    }
  }

  /** Every choice of every node is well targeted. */
  lemma ChoiceOfNodeOk(id: NodeId, c: Choice)
    requires id in Nodes && c in Nodes[id].choices
    ensures ChoiceOk(c)
  {
    GraphValid();
    var i :| 0 <= i < |Nodes[id].choices| && Nodes[id].choices[i] == c;
  }
}
