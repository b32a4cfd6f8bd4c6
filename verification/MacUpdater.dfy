/** The second writer to the same nodes: it notes the hardware addresses of nodes that have none, in a
    thread of its own. Its history is its own; to the reconciler it is one of the other parties. */
module MacUpdater {
  import opened Prelude
  import opened Clock
  import opened Cluster
  import opened Settings
  import opened Journal
  import opened ApiServer
  import opened NodeLists
  import opened ShutdownOrder
  import DrainSoundness
  import BootProtection
  import CacheCoherence
  import FieldWrites

  function TextOf(node: Node, key: string): Value {
    if key in node.annotations then node.annotations[key] else Text("")
  }

  /** An address is known, from an administrator or from an earlier discovery. */
  predicate HasMac(node: Node) {
    TextOf(node, "cba.dev/mac-address-override") != Text("") || TextOf(node, "cba.dev/mac-address") != Text("")
  }

  function MacPatch(mac: Value): Patch {
    map[MAC_AUTO := Some(mac)]
  }

  /** What the updater has listed last. */
  ghost function LastListing(h: History): seq<Node> {
    match h
    case Start(_) => []
    case Then(past, _, e, _) =>
      if e.Called? && e.call.ListNodes? && e.reply.Nodes? then e.reply.nodes else LastListing(past)
  }

  /** The address that the agent of a managed node answered, which was listed without one. */
  ghost predicate Discovers(cfg: Config, listing: seq<Node>, answers: map<string, Value>, call: Call) {
    && call.PatchNode? && call.name in answers && call.patch == MacPatch(answers[call.name])
    && exists x :: x in listing && x.name == call.name && Managed(cfg, x) && !HasMac(x)
  }

  /** h goes on from h0 with nothing but listings and discoveries. */
  ghost predicate OnlyDiscovers(cfg: Config, h: History, h0: History, answers: map<string, Value>) {
    || h == h0
    || (&& h.Then? && OnlyDiscovers(cfg, h.past, h0, answers) && h.event.Called?
        && (h.event.call.ListNodes? || (!cfg.dryRun && Discovers(cfg, LastListing(h.past), answers, h.event.call))))
  }

  /** After h0 the address was sent, whatever the reply. */
  ghost predicate SentSince(h: History, h0: History, n: string, mac: Value) {
    h != h0 && h.Then? && (Sent(h, h.past, n, mac) || SentSince(h.past, h0, n, mac))
  }

  /** Every managed node of these that has no address, and whose agent answers, was sent its address. */
  ghost predicate AllSent(cfg: Config, h: History, h0: History, nodes: seq<Node>, answers: map<string, Value>) {
    forall x | x in nodes && Managed(cfg, x) && !HasMac(x) && x.name in answers ::
      SentSince(h, h0, x.name, answers[x.name])
  }

  /** The listing was refused, and that was all. */
  ghost predicate NotListed(h: History, h0: History) {
    h.Then? && h.past == h0 && h.event.Called? && h.event.call.ListNodes? && h.event.reply.Refused?
  }

  lemma SentStill(cfg: Config, h: History, h1: History, h0: History, nodes: seq<Node>, answers: map<string, Value>,
                  n: string, mac: Value)
    requires Sent(h, h1, n, mac) && Continues(h1, h0) && AllSent(cfg, h1, h0, nodes, answers)
    ensures Continues(h, h0) && SentSince(h, h0, n, mac) && AllSent(cfg, h, h0, nodes, answers)
  {
    if h1 != h0 {
      NoLoop(h1, h0);
    }
  }

  /** The nodes so far were dealt with, and now one more. */
  lemma OneNodeMore(cfg: Config, h: History, h0: History, nodes: seq<Node>, i: nat, answers: map<string, Value>)
    requires i < |nodes| && AllSent(cfg, h, h0, nodes[..i], answers)
    requires Managed(cfg, nodes[i]) && !HasMac(nodes[i]) && nodes[i].name in answers ==>
               SentSince(h, h0, nodes[i].name, answers[nodes[i].name])
    ensures AllSent(cfg, h, h0, nodes[..i + 1], answers)
  {
    assert nodes[..i + 1] == nodes[..i] + [nodes[i]];
  }

  /** One round, in which the agents of some nodes answer with an address; the others cannot be found or asked.
      Every managed node that is listed without an address, and whose agent answers, is sent its address. */
  method RunOnce(cfg: Config, api: Api, answers: map<string, Value>) returns (ghost listed: bool)
    requires api.Valid()
    modifies api`world, api`history
    ensures api.Valid() && OnlyDiscovers(cfg, api.history, old(api.history), answers)
    ensures !listed ==> NotListed(api.history, old(api.history))
    ensures listed && !cfg.dryRun ==>
              AllSent(cfg, api.history, old(api.history), LastListing(api.history), answers)
  {
    var reply := api.ListNodes(Background);
    listed := reply.Nodes?;
    if reply.Refused? {
      return;
    }
    ghost var listing, h0 := reply.nodes, old(api.history);
    var nodes := SelectManaged(cfg, reply.nodes);
    for i := 0 to |nodes|
      invariant api.Valid() && OnlyDiscovers(cfg, api.history, h0, answers)
      invariant LastListing(api.history) == listing && Continues(api.history, h0)
      invariant !cfg.dryRun ==> AllSent(cfg, api.history, h0, nodes[..i], answers)
    {
      assert nodes[i] in Elements(nodes);
      if TextOf(nodes[i], MAC_MANUAL) == Text("") && TextOf(nodes[i], MAC_AUTO) == Text("") {
        if nodes[i].name in answers {
          ghost var before := api.history;
          SetDiscoveredMac(cfg, api, nodes[i], answers[nodes[i].name], h0, answers);
          if !cfg.dryRun {
            SentStill(cfg, api.history, before, h0, nodes[..i], answers, nodes[i].name, answers[nodes[i].name]);
          }
        }
      }
      if !cfg.dryRun {
        OneNodeMore(cfg, api.history, h0, nodes, i, answers);
      }
    }
    assert nodes[..|nodes|] == nodes;
    assert forall x :: x in nodes <==> x in Elements(nodes);
  }

  /** One entry further the discovery has been sent, whatever the reply. */
  ghost predicate Sent(h: History, before: History, n: string, mac: Value) {
    h.Then? && h.past == before && h.event.Called? && h.event.call == PatchNode(n, MacPatch(mac))
  }

  /** Stores the address, unless in a dry run. */
  method SetDiscoveredMac(cfg: Config, api: Api, node: Node, mac: Value, ghost h0: History,
                          ghost answers: map<string, Value>)
    requires api.Valid() && OnlyDiscovers(cfg, api.history, h0, answers)
    requires node in LastListing(api.history) && Managed(cfg, node) && !HasMac(node)
    requires node.name in answers && answers[node.name] == mac
    modifies api`world, api`history
    ensures api.Valid() && OnlyDiscovers(cfg, api.history, h0, answers)
    ensures LastListing(api.history) == old(LastListing(api.history))
    ensures if cfg.dryRun then api.history == old(api.history)
            else Sent(api.history, old(api.history), node.name, mac)
  {
    if cfg.dryRun {
      return;
    }
    var reply := api.PatchNode(Background, node.name, MacPatch(mac));
  }

  /** The updater is a considerate neighbour: a discovery changes nothing that any of the reconciler's
      guarantees asks other parties to leave alone. */
  lemma DiscoveryIsConsiderate(cfg: Config, pre: World, n: string, mac: Value)
    requires WellFormed(pre) && n in pre.nodes
    ensures var post := Put(pre, Patched(pre.nodes[n], MacPatch(mac)));
            && Outside(pre, post)
            && (forall x :: FaceIn(post, x) == FaceIn(pre, x))
            && (forall x :: DrainSoundness.Rely(pre, post, x))
            && (forall x :: BootProtection.OthersRespect(pre, post, x))
            && ServiceNames(cfg, post) == ServiceNames(cfg, pre)
            && CacheCoherence.Unedited(pre, post) && CacheCoherence.SameReadiness(pre, post)
  {
    var post := Put(pre, Patched(pre.nodes[n], MacPatch(mac)));
    assert post.nodes.Keys == pre.nodes.Keys;
    forall x | x in pre.nodes
      ensures post.nodes[x] == pre.nodes[x].(annotations := post.nodes[x].annotations, version := post.nodes[x].version)
      ensures forall key | key != MAC_AUTO :: Annotation(post.nodes[x], key) == Annotation(pre.nodes[x], key) {
    }
    forall x | x in pre.nodes ensures InService(cfg, post.nodes[x]) == InService(cfg, pre.nodes[x]) {
      assert Annotation(post.nodes[x], POWERED_OFF) == Annotation(pre.nodes[x], POWERED_OFF);
    }
    forall x ensures BootProtection.OthersRespect(pre, post, x) {
      if x in pre.nodes {
        assert Annotation(post.nodes[x], BOOTED_AT) == Annotation(pre.nodes[x], BOOTED_AT);
      }
    }
  }

  /** And the reconciler in turn leaves discovered addresses alone. */
  lemma AddressesSurvive(cfg: Config, h: History, h0: History, n: string, key: string)
    requires Lawful(h) && Disciplined(cfg, h) && FieldWrites.OthersKeepKey(h, h0, n, key)
    requires (key == MAC_AUTO || key == MAC_MANUAL) && n in h0.state.world.nodes
    ensures n in h.state.world.nodes && TextOf(h.state.world.nodes[n], key) == TextOf(h0.state.world.nodes[n], key)
  {
    Open(cfg, h);
    FieldWrites.OthersValuesSurvive(cfg, h, h0, n, key);
  }
}
