/** Each write of the autoscaler changes what it names and nothing else, however many writers there are. */
module FieldWrites {
  import opened Prelude
  import opened Clock
  import opened Cluster
  import opened Settings
  import opened Journal
  import opened ShutdownOrder

  /** The scheduling flag of n is written by this entry. */
  predicate WritesFlag(e: Event, n: string) {
    Write(e) && e.call.UpdateNode? && e.call.node.name == n
  }

  /** This annotation of n is written by this entry. */
  predicate WritesKey(e: Event, n: string, key: string) {
    Write(e) && e.call.PatchNode? && e.call.name == n && key in e.call.patch
  }

  /** Every node keeps all that is not written. */
  ghost predicate OnlyNamed(pre: World, post: World, e: Event) {
    && post.nodes.Keys == pre.nodes.Keys
    && forall n | n in pre.nodes ::
         var a, b := pre.nodes[n], post.nodes[n];
         && b.name == a.name && b.labels == a.labels && b.ready == a.ready && b.volumesInUse == a.volumesInUse
         && b.allocatable == a.allocatable
         && (!WritesFlag(e, n) ==> b.unschedulable == a.unschedulable)
         && (forall key :: !WritesKey(e, n, key) ==> Annotation(b, key) == Annotation(a, key))
  }

  lemma UpdateOnlyNamed(cfg: Config, h: History, m: Monitor, node: Node)
    requires h.Then? && Write(h.event) && h.event.call == UpdateNode(node) && WellFormed(h.seen)
    requires StepTruthful(h.past.state.memory, h.seen, h.event, h.state)
    requires CallAllowed(cfg, m, h.past.state.world.clock, h.seen, h.event.call, h.event.reply)
    ensures OnlyNamed(h.seen, h.state.world, h.event)
  {
  }

  lemma PatchOnlyNamed(h: History, n: string, patch: Patch)
    requires h.Then? && Write(h.event) && h.event.call == PatchNode(n, patch) && WellFormed(h.seen)
    requires StepTruthful(h.past.state.memory, h.seen, h.event, h.state)
    ensures OnlyNamed(h.seen, h.state.world, h.event)
  {
    assert h.state.world.nodes.Keys == h.seen.nodes.Keys;
  }

  /** An entry of the autoscaler changes at most the scheduling flag of the node it updates, or the
      annotations its patch names; a whole-node update that would carry back anything else is not stored,
      because somebody has written the node since it was read. */
  lemma NoLostUpdates(cfg: Config, h: History)
    requires Lawful(h) && Disciplined(cfg, h) && h.Then?
    ensures OnlyNamed(h.seen, h.state.world, h.event)
  {
    Open(cfg, h);
    if Write(h.event) {
      match h.event.call
      case UpdateNode(node) => UpdateOnlyNamed(cfg, h, Replay(cfg, h.past), node);
      case PatchNode(n, patch) => PatchOnlyNamed(h, n, patch);
      case _ =>
    } else {
      assert h.state.world.nodes == h.seen.nodes;
    }
  }

  /** The annotations the autoscaler writes are the off mark and the boot time. */
  lemma OwnKeysOnly(cfg: Config, h: History, n: string, key: string)
    requires Justified(cfg, h) && h.Then? && WritesKey(h.event, n, key)
    ensures key == POWERED_OFF || key == BOOTED_AT
  {
  }

  /** Since h0 other parties have not changed this annotation of n, nor removed n. */
  ghost predicate OthersKeepKey(h: History, h0: History, n: string, key: string) {
    || h == h0
    || (&& h.Then? && OthersKeepKey(h.past, h0, n, key)
        && (n in h.past.state.world.nodes ==>
              n in h.seen.nodes && Annotation(h.seen.nodes[n], key) == Annotation(h.past.state.world.nodes[n], key)))
  }

  /** So what other parties write under keys of their own stays, for any number of loops and restarts. */
  lemma {:induction false} OthersValuesSurvive(cfg: Config, h: History, h0: History, n: string, key: string)
    requires Truthful(h) && Justified(cfg, h) && OthersKeepKey(h, h0, n, key)
    requires key != POWERED_OFF && key != BOOTED_AT && n in h0.state.world.nodes
    ensures n in h.state.world.nodes
    ensures Annotation(h.state.world.nodes[n], key) == Annotation(h0.state.world.nodes[n], key)
  {
    if h != h0 {
      OthersValuesSurvive(cfg, h.past, h0, n, key);
      Open(cfg, h);
      NoLostUpdates(cfg, h);
      if WritesKey(h.event, n, key) {
        OwnKeysOnly(cfg, h, n, key);
      }
    }
  }

  /** In a dry run nothing is written, evicted, powered on or shut down. */
  lemma DryRunOnlyLooks(cfg: Config, h: History)
    requires Truthful(h) && Justified(cfg, h) && cfg.dryRun && h.Then?
    ensures h.state.world == h.seen
    ensures h.event.Called? ==>
              !h.event.call.UpdateNode? && !h.event.call.PatchNode? && !h.event.call.Evict?
              && !h.event.call.Shutdown? && !h.event.call.PowerOn?
  {
  }
}
