/** A node that was booted is left alone for the boot cooldown, also by a process that was started since. */
module BootProtection {
  import opened Prelude
  import opened Clock
  import opened Cluster
  import opened Settings
  import opened Journal
  import opened Findings

  predicate BootedFrom(node: Node, b: int) {
    BOOTED_AT in node.annotations && node.annotations[BOOTED_AT].Stamp? && node.annotations[BOOTED_AT].seconds >= b
  }

  /** The stored boot time of n is b or later. */
  predicate StampKept(w: World, n: string, b: int) {
    n in w.nodes && BootedFrom(w.nodes[n], b)
  }

  /** Other parties keep the node and do not turn back its boot time. */
  predicate OthersRespect(pre: World, post: World, n: string) {
    n in pre.nodes && BOOTED_AT in pre.nodes[n].annotations && pre.nodes[n].annotations[BOOTED_AT].Stamp? ==>
      StampKept(post, n, pre.nodes[n].annotations[BOOTED_AT].seconds)
  }

  /** h continues h0, and other parties respected the boot time of n since. There may have been restarts. */
  ghost predicate Since(h: History, h0: History, n: string) {
    h == h0 || (h.Then? && Since(h.past, h0, n) && OthersRespect(h.past.state.world, h.seen, n))
  }

  /** The last entry of h stores b as the boot time of n. */
  ghost predicate StoresBoot(h: History, n: string, b: int) {
    && h.Then? && Write(h.event) && h.event.call.PatchNode? && h.event.call.name == n
    && BOOTED_AT in h.event.call.patch && h.event.call.patch[BOOTED_AT] == Some(Stamp(b))
  }

  predicate Released(cfg: Config, t: Time, b: int) {
    Sub(t, Instant(b)) >= cfg.bootCooldown
  }

  /** The shutdown protocol is about n. */
  predicate Targets(s: Stage, n: string) {
    (s.Vetting? || s.Cordoned? || s.Emptied? || s.Unmounted? || s.Detached? || s.Marked? || s.Sent?) && s.name == n
  }

  ghost predicate Guarded(cfg: Config, w: World, m: Monitor, n: string, b: int) {
    && StampKept(w, n, b) && b <= Seconds(w.clock)
    && (m.listing.Some? ==> forall x | x in m.listing.value && x.name == n :: BootedFrom(x, b))
    && (n in m.work.eligible || Targets(m.stage, n) ==> Released(cfg, w.clock, b))
  }

  lemma LaterReleased(cfg: Config, t: Time, u: Time, b: int)
    requires t <= u && Released(cfg, t, b)
    ensures Released(cfg, u, b)
  {
  }

  lemma OutsideGuards(cfg: Config, pre: World, post: World, m: Monitor, n: string, b: int)
    requires Outside(pre, post) && OthersRespect(pre, post, n) && Guarded(cfg, pre, m, n, b)
    ensures Guarded(cfg, post, m, n, b)
  {
    if Released(cfg, pre.clock, b) {
      LaterReleased(cfg, pre.clock, post.clock, b);
    }
  }

  lemma PatchKeepsStamp(h: History, m: Monitor, p: string, patch: Patch, n: string, b: int)
    requires h.Then? && Write(h.event) && h.event.call == PatchNode(p, patch)
    requires WellFormed(h.seen) && StampKept(h.seen, n, b) && b <= Seconds(h.past.state.world.clock)
    requires StepTruthful(h.past.state.memory, h.seen, h.event, h.state)
    requires KnownPatch(m, p, patch, h.past.state.world.clock)
    ensures StampKept(h.state.world, n, b)
  {
  }

  lemma UpdateKeepsStamp(cfg: Config, h: History, m: Monitor, node: Node, n: string, b: int)
    requires h.Then? && Write(h.event) && h.event.call == UpdateNode(node)
    requires WellFormed(h.seen) && StampKept(h.seen, n, b)
    requires StepTruthful(h.past.state.memory, h.seen, h.event, h.state)
    requires OnlyScheduling(h.seen.nodes[node.name], node)
    ensures StampKept(h.state.world, n, b)
  {
  }

  /** After a write there is no listing any more, and what it is about was about that before. */
  lemma WriteTargets(m: Monitor, call: Call, reply: Reply, n: string)
    requires (call.UpdateNode? || call.PatchNode?) && Applied(reply)
    requires call.UpdateNode? && call.node.unschedulable ==> m.stage.Vetting? && m.stage.name == call.node.name
    ensures var k := AfterCall(m, call, reply);
            && k.listing.None? && k.work.eligible <= m.work.eligible
            && (Targets(k.stage, n) ==> Targets(m.stage, n))
  {
  }

  lemma ReadTargets(m: Monitor, call: Call, reply: Reply, n: string)
    requires !((call.UpdateNode? || call.PatchNode?) && Applied(reply))
    ensures var k := AfterCall(m, call, reply);
            && k.listing == (if call.ListNodes? && reply.Nodes? then Some(reply.nodes) else m.listing)
            && k.work.eligible == m.work.eligible
            && (Targets(k.stage, n) ==> Targets(m.stage, n))
  {
  }

  lemma WriteGuards(cfg: Config, h: History, m: Monitor, n: string, b: int)
    requires h.Then? && Write(h.event) && Guarded(cfg, h.seen, m, n, b) && WellFormed(h.seen)
    requires b <= Seconds(h.past.state.world.clock) && h.state.world.clock == h.seen.clock
    requires StepTruthful(h.past.state.memory, h.seen, h.event, h.state)
    requires CallAllowed(cfg, m, h.past.state.world.clock, h.seen, h.event.call, h.event.reply)
    ensures Guarded(cfg, h.state.world, AfterCall(m, h.event.call, h.event.reply), n, b)
  {
    WriteTargets(m, h.event.call, h.event.reply, n);
    match h.event.call
    case UpdateNode(node) => UpdateKeepsStamp(cfg, h, m, node, n, b);
    case PatchNode(p, patch) =>
      AllowedPatchKnown(cfg, m, h.past.state.world.clock, h.seen, p, patch, h.event.reply);
      PatchKeepsStamp(h, m, p, patch, n, b);
  }

  lemma ReadGuards(cfg: Config, h: History, m: Monitor, n: string, b: int)
    requires h.Then? && h.event.Called? && !Write(h.event) && Guarded(cfg, h.seen, m, n, b) && WellFormed(h.seen)
    requires h.state.world.clock == h.seen.clock
    requires StepTruthful(h.past.state.memory, h.seen, h.event, h.state)
    ensures Guarded(cfg, h.state.world, AfterCall(m, h.event.call, h.event.reply), n, b)
  {
    ReadTargets(m, h.event.call, h.event.reply, n);
    assert h.state.world.nodes == h.seen.nodes;
  }

  lemma CallGuards(cfg: Config, h: History, m: Monitor, n: string, b: int)
    requires h.Then? && h.event.Called? && Guarded(cfg, h.seen, m, n, b) && WellFormed(h.seen)
    requires b <= Seconds(h.past.state.world.clock)
    requires StepTruthful(h.past.state.memory, h.seen, h.event, h.state)
    requires CallAllowed(cfg, m, h.past.state.world.clock, h.seen, h.event.call, h.event.reply)
    ensures Guarded(cfg, h.state.world, AfterCall(m, h.event.call, h.event.reply), n, b)
  {
    ClockStands(h.past.state.memory, h.seen, h.event, h.state);
    if Write(h.event) {
      WriteGuards(cfg, h, m, n, b);
    } else {
      ReadGuards(cfg, h, m, n, b);
    }
  }

  lemma FilterGuards(cfg: Config, nodes: seq<Node>, memory: Memory, now: Time, n: string, b: int)
    requires forall x | x in nodes && x.name == n :: BootedFrom(x, b)
    requires n in EligibleNames(cfg, nodes, memory, now)
    ensures Released(cfg, now, b)
  {
    var x :| x in nodes && Managed(cfg, x) && ShutdownEligible(cfg, x, memory, now) && x.name == n;
    assert Instant(b) <= Instant(x.annotations[BOOTED_AT].seconds);
  }

  lemma NoteGuards(cfg: Config, h: History, m: Monitor, n: string, b: int)
    requires h.Then? && !h.event.Called? && Guarded(cfg, h.seen, m, n, b)
    requires Outside(h.past.state.world, h.seen)
    requires StepTruthful(h.past.state.memory, h.seen, h.event, h.state)
    requires Allowed(cfg, m, h.past.state, h.seen, h.event)
    ensures Guarded(cfg, h.state.world, After(cfg, m, h.past.state.memory, h.seen, h.event), n, b)
  {
    if h.event.Filtered? && n in EligibleNames(cfg, m.listing.value, h.past.state.memory, h.event.now) {
      FilterGuards(cfg, m.listing.value, h.past.state.memory, h.event.now, n, b);
      LaterReleased(cfg, h.event.now, h.seen.clock, b);
    }
  }

  lemma BootStored(cfg: Config, h: History, m: Monitor, n: string, b: int)
    requires StoresBoot(h, n, b) && Outside(h.past.state.world, h.seen)
    requires StepTruthful(h.past.state.memory, h.seen, h.event, h.state)
    requires CallAllowed(cfg, m, h.past.state.world.clock, h.seen, h.event.call, h.event.reply)
    ensures Guarded(cfg, h.state.world, AfterCall(m, h.event.call, h.event.reply), n, b)
  {
  }

  lemma {:induction false} AlwaysGuarded(cfg: Config, h: History, h0: History, n: string, b: int)
    requires Truthful(h) && Justified(cfg, h) && Since(h, h0, n)
    requires StoresBoot(h0, n, b)
    ensures Guarded(cfg, h.state.world, Replay(cfg, h), n, b)
  {
    if h == h0 {
      BootStored(cfg, h, Replay(cfg, h.past), n, b);
    } else {
      AlwaysGuarded(cfg, h.past, h0, n, b);
      var m := Replay(cfg, h.past);
      OutsideGuards(cfg, h.past.state.world, h.seen, m, n, b);
      if h.event.Called? {
        CallGuards(cfg, h, m, n, b);
      } else {
        NoteGuards(cfg, h, m, n, b);
      }
    }
  }

  /** No write of the autoscaler removes a stored boot time or turns it back. */
  lemma BootTimeSurvives(cfg: Config, h: History, h0: History, n: string, b: int)
    requires Lawful(h) && Disciplined(cfg, h) && Since(h, h0, n)
    requires StoresBoot(h0, n, b)
    ensures StampKept(h.state.world, n, b)
  {
    Open(cfg, h);
    AlwaysGuarded(cfg, h, h0, n, b);
  }

  /** No set of eligible nodes computed from the last listing before the boot cooldown is over contains the
      node, whatever was remembered or forgotten in between. */
  lemma NotEligibleWhileProtected(cfg: Config, h: History, h0: History, n: string, b: int)
    requires Truthful(h) && Justified(cfg, h) && Since(h, h0, n) && cfg.bootCooldown >= 0
    requires StoresBoot(h0, n, b) && h.event.Filtered? && NodesSeen(h.past).Some?
    requires n in EligibleNames(cfg, NodesSeen(h.past).value, h.past.state.memory, h.event.now)
    ensures h.state.world.clock >= Instant(b) + cfg.bootCooldown
  {
    AlwaysSighted(cfg, h.past);
    AlwaysGuarded(cfg, h, h0, n, b);
  }

  /** And its host is not asked to shut down before then. */
  lemma NoShutdownWhileProtected(cfg: Config, h: History, h0: History, n: string, b: int)
    requires Truthful(h) && Justified(cfg, h) && Since(h, h0, n) && cfg.bootCooldown >= 0
    requires StoresBoot(h0, n, b) && h.event.Called? && h.event.call == Shutdown(n)
    ensures h.past.state.world.clock >= Instant(b) + cfg.bootCooldown
  {
    AlwaysGuarded(cfg, h.past, h0, n, b);
  }
}
