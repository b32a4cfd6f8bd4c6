/** Every shutdown is the last of a fixed order of steps, all taken in the same reconcile loop and with
    no other write to a node in between. The order is defined here on the history alone. */
module ShutdownOrder {
  import opened Prelude
  import opened Clock
  import opened Cluster
  import opened Settings
  import opened Journal
  import opened Findings

  datatype Milestone =
    | FoundEligible          // one of more than the minimum of eligible nodes
    | Picked
    | Cleared(gate: Gate)    // a gate approved on figures that justify it and that the cluster answered
    | CordonStored
    | PodsGone               // a poll, and the cluster at that moment has nothing to move on the node
    | VolumesFree            // the node at that moment reports no volume in use
    | VolumesDetached        // the cluster at that moment has no volume attached to the node
    | MarkStored             // the present time is stored as the off mark

  /** The last entry of h is this milestone for node n. */
  ghost predicate Reaches(cfg: Config, h: History, n: string, s: Milestone)
    requires h.Then?
  {
    var e := h.event;
    match s
    case FoundEligible =>
      && e.Filtered? && e.now == h.past.state.world.clock
      && NodesSeen(h.past).Some?
      && var eligible := EligibleNames(cfg, NodesSeen(h.past).value, h.past.state.memory, e.now);
         n in eligible && |eligible| > cfg.minNodes
    case Picked => e == Chosen(n)
    case Cleared(gate) =>
      && e.Verdict? && e.name == n && e.ok && GateOf(e.evidence) == gate && Approves(cfg, e.evidence, n)
      && EvidenceSeen(cfg, h.past, e.evidence, n)
    case CordonStored =>
      && Write(e) && e.call.UpdateNode? && e.call.node.name == n
      && n in h.state.world.nodes && h.state.world.nodes[n].unschedulable
    case PodsGone => e.Called? && e.call == ListPods(n) && e.reply.Pods? && NothingToDrain(h.seen.pods, n)
    case VolumesFree =>
      e.Called? && e.call == GetNode(n) && e.reply.One? && n in h.seen.nodes && h.seen.nodes[n].volumesInUse == {}
    case VolumesDetached =>
      e.Called? && e.call == ListAttachments && e.reply.Attachments? && NothingAttached(h.seen.attachments, n)
    case MarkStored =>
      && Write(e) && e.call == PatchNode(n, MarkPatch(h.past.state.world.clock))
      && n in h.state.world.nodes
      && PoweredOffSince(h.state.world.nodes[n]) == Some(Instant(Seconds(h.past.state.world.clock)))
  }

  /** The loop has reached the milestones for node n in this order, the last one last, and from the first
      of them on no node was written except to reach them. */
  ghost predicate Led(cfg: Config, h: History, n: string, path: seq<Milestone>) {
    || path == []
    || (&& h.Then? && !StartsLoop(h.event)
        && (|| (Reaches(cfg, h, n, path[|path| - 1]) && Led(cfg, h.past, n, path[..|path| - 1]))
            || (!Write(h.event) && Led(cfg, h.past, n, path))))
  }

  function Vetted(cfg: Config, k: nat): seq<Milestone>
    requires k <= |Chain(cfg)|
  {
    if k == 0 then [FoundEligible, Picked] else Vetted(cfg, k - 1) + [Cleared(Chain(cfg)[k - 1])]
  }

  function PathToCordon(cfg: Config): seq<Milestone> {
    Vetted(cfg, |Chain(cfg)|) + [CordonStored]
  }

  function PathToShutdown(cfg: Config): seq<Milestone> {
    PathToCordon(cfg) + [PodsGone] + [VolumesFree] + [VolumesDetached] + [MarkStored]
  }

  // ----- Proof

  lemma Onward(cfg: Config, h: History, n: string, path: seq<Milestone>, next: Milestone)
    requires h.Then? && !StartsLoop(h.event) && Led(cfg, h.past, n, path) && Reaches(cfg, h, n, next)
    ensures Led(cfg, h, n, path + [next])
  {
    assert (path + [next])[..|path|] == path;
  }

  /** What a stage of the protocol stands for. */
  ghost predicate StageEarned(cfg: Config, h: History, s: Stage) {
    match s
    case Vetting(n, k) => k <= |Chain(cfg)| && Led(cfg, h, n, Vetted(cfg, k))
    case Cordoned(n) => Led(cfg, h, n, PathToCordon(cfg))
    case Emptied(n) => Led(cfg, h, n, PathToCordon(cfg)) && Led(cfg, h, n, PathToCordon(cfg) + [PodsGone])
    case Unmounted(n) =>
      Led(cfg, h, n, PathToCordon(cfg)) && Led(cfg, h, n, PathToCordon(cfg) + [PodsGone] + [VolumesFree])
    case Detached(n) =>
      && Led(cfg, h, n, PathToCordon(cfg))
      && Led(cfg, h, n, PathToCordon(cfg) + [PodsGone] + [VolumesFree] + [VolumesDetached])
    case Marked(n) => Led(cfg, h, n, PathToShutdown(cfg))
    case Sent(n) => Led(cfg, h, n, PathToShutdown(cfg))
    case _ => true
  }

  ghost predicate EligibleEarned(cfg: Config, h: History, m: Monitor) {
    m.stage.Idle? || m.stage.Vetting? ==>
      forall n | n in m.work.eligible && |m.work.eligible| > cfg.minNodes :: Led(cfg, h, n, [FoundEligible])
  }

  ghost predicate Earned(cfg: Config, h: History, m: Monitor) {
    && StageEarned(cfg, h, m.stage)
    && EligibleEarned(cfg, h, m)
  }

  lemma StageKept(cfg: Config, h: History, s: Stage)
    requires h.Then? && !StartsLoop(h.event) && !Write(h.event) && StageEarned(cfg, h.past, s)
    ensures StageEarned(cfg, h, s)
  {
  }

  lemma ReadStep(cfg: Config, h: History, m: Monitor)
    requires h.Then? && h.event.Called? && !Write(h.event) && Earned(cfg, h.past, m)
    requires StepTruthful(h.past.state.memory, h.seen, h.event, h.state)
    ensures Earned(cfg, h, AfterCall(m, h.event.call, h.event.reply))
  {
    StageKept(cfg, h, m.stage);
    assert EligibleEarned(cfg, h, m);
    var k := AfterCall(m, h.event.call, h.event.reply);
    match h.event.call
    case ListPods(n) => PollStep(cfg, h, m, n);
    case GetNode(n) =>
      if m.stage == Emptied(n) && k.stage == Unmounted(n) {
        Onward(cfg, h, n, PathToCordon(cfg) + [PodsGone], VolumesFree);
      }
    case ListAttachments =>
      if k.stage != m.stage {
        var n := m.stage.name;
        Onward(cfg, h, n, PathToCordon(cfg) + [PodsGone] + [VolumesFree], VolumesDetached);
      }
    case _ =>
  }

  lemma PollStep(cfg: Config, h: History, m: Monitor, n: string)
    requires h.Then? && h.event.Called? && h.event.call == ListPods(n) && Earned(cfg, h.past, m)
    requires StepTruthful(h.past.state.memory, h.seen, h.event, h.state)
    requires StageEarned(cfg, h, m.stage)
    ensures StageEarned(cfg, h, AfterCall(m, h.event.call, h.event.reply).stage)
  {
    if h.event.reply.Pods? && Draining(m.stage, n) && NothingToMove(h.event.reply.pods, n) {
      Onward(cfg, h, n, PathToCordon(cfg), PodsGone);
    }
  }

  lemma StoredMark(h: History, n: string, c: Time)
    requires h.Then? && Write(h.event) && h.event.call == PatchNode(n, MarkPatch(c))
    requires StepTruthful(h.past.state.memory, h.seen, h.event, h.state) && WellFormed(h.seen)
    ensures n in h.state.world.nodes && PoweredOffSince(h.state.world.nodes[n]) == Some(Instant(Seconds(c)))
  {
    assert POWERED_OFF in MarkPatch(c);
  }

  lemma MarkStep(cfg: Config, h: History, n: string)
    requires h.Then? && Write(h.event) && h.event.call == PatchNode(n, MarkPatch(h.past.state.world.clock))
    requires StepTruthful(h.past.state.memory, h.seen, h.event, h.state) && WellFormed(h.seen)
    requires Led(cfg, h.past, n, PathToCordon(cfg) + [PodsGone] + [VolumesFree] + [VolumesDetached])
    ensures Led(cfg, h, n, PathToShutdown(cfg))
  {
    StoredMark(h, n, h.past.state.world.clock);
    Onward(cfg, h, n, PathToCordon(cfg) + [PodsGone] + [VolumesFree] + [VolumesDetached], MarkStored);
  }

  lemma CordonStep(cfg: Config, h: History, node: Node)
    requires h.Then? && Write(h.event) && h.event.call == UpdateNode(node) && node.unschedulable
    requires StepTruthful(h.past.state.memory, h.seen, h.event, h.state)
    requires Led(cfg, h.past, node.name, Vetted(cfg, |Chain(cfg)|))
    ensures Led(cfg, h, node.name, PathToCordon(cfg))
  {
    Onward(cfg, h, node.name, Vetted(cfg, |Chain(cfg)|), CordonStored);
  }

  lemma WriteStep(cfg: Config, h: History, m: Monitor)
    requires h.Then? && Write(h.event) && Earned(cfg, h.past, m)
    requires StepTruthful(h.past.state.memory, h.seen, h.event, h.state) && WellFormed(h.seen)
    requires CallAllowed(cfg, m, h.past.state.world.clock, h.seen, h.event.call, h.event.reply)
    ensures Earned(cfg, h, AfterCall(m, h.event.call, h.event.reply))
  {
    match h.event.call
    case UpdateNode(node) =>
      if node.unschedulable {
        CordonStep(cfg, h, node);
      }
    case PatchNode(n, patch) =>
      if SetsMark(patch) {
        MarkStep(cfg, h, n);
      }
  }

  lemma PickStep(cfg: Config, h: History, n: string)
    requires h.Then? && h.event == Chosen(n) && Led(cfg, h.past, n, [FoundEligible])
    ensures Led(cfg, h, n, Vetted(cfg, 0))
  {
    Onward(cfg, h, n, [FoundEligible], Picked);
    assert [FoundEligible] + [Picked] == Vetted(cfg, 0);
  }

  lemma FilterStep(cfg: Config, h: History, now: Time)
    requires h.Then? && h.event == Filtered(now) && now == h.past.state.world.clock && NodesSeen(h.past).Some?
    ensures var e := EligibleNames(cfg, NodesSeen(h.past).value, h.past.state.memory, now);
            forall n | n in e && |e| > cfg.minNodes :: Led(cfg, h, n, [FoundEligible])
  {
    var e := EligibleNames(cfg, NodesSeen(h.past).value, h.past.state.memory, now);
    forall n | n in e && |e| > cfg.minNodes ensures Led(cfg, h, n, [FoundEligible]) {
      Onward(cfg, h, n, [], FoundEligible);
      assert [] + [FoundEligible] == [FoundEligible];
    }
  }

  lemma VerdictStep(cfg: Config, h: History, n: string, k: nat, evidence: Evidence)
    requires h.Then? && h.event == Verdict(n, evidence, true) && k < |Chain(cfg)| && GateOf(evidence) == Chain(cfg)[k]
    requires Led(cfg, h.past, n, Vetted(cfg, k)) && Approves(cfg, evidence, n)
    requires EvidenceSeen(cfg, h.past, evidence, n)
    ensures Led(cfg, h, n, Vetted(cfg, k + 1))
  {
    Onward(cfg, h, n, Vetted(cfg, k), Cleared(Chain(cfg)[k]));
  }

  /** A note that leaves the protocol where it is. */
  lemma OtherNote(cfg: Config, h: History, m: Monitor)
    requires h.Then? && !h.event.Called? && !StartsLoop(h.event) && Earned(cfg, h.past, m)
    requires !h.event.Filtered? && !h.event.Chosen? && !h.event.Verdict?
    ensures Earned(cfg, h, After(cfg, m, h.past.state.memory, h.seen, h.event))
  {
    StageKept(cfg, h, m.stage);
  }

  lemma NoteStep(cfg: Config, h: History, m: Monitor)
    requires h.Then? && !h.event.Called? && !StartsLoop(h.event) && Earned(cfg, h.past, m) && Sighted(h.past, m)
    requires Allowed(cfg, m, h.past.state, h.seen, h.event)
    ensures Earned(cfg, h, After(cfg, m, h.past.state.memory, h.seen, h.event))
  {
    match h.event
    case Filtered(now) => FilterStep(cfg, h, now);
    case Chosen(n) => PickStep(cfg, h, n);
    case Verdict(n, evidence, ok) =>
      if ok {
        VerdictStep(cfg, h, n, m.stage.approvals, evidence);
      }
    case _ => OtherNote(cfg, h, m);
  }

  lemma {:induction false} EveryStageEarned(cfg: Config, h: History)
    requires Truthful(h) && Justified(cfg, h)
    ensures Earned(cfg, h, Replay(cfg, h))
  {
    if h.Then? {
      EveryStageEarned(cfg, h.past);
      var m := Replay(cfg, h.past);
      if Write(h.event) {
        WriteStep(cfg, h, m);
      } else if h.event.Called? {
        ReadStep(cfg, h, m);
      } else if !StartsLoop(h.event) {
        AlwaysSighted(cfg, h.past);
        NoteStep(cfg, h, m);
      }
    }
  }

  /** Whatever the outside world does in between, a host is asked to shut down only after all the steps,
      in order and undisturbed by any other write of the autoscaler. */
  lemma ShutdownWasEarned(cfg: Config, h: History, n: string)
    requires Lawful(h) && Disciplined(cfg, h)
    requires h.Then? && h.event.Called? && h.event.call == Shutdown(n)
    ensures Led(cfg, h.past, n, PathToShutdown(cfg))
  {
    Open(cfg, h);
    EveryStageEarned(cfg, h.past);
    ShutdownFollowsMark(cfg, h, n);
  }

  lemma ShutdownFollowsMark(cfg: Config, h: History, n: string)
    requires Justified(cfg, h) && h.Then? && h.event.Called? && h.event.call == Shutdown(n)
    ensures Replay(cfg, h.past).stage == Marked(n)
  {
  }
}
