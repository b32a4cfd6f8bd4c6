/** On what grounds a host is shut down, in terms of labels, annotations, times, requests and loads as they
    were read in the same loop. Neither the chain of gates nor their verdicts are mentioned here. */
module ShutdownGrounds {
  import opened Prelude
  import opened Clock
  import opened Cluster
  import opened Settings
  import opened Journal
  import opened Findings
  import opened Rollback
  import opened Headroom
  import opened PlainTerms
  import NodeLists

  // ----- Eligible

  /** The last entry computes the eligible nodes, and n is one of more than the minimum of them. */
  ghost predicate FindsAvailable(cfg: Config, h: History, n: string)
    requires h.Then?
  {
    && h.event.Filtered? && h.event.now == h.past.state.world.clock && NodesSeen(h.past).Some?
    && var names := AvailableNames(cfg, NodesSeen(h.past).value, h.past.state.memory, h.event.now);
       n in names && |names| > cfg.minNodes
  }

  ghost predicate FoundAvailable(cfg: Config, h: History, n: string) {
    h.Then? && !StartsLoop(h.event) && (FindsAvailable(cfg, h, n) || FoundAvailable(cfg, h.past, n))
  }

  // ----- Fitting on the rest

  /** Node n was picked last, and since then all nodes, all pods and the metrics were read: metrics cover every
      node, and if the readings are sound there is room without n, at least as far as the buffers compute. */
  ghost predicate CapacityShown(cfg: Config, h: History, n: string) {
    && PickedLast(h).Some? && PickedLast(h).value.0 == n
    && NodesSeen(h).Some? && PodsSeen(h).Some? && UsageSeen(h).Some?
    && Fitting(cfg, NodesSeen(h).value, PodsSeen(h).value, UsageSeen(h).value, n)
  }

  ghost predicate Fitting(cfg: Config, nodes: seq<Node>, pods: seq<Pod>, usage: map<string, Resources.Amount>,
                          n: string)
  {
    && (forall x | x in nodes :: x.name in usage)
    && (SoundReadings(cfg, nodes, pods, usage) && BufferComputes(cfg, nodes, n) ==>
          RoomWithout(cfg, nodes, pods, usage, n))
  }

  // ----- Idle, and not needed

  /** Node n was picked last, and the loads read since then allow for its removal. */
  ghost predicate LoadShown(cfg: Config, h: History, n: string) {
    && PickedLast(h).Some? && PickedLast(h).value.0 == n
    && LoadsAllow(cfg, NodesSeen(h), LoadsSeen(h), n)
  }

  /** And this was so at some time since the pick. */
  ghost predicate CapacityChecked(cfg: Config, h: History, n: string) {
    && h.Then? && !StartsLoop(h.event) && !h.event.Chosen?
    && (CapacityShown(cfg, h.past, n) || CapacityChecked(cfg, h.past, n))
  }

  ghost predicate LoadChecked(cfg: Config, h: History, n: string) {
    && h.Then? && !StartsLoop(h.event) && !h.event.Chosen?
    && (LoadShown(cfg, h.past, n) || LoadChecked(cfg, h.past, n))
  }

  // ----- What a stage of the protocol stands for

  ghost predicate Grounds(cfg: Config, h: History, n: string) {
    FoundAvailable(cfg, h, n) && CapacityChecked(cfg, h, n) && (cfg.loadAverage ==> LoadChecked(cfg, h, n))
  }

  ghost predicate StageGrounded(cfg: Config, h: History, s: Stage) {
    match s
    case Vetting(n, k) =>
      && FoundAvailable(cfg, h, n) && (k >= 1 ==> CapacityChecked(cfg, h, n)) && (k >= 2 ==> LoadChecked(cfg, h, n))
    case Cordoned(n) => Grounds(cfg, h, n)
    case Emptied(n) => Grounds(cfg, h, n)
    case Unmounted(n) => Grounds(cfg, h, n)
    case Detached(n) => Grounds(cfg, h, n)
    case Marked(n) => Grounds(cfg, h, n)
    case Sent(n) => Grounds(cfg, h, n)
    case _ => true
  }

  ghost predicate Grounded(cfg: Config, h: History, m: Monitor) {
    && StageGrounded(cfg, h, m.stage)
    && (m.stage.Idle? || m.stage.Vetting? ==>
          forall n | n in m.work.eligible && |m.work.eligible| > cfg.minNodes :: FoundAvailable(cfg, h, n))
  }

  lemma StillGrounded(cfg: Config, h: History, s: Stage)
    requires h.Then? && !StartsLoop(h.event) && !h.event.Chosen? && StageGrounded(cfg, h.past, s)
    ensures StageGrounded(cfg, h, s)
  {
  }

  predicate UnderWay(s: Stage) {
    s.Cordoned? || s.Emptied? || s.Unmounted? || s.Detached? || s.Marked? || s.Sent?
  }

  /** A call may take the protocol a step on, with the same node, or end it. */
  lemma CallStages(cfg: Config, m: Monitor, clock: Time, seen: World, call: Call, reply: Reply)
    requires CallAllowed(cfg, m, clock, seen, call, reply)
    ensures var s, t := m.stage, AfterCall(m, call, reply).stage;
            || t == s || t.Idle? || t.RollingBack?
            || (t.Cordoned? && s == Vetting(t.name, |Chain(cfg)|))
            || (UnderWay(t) && UnderWay(s) && t.name == s.name)
    ensures AfterCall(m, call, reply).work.eligible in {m.work.eligible, {}}
  {
  }

  /** With all gates of the chain behind it a candidate has been checked for everything configured. */
  lemma AllGatesPassed(cfg: Config, h: History, n: string)
    requires StageGrounded(cfg, h, Vetting(n, |Chain(cfg)|))
    ensures Grounds(cfg, h, n)
  {
  }

  lemma CallGrounded(cfg: Config, h: History, m: Monitor)
    requires h.Then? && h.event.Called? && Grounded(cfg, h.past, m)
    requires CallAllowed(cfg, m, h.past.state.world.clock, h.seen, h.event.call, h.event.reply)
    ensures Grounded(cfg, h, AfterCall(m, h.event.call, h.event.reply))
  {
    var k := AfterCall(m, h.event.call, h.event.reply);
    CallStages(cfg, m, h.past.state.world.clock, h.seen, h.event.call, h.event.reply);
    StillGrounded(cfg, h, m.stage);
    if k.stage.Cordoned? && m.stage == Vetting(k.stage.name, |Chain(cfg)|) {
      AllGatesPassed(cfg, h, k.stage.name);
    }
  }

  lemma EvidenceShows(cfg: Config, h: History, m: Monitor, n: string, e: Evidence)
    requires Sighted(h, m) && EvidenceRead(cfg, m, e, n) && Approves(cfg, e, n)
    requires PickedLast(h).Some? && PickedLast(h).value.0 == n
    requires m.listing.Some? ==> NodeLists.DistinctNames(m.listing.value)
    ensures GateOf(e) == ResourceAware ==> CapacityShown(cfg, h, n)
    ensures GateOf(e) == LoadAverage ==> LoadShown(cfg, h, n)
  {
    match e
    case ResourceFigures(nodes, pods, usage) =>
      ApprovalNeedsMetrics(cfg, nodes, pods, usage, n);
      if SoundReadings(cfg, nodes, pods, usage) {
        ApprovalMeansRoom(cfg, nodes, pods, usage, n);
      }
    case LoadFigures(s) =>
      ApprovalPlainly(cfg, s, NodesSeen(h), n);
  }

  lemma VerdictGrounded(cfg: Config, h: History, m: Monitor)
    requires h.Then? && h.event.Verdict? && Grounded(cfg, h.past, m) && Sighted(h.past, m)
    requires m.stage.Vetting? ==> PickedLast(h.past).Some? && PickedLast(h.past).value.0 == m.stage.name
    requires m.listing.Some? ==> NodeLists.DistinctNames(m.listing.value)
    requires Allowed(cfg, m, h.past.state, h.seen, h.event)
    ensures Grounded(cfg, h, After(cfg, m, h.past.state.memory, h.seen, h.event))
  {
    StillGrounded(cfg, h, m.stage);
    if h.event.ok {
      EvidenceShows(cfg, h.past, m, m.stage.name, h.event.evidence);
    }
  }

  lemma FilterGrounded(cfg: Config, h: History, m: Monitor)
    requires h.Then? && h.event.Filtered? && Sighted(h.past, m)
    requires Allowed(cfg, m, h.past.state, h.seen, h.event)
    ensures Grounded(cfg, h, After(cfg, m, h.past.state.memory, h.seen, h.event))
  {
    AvailableAreEligible(cfg, m.listing.value, h.past.state.memory, h.event.now);
  }

  lemma ChoiceGrounded(cfg: Config, h: History, m: Monitor)
    requires h.Then? && h.event.Chosen? && Grounded(cfg, h.past, m)
    requires Allowed(cfg, m, h.past.state, h.seen, h.event)
    ensures Grounded(cfg, h, After(cfg, m, h.past.state.memory, h.seen, h.event))
  {
  }

  lemma OtherNoteGrounded(cfg: Config, h: History, m: Monitor)
    requires h.Then? && !h.event.Called? && !h.event.Verdict? && !h.event.Filtered? && !h.event.Chosen?
    requires Grounded(cfg, h.past, m)
    ensures Grounded(cfg, h, After(cfg, m, h.past.state.memory, h.seen, h.event))
  {
    if !StartsLoop(h.event) {
      StillGrounded(cfg, h, m.stage);
    }
  }

  lemma StepGrounded(cfg: Config, h: History, m: Monitor)
    requires h.Then? && Grounded(cfg, h.past, m) && Sighted(h.past, m)
    requires m.listing.Some? ==> NodeLists.DistinctNames(m.listing.value)
    requires m.stage.Vetting? ==> PickedLast(h.past).Some? && PickedLast(h.past).value.0 == m.stage.name
    requires Allowed(cfg, m, h.past.state, h.seen, h.event)
    ensures Grounded(cfg, h, After(cfg, m, h.past.state.memory, h.seen, h.event))
  {
    match h.event
    case Called(_, _, _) => CallGrounded(cfg, h, m);
    case Verdict(_, _, _) => VerdictGrounded(cfg, h, m);
    case Filtered(_) => FilterGrounded(cfg, h, m);
    case Chosen(_) => ChoiceGrounded(cfg, h, m);
    case _ => OtherNoteGrounded(cfg, h, m);
  }

  lemma {:induction false} AlwaysGrounded(cfg: Config, h: History)
    requires Truthful(h) && Justified(cfg, h)
    ensures Grounded(cfg, h, Replay(cfg, h))
  {
    if h.Then? {
      AlwaysGrounded(cfg, h.past);
      AlwaysSighted(cfg, h.past);
      ListedOnce(h.past);
      AlwaysTracked(cfg, h.past);
      StepGrounded(cfg, h, Replay(cfg, h.past));
    }
  }

  /** A host is asked to shut down only on these grounds, all of the same loop: its node was one of more than
      the minimum of available nodes; then it was picked, and all nodes, all pods and the metrics were read and
      leave room without it; and if loads matter, it has answered that it is idle, and the others that they are
      not busy. */
  lemma ShutdownHadGrounds(cfg: Config, h: History, n: string)
    requires Lawful(h) && Disciplined(cfg, h)
    requires h.Then? && h.event.Called? && h.event.call == Shutdown(n)
    ensures !cfg.dryRun && FoundAvailable(cfg, h.past, n) && CapacityChecked(cfg, h.past, n)
    ensures cfg.loadAverage ==> LoadChecked(cfg, h.past, n)
  {
    Open(cfg, h);
    AlwaysGrounded(cfg, h.past);
    ShutdownAtMark(cfg, h, n);
  }

  lemma ShutdownAtMark(cfg: Config, h: History, n: string)
    requires Justified(cfg, h) && h.Then? && h.event.Called? && h.event.call == Shutdown(n)
    ensures !cfg.dryRun && Replay(cfg, h.past).stage == Marked(n)
  {
  }

  /** A candidate that has passed the chain was checked for everything configured. */
  lemma PassedMeansChecked(cfg: Config, h: History, n: string)
    requires Lawful(h) && Disciplined(cfg, h) && Watch(cfg, h).stage == Vetting(n, |Chain(cfg)|)
    ensures CapacityChecked(cfg, h, n) && (cfg.loadAverage ==> LoadChecked(cfg, h, n))
  {
    Open(cfg, h);
    AlwaysGrounded(cfg, h);
    AllGatesPassed(cfg, h, n);
  }
}
