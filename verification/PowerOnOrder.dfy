/** Why a host is powered on, and where it is woken. Every power-on outside forced mode follows, in its own
    reconcile loop and with no write to a node in between, what entitles to it; and that is read off the
    history alone. */
module PowerOnOrder {
  import opened Prelude
  import opened Clock
  import opened Cluster
  import opened Settings
  import opened Journal
  import opened Findings
  import opened PlainTerms
  import LoadGates
  import NodeLists

  datatype Reason =
    | First(name: string)       // of the managed nodes listed last the node is off the longest
    | TooFewServing             // of the nodes listed last fewer are serving than the minimum
    | Busy                      // the load of the cluster, as just answered, is at the threshold for scale-up
    | Spared                    // with one more node, one of more than the minimum of eligible nodes can be let go

  /** The nodes found eligible last in this loop. */
  ghost function EligibleSeen(cfg: Config, h: History): set<string> {
    match h
    case Start(_) => {}
    case Then(past, _, e, _) =>
      if StartsLoop(e) then {}
      else if e.Filtered? && NodesSeen(past).Some? then
        AvailableNames(cfg, NodesSeen(past).value, past.state.memory, e.now)
      else EligibleSeen(cfg, past)
  }

  /** Since nodes were last found eligible, c was weighed, and the loads just answered allow for its removal. */
  ghost predicate SparedByLoads(cfg: Config, h: History, c: string) {
    && h.Then? && !StartsLoop(h.event) && !h.event.Filtered? && !h.event.Deciding?
    && (|| (h.event.Weighed? && h.event.name == c && LoadsAllow(cfg, NodesSeen(h.past), LoadsSeen(h.past), c))
        || SparedByLoads(cfg, h.past, c))
  }

  /** The same, with the figures it was weighed on. */
  ghost predicate WeighedOn(cfg: Config, h: History, c: string, s: LoadGates.Snapshot) {
    && h.Then? && !StartsLoop(h.event) && !h.event.Filtered? && !h.event.Deciding?
    && (|| (h.event == Weighed(c, s) && LoadsAreSeen(h.past, s, NodesMatter(cfg, s, c)))
        || WeighedOn(cfg, h.past, c, s))
  }

  /** With one more node more than the minimum could be shut down, and the load gate lets one of them go. */
  ghost predicate CapacityToSpare(cfg: Config, h: History) {
    var eligible := EligibleSeen(cfg, h);
    && |eligible| + 1 > cfg.minNodes && eligible != {}
    && (cfg.loadAverage ==>
          exists c :: c in eligible && SparedByLoads(cfg, h, c))
  }

  /** The last entry of h finds this. */
  ghost predicate Shows(cfg: Config, h: History, r: Reason)
    requires h.Then?
  {
    var e, nodes, off := h.event, NodesSeen(h.past), h.past.state.memory.off;
    match r
    case First(n) => e == Headed(Longest(n)) && nodes.Some? && OffLongest(cfg, nodes.value, off, n)
    case TooFewServing => e.Counted? && nodes.Some? && |ServingNodes(cfg, nodes.value, off)| < cfg.minNodes
    case Busy => e.Measured? && cfg.loadAverage && LoadHigh(cfg, nodes, LoadsSeen(h.past))
    case Spared => e.Affordable? && CapacityToSpare(cfg, h.past)
  }

  /** The loop has found this, and written no node since. */
  ghost predicate Lately(cfg: Config, h: History, r: Reason) {
    h.Then? && !StartsLoop(h.event) && (Shows(cfg, h, r) || (!Write(h.event) && Lately(cfg, h.past, r)))
  }

  /** The loop has found n due for rotation, of the nodes listed last the due one marked first; and since then
      it has neither found another one due nor written a node. */
  ghost predicate FoundDue(cfg: Config, h: History, n: string) {
    && h.Then? && !StartsLoop(h.event)
    && (if h.event.Overdue? then
          && h.event.node.name == n && h.event.now <= h.past.state.world.clock
          && NodesSeen(h.past).Some? && DueFirst(cfg, NodesSeen(h.past).value, h.event.node, h.event.now)
        else !Write(h.event) && FoundDue(cfg, h.past, n))
  }

  /** The strategies of scale-up ask for n. */
  ghost predicate NeededMost(cfg: Config, h: History, n: string) {
    Lately(cfg, h, First(n)) && (Lately(cfg, h, TooFewServing) || Lately(cfg, h, Busy))
  }

  /** Rotation may take n. */
  ghost predicate DueAndSpared(cfg: Config, h: History, n: string) {
    FoundDue(cfg, h, n) && Lately(cfg, h, Spared)
  }

  /** In this loop all nodes were to be powered on, when n was listed as managed and not up. */
  ghost predicate ForcedOn(cfg: Config, h: History, n: string) {
    && h.Then? && !StartsLoop(h.event)
    && (|| (h.event.Forcing? && NodesSeen(h.past).Some? && n in DownManaged(cfg, NodesSeen(h.past).value))
        || ForcedOn(cfg, h.past, n))
  }

  // ----- What the monitor holds to be found was found

  /** Findings that the next write to a node makes worthless. */
  ghost predicate PlanFounded(cfg: Config, h: History, p: Plan) {
    && (p.current && p.head.Longest? ==> Lately(cfg, h, First(p.head.name)))
    && (p.current && p.active.Some? && p.active.value < cfg.minNodes ==> Lately(cfg, h, TooFewServing))
    && (p.current && cfg.loadAverage && p.measured.Some? && !LoadGates.LoadLow(cfg, p.measured.value) ==>
          Lately(cfg, h, Busy))
    && (p.wanted.Some? ==> NeededMost(cfg, h, p.wanted.value) || DueAndSpared(cfg, h, p.wanted.value))
  }

  /** Findings that stay. */
  ghost predicate LoopFounded(cfg: Config, h: History, m: Monitor) {
    && (m.plan.due && m.loop.overdue.Some? ==> FoundDue(cfg, h, m.loop.overdue.value.name))
    && (m.work.eligible == {} || m.work.eligible == EligibleSeen(cfg, h))
    && (forall c | c in m.plan.weighed :: WeighedOn(cfg, h, c, m.plan.weighed[c]))
    && (m.plan.forced.Some? ==> forall n | n in DownManaged(cfg, m.plan.forced.value) :: ForcedOn(cfg, h, n))
  }

  ghost predicate Founded(cfg: Config, h: History, m: Monitor) {
    PlanFounded(cfg, h, m.plan) && LoopFounded(cfg, h, m)
  }

  lemma StillNeeded(cfg: Config, h: History, p: Plan)
    requires h.Then? && !StartsLoop(h.event) && !Write(h.event) && !h.event.Overdue? && PlanFounded(cfg, h.past, p)
    ensures PlanFounded(cfg, h, p)
  {
  }

  /** A call that is no write only reads, or uses up what it was entitled to. */
  lemma ReadKeepsPlan(m: Monitor, call: Call, reply: Reply)
    requires !((call.UpdateNode? || call.PatchNode?) && Applied(reply))
    ensures var k := AfterCall(m, call, reply);
            && (k.plan == m.plan || k.plan == m.plan.(wanted := None))
            && k.loop.overdue == m.loop.overdue && k.work.eligible == m.work.eligible
  {
  }

  lemma WriteEndsPlan(m: Monitor, call: Call, reply: Reply)
    requires (call.UpdateNode? || call.PatchNode?) && Applied(reply)
    ensures var k := AfterCall(m, call, reply);
            && k.plan == Overtaken(m.plan) && k.loop.overdue == m.loop.overdue
            && (k.work.eligible == m.work.eligible || k.work.eligible == {})
  {
  }

  lemma CallFounded(cfg: Config, h: History, m: Monitor)
    requires h.Then? && h.event.Called? && Founded(cfg, h.past, m)
    ensures Founded(cfg, h, AfterCall(m, h.event.call, h.event.reply))
  {
    if Write(h.event) {
      WriteEndsPlan(m, h.event.call, h.event.reply);
    } else {
      ReadKeepsPlan(m, h.event.call, h.event.reply);
      StillNeeded(cfg, h, m.plan);
    }
  }

  /** Notes that neither open a decision nor change what it is about. */
  predicate Neutral(e: Event) {
    || e.Tick? || e.Waited? || e.Swept? || e.Chosen? || e.Verdict? || e.DrainStarts? || e.DrainEnds? || e.Aborting?
    || e.Alarm? || e.Rotated? || e.Noted?
  }

  lemma NeutralKeeps(cfg: Config, m: Monitor, memory: Memory, seen: World, e: Event)
    requires Neutral(e)
    ensures var k := After(cfg, m, memory, seen, e);
            && k.plan == m.plan && k.work.eligible == m.work.eligible
            && (k.loop.overdue == m.loop.overdue || k.loop.overdue.None?)
  {
  }

  lemma NeutralFounded(cfg: Config, h: History, m: Monitor)
    requires h.Then? && Neutral(h.event) && Founded(cfg, h.past, m)
    ensures Founded(cfg, h, After(cfg, m, h.past.state.memory, h.seen, h.event))
  {
    NeutralKeeps(cfg, m, h.past.state.memory, h.seen, h.event);
    StillNeeded(cfg, h, m.plan);
  }

  /** What is found is so in plain terms. */
  lemma ShownPlainly(cfg: Config, h: History, m: Monitor)
    requires h.Then? && Sighted(h.past, m) && Allowed(cfg, m, h.past.state, h.seen, h.event)
    requires NodesSeen(h.past).Some? ==> NodeLists.DistinctNames(NodesSeen(h.past).value)
    ensures h.event.Headed? && h.event.head.Longest? ==> Shows(cfg, h, First(h.event.head.name))
    ensures h.event.Counted? && h.event.active < cfg.minNodes ==> Shows(cfg, h, TooFewServing)
    ensures h.event.Measured? && cfg.loadAverage && !LoadGates.LoadLow(cfg, h.event.figures) ==> Shows(cfg, h, Busy)
  {
    match h.event
    case Headed(head) =>
      if head.Longest? {
        LongestPlainly(cfg, m.listing.value, h.past.state.memory, head.name);
      }
    case Counted(_) =>
      ServingAreActive(cfg, m.listing.value, h.past.state.memory);
    case Measured(s) =>
      HighPlainly(cfg, s, NodesSeen(h.past));
    case _ =>
  }

  /** A finding of scale-up. */
  lemma FindingFounded(cfg: Config, h: History, m: Monitor)
    requires h.Then? && (h.event.Counted? || h.event.Headed? || h.event.Measured? || h.event.Wanted?)
    requires Founded(cfg, h.past, m) && Sighted(h.past, m) && Allowed(cfg, m, h.past.state, h.seen, h.event)
    requires NodesSeen(h.past).Some? ==> NodeLists.DistinctNames(NodesSeen(h.past).value)
    ensures Founded(cfg, h, After(cfg, m, h.past.state.memory, h.seen, h.event))
  {
    StillNeeded(cfg, h, m.plan);
    ShownPlainly(cfg, h, m);
  }

  /** A node found due takes the place of another, and of what that one was entitled to. */
  lemma DueFounded(cfg: Config, h: History, m: Monitor)
    requires h.Then? && h.event.Overdue? && Founded(cfg, h.past, m) && Sighted(h.past, m)
    requires Allowed(cfg, m, h.past.state, h.seen, h.event)
    ensures Founded(cfg, h, After(cfg, m, h.past.state.memory, h.seen, h.event))
  {
    OldestPlainly(cfg, m.listing.value, h.event.node, h.event.now);
  }

  lemma {:induction false} WeighedAllows(cfg: Config, h: History, c: string, s: LoadGates.Snapshot)
    requires Truthful(h) && WeighedOn(cfg, h, c, s) && LoadGates.DownVerdict(cfg, s, c) == Ok(true)
    ensures SparedByLoads(cfg, h, c)
  {
    if h.event == Weighed(c, s) && LoadsAreSeen(h.past, s, NodesMatter(cfg, s, c)) {
      ListedOnce(h.past);
      ApprovalPlainly(cfg, s, NodesSeen(h.past), c);
    } else {
      WeighedAllows(cfg, h.past, c, s);
    }
  }

  lemma SparedFounded(cfg: Config, h: History, m: Monitor)
    requires Truthful(h) && CanAfford(cfg, m) && LoopFounded(cfg, h, m)
    ensures CapacityToSpare(cfg, h)
  {
    if cfg.loadAverage {
      var c :| c in m.work.eligible && c in m.plan.weighed
               && LoadGates.DownVerdict(cfg, m.plan.weighed[c], c) == Ok(true);
      WeighedAllows(cfg, h, c, m.plan.weighed[c]);
    }
  }

  lemma SparingFounded(cfg: Config, h: History, m: Monitor)
    requires h.Then? && (h.event.Affordable? || h.event.Weighed?) && Truthful(h.past)
    requires Founded(cfg, h.past, m) && Sighted(h.past, m) && Allowed(cfg, m, h.past.state, h.seen, h.event)
    ensures Founded(cfg, h, After(cfg, m, h.past.state.memory, h.seen, h.event))
  {
    StillNeeded(cfg, h, m.plan);
    if h.event.Affordable? {
      SparedFounded(cfg, h.past, m);
    }
  }

  lemma RestFounded(cfg: Config, h: History, m: Monitor)
    requires h.Then? && (StartsLoop(h.event) || h.event.Deciding? || h.event.Filtered? || h.event.Forcing?)
    requires Founded(cfg, h.past, m) && Sighted(h.past, m) && Allowed(cfg, m, h.past.state, h.seen, h.event)
    ensures Founded(cfg, h, After(cfg, m, h.past.state.memory, h.seen, h.event))
  {
    if !StartsLoop(h.event) {
      StillNeeded(cfg, h, m.plan);
      if h.event.Filtered? {
        AvailableAreEligible(cfg, m.listing.value, h.past.state.memory, h.event.now);
      } else if h.event.Forcing? {
        DownPlainly(cfg, m.listing.value);
      }
    }
  }

  lemma {:induction false} AlwaysFounded(cfg: Config, h: History)
    requires Truthful(h) && Justified(cfg, h)
    ensures Founded(cfg, h, Replay(cfg, h))
  {
    if h.Then? {
      AlwaysFounded(cfg, h.past);
      AlwaysSighted(cfg, h.past);
      ListedOnce(h.past);
      StepFounded(cfg, h, Replay(cfg, h.past));
    }
  }

  lemma StepFounded(cfg: Config, h: History, m: Monitor)
    requires h.Then? && Truthful(h.past) && Founded(cfg, h.past, m) && Sighted(h.past, m)
    requires NodesSeen(h.past).Some? ==> NodeLists.DistinctNames(NodesSeen(h.past).value)
    requires Allowed(cfg, m, h.past.state, h.seen, h.event)
    ensures Founded(cfg, h, After(cfg, m, h.past.state.memory, h.seen, h.event))
  {
    if h.event.Called? {
      CallFounded(cfg, h, m);
    } else if Neutral(h.event) {
      NeutralFounded(cfg, h, m);
    } else if h.event.Overdue? {
      DueFounded(cfg, h, m);
    } else if h.event.Affordable? || h.event.Weighed? {
      SparingFounded(cfg, h, m);
    } else if StartsLoop(h.event) || h.event.Deciding? || h.event.Filtered? || h.event.Forcing? {
      RestFounded(cfg, h, m);
    } else {
      FindingFounded(cfg, h, m);
    }
  }

  lemma PowerOnPermitted(cfg: Config, h: History, n: string)
    requires Justified(cfg, h) && h.Then? && h.event.Called? && h.event.call.PowerOn? && h.event.call.name == n
    ensures !cfg.dryRun && MayPowerOn(cfg, Replay(cfg, h.past), n)
  {
  }

  /** A host is powered on only if the strategies of scale-up ask for its node or rotation may take it. With
      forced power-on it is enough that the node was listed as managed and not up. */
  lemma PowerOnWasWanted(cfg: Config, h: History, n: string)
    requires Lawful(h) && Disciplined(cfg, h)
    requires h.Then? && h.event.Called? && h.event.call.PowerOn? && h.event.call.name == n
    ensures !cfg.dryRun
    ensures NeededMost(cfg, h.past, n) || DueAndSpared(cfg, h.past, n) || (cfg.forcePowerOn && ForcedOn(cfg, h.past, n))
  {
    Open(cfg, h);
    PowerOnPermitted(cfg, h, n);
    AlwaysFounded(cfg, h.past);
    if cfg.forcePowerOn && Replay(cfg, h.past).plan.forced.Some? {
      DownPlainly(cfg, Replay(cfg, h.past).plan.forced.value);
    }
  }

  // ----- Where it is woken

  /** In this loop the node was read, alone or in a listing, with this address under this annotation. */
  ghost predicate ReadWith(h: History, n: string, key: string, mac: Value) {
    && h.Then? && !StartsLoop(h.event)
    && (|| (&& h.event.Called? && h.event.call == GetNode(n) && h.event.reply.One?
            && h.event.reply.node.name == n && ShowsValue(h.event.reply.node, key, mac))
        || (&& h.event.Called? && h.event.call.ListNodes? && h.event.reply.Nodes?
            && exists x :: x in h.event.reply.nodes && x.name == n && ShowsValue(x, key, mac))
        || ReadWith(h.past, n, key, mac))
  }

  predicate ShowsValue(x: Node, key: string, value: Value) {
    key in x.annotations && x.annotations[key] == value
  }

  lemma {:induction false} MetWasRead(h: History, x: Node, key: string, mac: Value)
    requires Truthful(h) && x in NodesMet(h) && ShowsValue(x, key, mac)
    ensures ReadWith(h, x.name, key, mac)
  {
    if x in NodesIn(h.event) {
      ReadNow(h, x, key, mac);
    } else {
      MetWasRead(h.past, x, key, mac);
    }
  }

  lemma ReadNow(h: History, x: Node, key: string, mac: Value)
    requires Truthful(h) && h.Then? && !StartsLoop(h.event) && x in NodesIn(h.event) && ShowsValue(x, key, mac)
    ensures ReadWith(h, x.name, key, mac)
  {
  }

  /** A host is woken at no other address than the one that its node, as read in this loop, carries under the
      configured annotation, or under that of discovered addresses if none is configured. */
  lemma WokenWhereItSays(cfg: Config, h: History, n: string, mac: Value)
    requires Lawful(h) && Disciplined(cfg, h)
    requires h.Then? && h.event.Called? && h.event.call == PowerOn(n, mac)
    ensures mac != Text("")
    ensures ReadWith(h.past, n, if cfg.macKey == "" then "cba.dev/mac-address" else cfg.macKey, mac)
  {
    Open(cfg, h);
    var x :| x in NodesMet(h.past) && x.name == n && Carries(cfg, x, mac);
    MetWasRead(h.past, x, if cfg.macKey == "" then MAC_AUTO else cfg.macKey, mac);
  }
}
