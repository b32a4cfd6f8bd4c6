/** The autoscaler keeps the minimum number of nodes in service, as far as it is up to it. */
module MinimumService {
  import opened Prelude
  import opened Clock
  import opened Cluster
  import opened Settings
  import opened Journal
  import opened ShutdownOrder
  import Resources

  /** Since the loop began other parties took no node out of service. */
  ghost predicate OthersKeepService(cfg: Config, h: History) {
    match h
    case Start(_) => true
    case Then(past, seen, e, _) =>
      || StartsLoop(e)
      || (OthersKeepService(cfg, past) && ServiceNames(cfg, past.state.world) <= ServiceNames(cfg, seen))
  }

  /** The present step does not bring the number of nodes in service below the minimum, nor lower it at
      all where it is at the minimum or below. */
  ghost predicate MinimumKept(cfg: Config, pre: World, post: World) {
    |ServiceNames(cfg, post)| >= Min(|ServiceNames(cfg, pre)|, cfg.minNodes)
  }

  predicate Committed(s: Stage) {
    s.Cordoned? || s.Emptied? || s.Unmounted? || s.Detached? || s.Marked?
  }

  /** More than the minimum of nodes were eligible, and all but the candidate are in service. */
  ghost predicate Spare(cfg: Config, w: World, m: Monitor) {
    && (m.listing.Some? ==>
          forall x | x in m.listing.value && InService(cfg, x) :: x.name in ServiceNames(cfg, w))
    && (m.stage.Idle? || m.stage.Vetting? ==> m.work.eligible <= ServiceNames(cfg, w))
    && (m.stage.Vetting? || Committed(m.stage) ==>
          && m.stage.name in m.work.eligible && |m.work.eligible| > cfg.minNodes
          && m.work.eligible - {m.stage.name} <= ServiceNames(cfg, w))
  }

  lemma OutsideSpares(cfg: Config, pre: World, post: World, m: Monitor)
    requires Spare(cfg, pre, m) && ServiceNames(cfg, pre) <= ServiceNames(cfg, post)
    ensures Spare(cfg, post, m)
  {
  }

  /** The write takes a node out of service that is in it. */
  predicate TakesOut(cfg: Config, seen: World, e: Event) {
    Write(e) && match e.call
      case UpdateNode(node) => node.unschedulable && node.name in ServiceNames(cfg, seen)
      case PatchNode(n, patch) => SetsMark(patch) && n in ServiceNames(cfg, seen)
      case _ => false
  }

  function Written(call: Call): string {
    match call
    case UpdateNode(node) => node.name
    case PatchNode(n, _) => n
    case _ => ""
  }

  /** A write moves at most the node it names, and only a cordon or a mark takes it out of service. */
  lemma WriteService(cfg: Config, h: History, m: Monitor)
    requires h.Then? && Write(h.event) && WellFormed(h.seen)
    requires StepTruthful(h.past.state.memory, h.seen, h.event, h.state)
    requires CallAllowed(cfg, m, h.past.state.world.clock, h.seen, h.event.call, h.event.reply)
    ensures var n, pre, post := Written(h.event.call), ServiceNames(cfg, h.seen), ServiceNames(cfg, h.state.world);
            if TakesOut(cfg, h.seen, h.event) then n in pre && post == pre - {n} else pre <= post
  {
    var n := Written(h.event.call);
    forall x | x in h.seen.nodes && x != n
      ensures x in h.state.world.nodes && h.state.world.nodes[x] == h.seen.nodes[x] {
    }
    assert h.state.world.nodes.Keys == h.seen.nodes.Keys;
    assert h.state.world.nodes[n].labels == h.seen.nodes[n].labels;
    assert Managed(cfg, h.state.world.nodes[n]) == Managed(cfg, h.seen.nodes[n]);
  }

  /** A node is taken out of service only from among more than the minimum. */
  lemma SpareWhenTaken(cfg: Config, h: History, m: Monitor)
    requires h.Then? && TakesOut(cfg, h.seen, h.event) && Spare(cfg, h.seen, m)
    requires CallAllowed(cfg, m, h.past.state.world.clock, h.seen, h.event.call, h.event.reply)
    ensures (m.stage.Vetting? || Committed(m.stage)) && m.stage.name == Written(h.event.call)
    ensures |ServiceNames(cfg, h.seen)| > cfg.minNodes
  {
    SubsetCardinality(m.work.eligible, ServiceNames(cfg, h.seen));
  }

  lemma CallSpares(cfg: Config, h: History, m: Monitor)
    requires h.Then? && h.event.Called? && WellFormed(h.seen) && Spare(cfg, h.seen, m)
    requires StepTruthful(h.past.state.memory, h.seen, h.event, h.state)
    requires CallAllowed(cfg, m, h.past.state.world.clock, h.seen, h.event.call, h.event.reply)
    ensures Spare(cfg, h.state.world, AfterCall(m, h.event.call, h.event.reply))
  {
    if Write(h.event) {
      WriteService(cfg, h, m);
      if TakesOut(cfg, h.seen, h.event) {
        SpareWhenTaken(cfg, h, m);
      }
      WriteSpares(cfg, h, m);
    } else {
      ReadSpares(cfg, h, m);
    }
  }

  lemma ReadSpares(cfg: Config, h: History, m: Monitor)
    requires h.Then? && h.event.Called? && !Write(h.event) && Spare(cfg, h.seen, m)
    requires StepTruthful(h.past.state.memory, h.seen, h.event, h.state)
    ensures Spare(cfg, h.state.world, AfterCall(m, h.event.call, h.event.reply))
  {
    assert h.state.world.nodes == h.seen.nodes;
    assert ServiceNames(cfg, h.state.world) == ServiceNames(cfg, h.seen);
  }

  lemma WriteSpares(cfg: Config, h: History, m: Monitor)
    requires h.Then? && Write(h.event) && Spare(cfg, h.seen, m)
    requires var n, pre, post := Written(h.event.call), ServiceNames(cfg, h.seen), ServiceNames(cfg, h.state.world);
             if TakesOut(cfg, h.seen, h.event) then
               post == pre - {n} && (m.stage.Vetting? || Committed(m.stage)) && m.stage.name == n
             else pre <= post
    requires CallAllowed(cfg, m, h.past.state.world.clock, h.seen, h.event.call, h.event.reply)
    ensures Spare(cfg, h.state.world, AfterCall(m, h.event.call, h.event.reply))
  {
  }

  lemma FilterSpares(cfg: Config, w: World, nodes: seq<Node>, memory: Memory, now: Time)
    requires forall x | x in nodes && InService(cfg, x) :: x.name in ServiceNames(cfg, w)
    ensures EligibleNames(cfg, nodes, memory, now) <= ServiceNames(cfg, w)
  {
  }

  lemma OtherSpares(cfg: Config, w: World, m: Monitor, memory: Memory, e: Event)
    requires !e.Called? && !StartsLoop(e) && !e.Filtered? && !e.Chosen? && Spare(cfg, w, m)
    requires e.Verdict? ==> m.stage.Vetting? && m.stage.name == e.name
    ensures Spare(cfg, w, After(cfg, m, memory, w, e))
  {
  }

  lemma NoteSpares(cfg: Config, h: History, m: Monitor)
    requires h.Then? && !h.event.Called? && !StartsLoop(h.event) && Spare(cfg, h.seen, m)
    requires StepTruthful(h.past.state.memory, h.seen, h.event, h.state)
    requires Allowed(cfg, m, h.past.state, h.seen, h.event)
    ensures Spare(cfg, h.state.world, After(cfg, m, h.past.state.memory, h.seen, h.event))
  {
    assert h.state.world == h.seen;
    if h.event.Filtered? {
      FilterSpares(cfg, h.seen, m.listing.value, h.past.state.memory, h.event.now);
    } else if !h.event.Chosen? {
      OtherSpares(cfg, h.seen, m, h.past.state.memory, h.event);
    }
  }

  lemma {:induction false} AlwaysSpare(cfg: Config, h: History)
    requires Truthful(h) && Justified(cfg, h) && OthersKeepService(cfg, h)
    ensures Spare(cfg, h.state.world, Replay(cfg, h))
  {
    if h.Then? && !StartsLoop(h.event) {
      AlwaysSpare(cfg, h.past);
      var m := Replay(cfg, h.past);
      OutsideSpares(cfg, h.past.state.world, h.seen, m);
      if h.event.Called? {
        CallSpares(cfg, h, m);
      } else {
        NoteSpares(cfg, h, m);
      }
    }
  }

  /** No step of the autoscaler - in a shutdown that succeeds, one that fails half-way, a rollback, a
      recovery, a power-on - brings the nodes in service below the minimum. */
  lemma ServiceNeverDropsBelowMinimum(cfg: Config, h: History)
    requires Truthful(h) && Justified(cfg, h) && OthersKeepService(cfg, h)
    requires h.Then? && h.event.Called?
    ensures MinimumKept(cfg, h.seen, h.state.world)
  {
    var m := Replay(cfg, h.past);
    if Write(h.event) {
      WriteService(cfg, h, m);
      if TakesOut(cfg, h.seen, h.event) {
        AlwaysSpare(cfg, h.past);
        OutsideSpares(cfg, h.past.state.world, h.seen, m);
        SpareWhenTaken(cfg, h, m);
      } else {
        SubsetCardinality(ServiceNames(cfg, h.seen), ServiceNames(cfg, h.state.world));
      }
    } else {
      assert h.state.world.nodes == h.seen.nodes;
    }
  }

  /** Whatever other parties do, a step fails to keep the minimum exactly when it takes a node out of
      service while no more than the minimum are in it. */
  lemma MinimumKeptExactly(cfg: Config, h: History)
    requires Lawful(h) && Disciplined(cfg, h) && h.Then? && h.event.Called?
    ensures MinimumKept(cfg, h.seen, h.state.world)
            <==> !(TakesOut(cfg, h.seen, h.event) && |ServiceNames(cfg, h.seen)| <= cfg.minNodes)
  {
    Open(cfg, h);
    if Write(h.event) {
      WriteService(cfg, h, Replay(cfg, h.past));
      if !TakesOut(cfg, h.seen, h.event) {
        SubsetCardinality(ServiceNames(cfg, h.seen), ServiceNames(cfg, h.state.world));
      }
    } else {
      assert h.state.world.nodes == h.seen.nodes;
    }
  }

  // ----- The step that can fail

  lemma OneMore(cfg: Config, past: History, m: Monitor, seen: World, e: Event, post: World)
    requires Truthful(past) && Justified(cfg, past) && Replay(cfg, past) == m && WellFormed(post)
    requires Outside(past.state.world, seen)
    requires StepTruthful(past.state.memory, seen, e, State(post, past.state.memory))
    requires Allowed(cfg, m, past.state, seen, e) && Informed(cfg, m, NodesMet(past), e)
    ensures var h := Then(past, seen, e, State(post, past.state.memory));
            Truthful(h) && Justified(cfg, h) && Replay(cfg, h) == After(cfg, m, past.state.memory, seen, e)
  {
  }

  /** Two nodes in service, one of which is the minimum; nothing runs, and that fits on the second node. */
  predicate Race(cfg: Config, w: World, a: Node, b: Node) {
    && WellFormed(w) && w.nodes == map[a.name := a, b.name := b] && a.name != b.name
    && InService(cfg, a) && InService(cfg, b) && BOOTED_AT !in a.annotations && BOOTED_AT !in b.annotations
    && cfg.minNodes == 1 && !cfg.dryRun && !cfg.loadAverage
    && w.pods == {} && Resources.Fits(Resources.ZERO, Resources.Wrapped(b.allocatable), BuffersOf(cfg))
  }

  ghost predicate JustPicked(m: Monitor, w: World, a: Node) {
    && m.loop == Fresh(Background, w).loop.(candidate := Candidate(a.name, w, false, false))
    && m.face == Some(FaceOf(a))
  }

  function IdleUsage(a: Node, b: Node): map<string, Resources.Amount> {
    map[a.name := Resources.ZERO, b.name := Resources.ZERO]
  }

  function IdleFigures(a: Node, b: Node): Evidence {
    ResourceFigures([a, b], [], IdleUsage(a, b))
  }

  lemma VerdictAllowed(cfg: Config, m: Monitor, now: State, n: string, e: Evidence)
    requires m.stage == Vetting(n, 0) && e.ResourceFigures? && EvidenceRead(cfg, m, e, n) && Approves(cfg, e, n)
    ensures Allowed(cfg, m, now, now.world, Verdict(n, e, true))
  {
  }

  /** The figures read for a, on which the gate approves. */
  lemma ReadApproved(cfg: Config, w: World, a: Node, b: Node) returns (h: History, e: Evidence)
    requires Race(cfg, w, a, b)
    ensures Asking(cfg, h, w, a) && e.ResourceFigures?
    ensures EvidenceRead(cfg, Replay(cfg, h), e, a.name) && Approves(cfg, e, a.name)
  {
    h := ReadFigures(cfg, w, a, b);
    e := IdleFigures(a, b);
    IdleApproves(cfg, w, a, b);
  }

  lemma VerdictPasses(cfg: Config, m: Monitor, now: State, n: string, e: Evidence)
    requires m.stage == Vetting(n, 0) && !cfg.loadAverage
    ensures After(cfg, m, now.memory, now.world, Verdict(n, e, true)) == m.(stage := Vetting(n, |Chain(cfg)|))
  {
  }

  /** The only gate approves. */
  lemma ApproveOnce(cfg: Config, past: History, n: string, e: Evidence) returns (h: History)
    requires Truthful(past) && Justified(cfg, past) && WellFormed(past.state.world)
    requires Replay(cfg, past).stage == Vetting(n, 0) && !cfg.loadAverage && e.ResourceFigures?
    requires EvidenceRead(cfg, Replay(cfg, past), e, n) && Approves(cfg, e, n)
    ensures Truthful(h) && Justified(cfg, h) && h.state == past.state
    ensures Replay(cfg, h) == Replay(cfg, past).(stage := Vetting(n, |Chain(cfg)|))
    ensures forall x | LeftAlone(past, x) :: LeftAlone(h, x)
  {
    VerdictAllowed(cfg, Replay(cfg, past), past.state, n, e);
    VerdictPasses(cfg, Replay(cfg, past), past.state, n, e);
    h := NoteMore(cfg, past, Verdict(n, e, true));
  }

  /** A loop that picks a, up to its last gate. */
  lemma PickOneOfTwo(cfg: Config, w: World, a: Node, b: Node) returns (h: History)
    requires Race(cfg, w, a, b)
    ensures Truthful(h) && Justified(cfg, h) && Replay(cfg, h).stage == Vetting(a.name, |Chain(cfg)|)
    ensures h.state == State(w, BLANK) && LeftAlone(h, a.name) && JustPicked(Replay(cfg, h), w, a)
  {
    var e;
    h, e := ReadApproved(cfg, w, a, b);
    h := ApproveOnce(cfg, h, a.name, e);
  }

  /** The end of a drain that starts in this world. */
  function DrainEnd(cfg: Config, w: World): Time {
    w.clock + DrainTime(cfg)
  }

  /** The drain of a has started, and has seen that no pod blocks it. */
  ghost predicate Screening(cfg: Config, h: History, w: World, a: Node, screened: bool) {
    && Truthful(h) && Justified(cfg, h) && Replay(cfg, h).stage == Vetting(a.name, |Chain(cfg)|)
    && h.state == State(w, BLANK) && LeftAlone(h, a.name) && Replay(cfg, h).face == Some(FaceOf(a))
    && Replay(cfg, h).loop == Fresh(Background, w).loop.(candidate := Candidate(a.name, w, false, false),
                                                         drain := DrainUntil(DrainEnd(cfg, w), screened))
  }

  lemma DrainStartPasses(cfg: Config, m: Monitor, now: State, n: string)
    requires m.stage == Vetting(n, |Chain(cfg)|) && m.loop.candidate.name == n && m.loop.drain.NoDrain?
    ensures Allowed(cfg, m, now, now.world, DrainStarts(n))
    ensures After(cfg, m, now.memory, now.world, DrainStarts(n))
            == m.(loop := m.loop.(drain := DrainUntil(DrainEnd(cfg, now.world), false)))
  {
  }

  lemma StartOne(cfg: Config, w: World, a: Node, b: Node) returns (h: History)
    requires Race(cfg, w, a, b)
    ensures Screening(cfg, h, w, a, false)
  {
    h := PickOneOfTwo(cfg, w, a, b);
    DrainStartPasses(cfg, Replay(cfg, h), h.state, a.name);
    h := NoteMore(cfg, h, DrainStarts(a.name));
  }

  lemma ScreenPasses(cfg: Config, m: Monitor, now: State, n: string)
    requires m.stage == Vetting(n, |Chain(cfg)|) && m.loop.ctx == Background && m.loop.candidate.name == n
    requires m.loop.drain == DrainUntil(DrainEnd(cfg, now.world), false)
    ensures var call := ListPods(n);
            && Allowed(cfg, m, now, now.world, Called(Deadline(DrainEnd(cfg, now.world)), call, Pods([])))
            && AfterCall(m, call, Pods([]))
               == m.(pods := [], attempted := {}, loop := m.loop.(drain := m.loop.drain.(screened := true)))
  {
  }

  lemma ScreenOne(cfg: Config, w: World, a: Node, b: Node) returns (h: History)
    requires Race(cfg, w, a, b)
    ensures Screening(cfg, h, w, a, true)
  {
    var past := StartOne(cfg, w, a, b);
    var e := Called(Deadline(DrainEnd(cfg, w)), ListPods(a.name), Pods([]));
    ScreenPasses(cfg, Replay(cfg, past), past.state, a.name);
    OneMore(cfg, past, Replay(cfg, past), w, e, w);
    h := Then(past, w, e, past.state);
  }

  /** Left with b alone when a is removed. */
  lemma RestOfPair(nodes: seq<Resources.Capacity>)
    requires |nodes| == 2 && nodes[0].name != nodes[1].name
    ensures Resources.Rest(nodes, nodes[0].name) == nodes[1].allocatable
  {
    var n, one := nodes[0].name, nodes[..1];
    assert one[|one| - 1] == nodes[0] && one[..|one| - 1] == [];
    assert Resources.Rest(one, n) == Resources.ZERO;
  }

  lemma UsageOfPair(nodes: seq<Resources.Capacity>, usage: map<string, Resources.Amount>)
    requires |nodes| == 2 && nodes[0].name != nodes[1].name
    requires nodes[1].name in usage && usage[nodes[1].name] == Resources.ZERO
    ensures Resources.RestUsage(nodes, usage, nodes[0].name) == Resources.ZERO
  {
    var n, one := nodes[0].name, nodes[..1];
    assert one[|one| - 1] == nodes[0] && one[..|one| - 1] == [];
    assert Resources.RestUsage(one, usage, n) == Resources.ZERO;
  }

  lemma NothingFits(b: Resources.Capacity, buffers: Resources.Buffers, requested: Resources.Amount,
                     used: Resources.Amount)
    requires Resources.Fits(Resources.ZERO, Resources.Wrapped(b.allocatable), buffers)
    requires requested == Resources.ZERO && used == Resources.ZERO
    ensures Resources.Fits(Resources.Wrapped(requested), Resources.Wrapped(b.allocatable), buffers)
    ensures Resources.Fits(Resources.WrapPlus(used, Resources.ZERO), Resources.Wrapped(b.allocatable), buffers)
  {
    assert Resources.Wrapped(Resources.ZERO) == Resources.ZERO;
  }

  lemma IdleFits(a: Resources.Capacity, b: Resources.Capacity, buffers: Resources.Buffers)
    requires a.name != b.name && Resources.Fits(Resources.ZERO, Resources.Wrapped(b.allocatable), buffers)
    ensures var usage := map[a.name := Resources.ZERO, b.name := Resources.ZERO];
            Resources.Approves(Resources.Snapshot([a, b], [], usage), buffers, a.name)
  {
    var usage := map[a.name := Resources.ZERO, b.name := Resources.ZERO];
    RestOfPair([a, b]);
    UsageOfPair([a, b], usage);
    NothingFits(b, buffers, Resources.ZERO, Resources.ZERO);
    assert Resources.OwnUsage([a, b], usage, a.name) == Resources.ZERO;
  }

  /** Removing a is approved: all that is asked of b is nothing. */
  lemma IdleApproves(cfg: Config, w: World, a: Node, b: Node)
    requires Race(cfg, w, a, b)
    ensures Approves(cfg, IdleFigures(a, b), a.name)
  {
    var c, d := Resources.Capacity(a.name, a.allocatable), Resources.Capacity(b.name, b.allocatable);
    assert CapacitiesOf([a, b]) == [c, d] && RequestsOf([]) == [];
    IdleFits(c, d, BuffersOf(cfg));
  }

  /** A reading in an undisturbed cluster. */
  lemma ReadMore(cfg: Config, past: History, call: Call, reply: Reply) returns (h: History)
    requires Truthful(past) && Justified(cfg, past) && WellFormed(past.state.world)
    requires call.ListNodes? || call.ListAllPods? || call.ListUsage?
    requires MayCall(Replay(cfg, past), Background) && Answers(past.state.world, call, reply, past.state.world)
    ensures Truthful(h) && Justified(cfg, h) && h.state == past.state
    ensures Replay(cfg, h) == AfterCall(Replay(cfg, past), call, reply)
    ensures forall n | LeftAlone(past, n) :: LeftAlone(h, n)
  {
    var e := Called(Background, call, reply);
    h := Then(past, past.state.world, e, past.state);
    OneMore(cfg, past, Replay(cfg, past), past.state.world, e, past.state.world);
  }

  /** The loop has picked a, and is about to ask the first gate. */
  ghost predicate Asking(cfg: Config, h: History, w: World, a: Node) {
    && Truthful(h) && Justified(cfg, h) && Replay(cfg, h).stage == Vetting(a.name, 0)
    && h.state == State(w, BLANK) && LeftAlone(h, a.name) && JustPicked(Replay(cfg, h), w, a)
  }

  /** A note in an undisturbed cluster. */
  lemma NoteMore(cfg: Config, past: History, e: Event) returns (h: History)
    requires Truthful(past) && Justified(cfg, past) && WellFormed(past.state.world)
    requires !e.Called? && !e.Noted? && !StartsLoop(e)
    requires Allowed(cfg, Replay(cfg, past), past.state, past.state.world, e)
    ensures Truthful(h) && Justified(cfg, h) && h.state == past.state
    ensures Replay(cfg, h) == After(cfg, Replay(cfg, past), past.state.memory, past.state.world, e)
    ensures forall n | LeftAlone(past, n) :: LeftAlone(h, n)
  {
    h := Then(past, past.state.world, e, past.state);
    OneMore(cfg, past, Replay(cfg, past), past.state.world, e, past.state.world);
  }

  /** The gate's figures are read. */
  lemma ReadFigures(cfg: Config, w: World, a: Node, b: Node) returns (h: History)
    requires Race(cfg, w, a, b)
    ensures Asking(cfg, h, w, a) && EvidenceRead(cfg, Replay(cfg, h), IdleFigures(a, b), a.name)
  {
    h := ReadPods(cfg, w, a, b);
    h := ReadMore(cfg, h, ListUsage, Usages(IdleUsage(a, b)));
  }

  lemma ReadPods(cfg: Config, w: World, a: Node, b: Node) returns (h: History)
    requires Race(cfg, w, a, b)
    ensures Asking(cfg, h, w, a)
    ensures Replay(cfg, h).listing == Some([a, b]) && Replay(cfg, h).readings.census == Some([])
  {
    h := ReadNodes(cfg, w, a, b);
    h := ReadMore(cfg, h, ListAllPods, Pods([]));
  }

  lemma ReadNodes(cfg: Config, w: World, a: Node, b: Node) returns (h: History)
    requires Race(cfg, w, a, b)
    ensures Asking(cfg, h, w, a) && Replay(cfg, h).listing == Some([a, b])
  {
    h := ChooseOne(cfg, w, a, b);
    assert IsListing([a, b], w);
    h := ReadMore(cfg, h, ListNodes, Nodes([a, b]));
  }

  lemma ChoiceAllowed(cfg: Config, m: Monitor, now: State, n: string)
    requires m.stage == Idle && n in m.work.eligible && |m.work.eligible| > cfg.minNodes && m.loop.drain.NoDrain?
    ensures Allowed(cfg, m, now, now.world, Chosen(n))
    ensures var k := After(cfg, m, now.memory, now.world, Chosen(n));
            && k.stage == Vetting(n, 0) && k.face == FaceIn(now.world, n)
            && k.loop == m.loop.(candidate := Candidate(n, now.world, false, false), retracted := false)
  {
  }

  lemma FilterPasses(cfg: Config, m: Monitor, now: State, nodes: seq<Node>)
    requires m.listing == Some(nodes)
    ensures Allowed(cfg, m, now, now.world, Filtered(now.world.clock))
    ensures var k := After(cfg, m, now.memory, now.world, Filtered(now.world.clock));
            && k.stage == Idle && k.loop == m.loop
            && k.work.eligible == EligibleNames(cfg, nodes, now.memory, now.world.clock)
  {
  }

  lemma ChooseOne(cfg: Config, w: World, a: Node, b: Node) returns (h: History)
    requires Race(cfg, w, a, b)
    ensures Asking(cfg, h, w, a)
  {
    h := FilterBoth(cfg, w, a, b);
    assert |{a.name, b.name}| == 2;
    ChoiceAllowed(cfg, Replay(cfg, h), h.state, a.name);
    h := NoteMore(cfg, h, Chosen(a.name));
  }

  lemma FilterBoth(cfg: Config, w: World, a: Node, b: Node) returns (h: History)
    requires Race(cfg, w, a, b)
    ensures Truthful(h) && Justified(cfg, h) && h.state == State(w, BLANK)
    ensures Replay(cfg, h).stage == Idle && Replay(cfg, h).work.eligible == {a.name, b.name}
    ensures LeftAlone(h, a.name) && Replay(cfg, h).loop == Fresh(Background, w).loop
  {
    h := ListBoth(cfg, w, a, b);
    BothEligible(cfg, w, a, b);
    FilterPasses(cfg, Replay(cfg, h), h.state, [a, b]);
    h := NoteMore(cfg, h, Filtered(w.clock));
  }

  lemma BothEligible(cfg: Config, w: World, a: Node, b: Node)
    requires Race(cfg, w, a, b)
    ensures EligibleNames(cfg, [a, b], BLANK, w.clock) == {a.name, b.name}
  {
    ManagedIsNeverIgnored(cfg, a);
    ManagedIsNeverIgnored(cfg, b);
    assert [a, b][0] == a && [a, b][1] == b;
  }

  lemma ListBoth(cfg: Config, w: World, a: Node, b: Node) returns (h: History)
    requires Race(cfg, w, a, b)
    ensures Truthful(h) && Justified(cfg, h) && h.state == State(w, BLANK)
    ensures Replay(cfg, h).listing == Some([a, b]) && Replay(cfg, h).stage == Idle
    ensures LeftAlone(h, a.name) && Replay(cfg, h).loop == Fresh(Background, w).loop
  {
    h := Start(State(w, BLANK));
    OneMore(cfg, h, Replay(cfg, h), w, Begin(Background), w);
    h := Then(h, w, Begin(Background), h.state);
    var e := Called(Background, ListNodes, Nodes([a, b]));
    assert IsListing([a, b], w);
    OneMore(cfg, h, Replay(cfg, h), w, e, w);
    h := Then(h, w, e, h.state);
  }

  /** Without the assumption about other parties it does fail: somebody cordons b after the autoscaler has
      listed both nodes and before it cordons a, and none is left in service. */
  lemma OthersCanSpoilTheMinimum(cfg: Config, w: World, a: Node, b: Node) returns (h: History)
    requires Race(cfg, w, a, b)
    ensures Truthful(h) && Justified(cfg, h) && h.Then? && h.event.Called?
    ensures !MinimumKept(cfg, h.seen, h.state.world)
  {
    var past := ScreenOne(cfg, w, a, b);
    var seen, post := Spoiled(w, b), Emptied(w, a, b);
    var e := Called(Deadline(DrainEnd(cfg, w)), UpdateNode(a.(unschedulable := true)), Done);
    SpoiledService(cfg, w, a, b);
    CordonAllowed(cfg, Replay(cfg, past), past.state, seen, a);
    OneMore(cfg, past, Replay(cfg, past), seen, e, post);
    h := Then(past, seen, e, State(post, BLANK));
  }

  lemma CordonAllowed(cfg: Config, m: Monitor, now: State, seen: World, a: Node)
    requires !cfg.dryRun && m.stage == Vetting(a.name, |Chain(cfg)|) && m.loop.ctx == Background
    requires m.loop.drain == DrainUntil(DrainEnd(cfg, now.world), true)
    requires a.name in seen.nodes && seen.nodes[a.name] == a
    ensures var ctx, cordon := Deadline(DrainEnd(cfg, now.world)), UpdateNode(a.(unschedulable := true));
            Allowed(cfg, m, now, seen, Called(ctx, cordon, Done))
  {
  }

  /** Somebody has cordoned b. */
  function Spoiled(w: World, b: Node): World {
    Put(w, b.(unschedulable := true))
  }

  /** And the autoscaler a. */
  function Emptied(w: World, a: Node, b: Node): World {
    Put(Spoiled(w, b), a.(unschedulable := true))
  }

  lemma SpoiledService(cfg: Config, w: World, a: Node, b: Node)
    requires Race(cfg, w, a, b)
    ensures var seen, post := Spoiled(w, b), Emptied(w, a, b);
            && Outside(w, seen) && WellFormed(post) && a.name in seen.nodes && seen.nodes[a.name] == a
            && !MinimumKept(cfg, seen, post)
  {
    var seen, post := Spoiled(w, b), Emptied(w, a, b);
    assert Managed(cfg, seen.nodes[b.name]) && Managed(cfg, post.nodes[b.name]) && Managed(cfg, post.nodes[a.name]);
    assert ServiceNames(cfg, seen) == {a.name};
    assert ServiceNames(cfg, post) == {};
  }
}
