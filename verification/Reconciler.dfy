/** The reconcile loop. */
module Reconciler {
  import opened Prelude
  import opened Clock
  import opened Cluster
  import opened Settings
  import opened Journal
  import opened ApiServer
  import opened Scheduling
  import opened Tracker
  import opened NodeLists
  import opened Power
  import opened ScaleUp
  import opened Rollback
  import ShutdownGrounds
  import Gauges
  import LoadGates
  import Recovery
  import Drain
  import Rotation

  const SHUTDOWN_TIMEOUT: Duration := 30 * SECOND

  /** A candidate has passed every gate. */
  ghost predicate Approved(cfg: Config, m: Monitor, n: string) {
    m.stage == Vetting(n, |Chain(cfg)|) && m.loop.candidate.name == n && m.loop.drain.NoDrain?
  }

  /** Everything a rollback can still find to undo about n. */
  ghost predicate UnderWay(cfg: Config, m: Monitor, n: string) {
    && m.loop.candidate.name == n && m.loop.drain.NoDrain?
    && (m.stage in {Vetting(n, |Chain(cfg)|), Marked(n)} || Draining(m.stage, n))
  }

  /** What a power-on that is done, or that came to nothing, makes of the memory. */
  ghost predicate PoweredOn(cfg: Config, before: Memory, after: Memory, n: string, done: bool, from: Time, to: Time) {
    if !done then after == before
    else if cfg.dryRun then after == Remember(before, NotOff(n))
    else RemembersBoot(before, after, n, from, to) && after.off == before.off - {n}
  }

  /** A power-on of n that began at h0 is done at h, and has left the node back in service unless somebody
      else edited it; or it has come to nothing. */
  ghost predicate TakenUp(cfg: Config, h0: History, h: History, n: string, done: bool) {
    && PoweredOn(cfg, h0.state.memory, h.state.memory, n, done, h0.state.world.clock, h.state.world.clock)
    && (done && !cfg.dryRun && Undisturbed(h, n) ==>
          FreshlyBooted(FaceIn(h.state.world, n), h0.state.world.clock, h.state.world.clock))
  }

  lemma TakenUpSince(cfg: Config, h0: History, h1: History, h: History, n: string, done: bool)
    requires h1.state.memory == h0.state.memory && h0.state.world.clock <= h1.state.world.clock
    requires TakenUp(cfg, h1, h, n, done)
    ensures TakenUp(cfg, h0, h, n, done)
  {
  }

  /** The scale-up strategies have asked for n, the node off the longest, because more nodes are needed. */
  ghost predicate AskedFor(cfg: Config, p: Plan, n: string) {
    p.asked == Some(n) && p.head == Longest(n) && MoreNeeded(cfg, p)
  }

  /** The node is on the server, and says no address to wake it at. */
  ghost predicate NoAddress(cfg: Config, w: World, n: string) {
    n in w.nodes && Unaddressed(cfg, w.nodes[n])
  }

  /** A scale-up that began at h0 has ended at h: a node asked for is powered on; or the strategies
      decline, a call was refused, or the node has no address. */
  ghost predicate ScaledUpBetween(cfg: Config, h0: History, h: History, done: bool, n: string) {
    var p := Watch(cfg, h).plan;
    && TakenUp(cfg, h0, h, n, done)
    && (if done then AskedFor(cfg, p, n)
        else Declined(cfg, p, h0, h) || (AskedFor(cfg, p, n) && NoAddress(cfg, h.state.world, n)))
  }

  /** The memory has a new operation and shutdown of n, and n counts as off. */
  ghost predicate RemembersShutdown(before: Memory, after: Memory, n: string, from: Time, to: Time) {
    && after.bootedAt == before.bootedAt && after.off == before.off + {n}
    && n in after.shutdownAt && after.shutdownAt == before.shutdownAt[n := after.shutdownAt[n]]
    && from <= after.lastOperation <= after.shutdownAt[n] <= to
  }

  /** Names of the managed nodes of a listing that are up and not marked off. */
  ghost function UpUnmarked(cfg: Config, listing: seq<Node>): set<string> {
    set x | x in listing && Managed(cfg, x) && x.ready && PoweredOffSince(x).None? :: x.name
  }

  /** Names of the managed nodes that the last listing has and the first had not. */
  ghost function Appeared(cfg: Config, first: seq<Node>, last: seq<Node>): set<string> {
    set x | x in last && Managed(cfg, x) && (forall y | y in first :: y.name != x.name) :: x.name
  }

  /** The last listing has no node due for rotation at that time. */
  ghost predicate NothingDue(cfg: Config, m: Monitor, now: Time) {
    m.listing.Some? && forall x | x in m.listing.value :: !Overduely(cfg, x, now)
  }

  /** Since the node was found due: with it not more than the minimum could be shut down, or none of those
      can be let go. The search, in some order, looked at all of them, or ended at one without which the
      cluster is too busy. */
  ghost predicate NoSpare(cfg: Config, m: Monitor) {
    && m.plan.sized
    && (|| |m.work.eligible| + 1 <= cfg.minNodes
        || exists order :: Distinct(order) && Elements(order) == m.work.eligible
             && (order == [] || (cfg.loadAverage && Gauges.SearchFailed(cfg, m.plan.weighed, order, true))))
  }

  /** Nothing is remembered, and the candidate, if it was touched, has been put back or an alarm raised. */
  ghost predicate NotShutDown(m: Monitor, k: Monitor, w: World) {
    && k.loop == m.loop.(candidate := k.loop.candidate, alarmed := k.loop.alarmed, retracted := k.loop.retracted)
    && k.plan.decided == m.plan.decided && k.work.operations == m.work.operations && k.work.owed == m.work.owed
    && (k.stage == Idle || k.stage.Vetting? || k.stage.RollingBack?)
    && (k.stage.RollingBack? && !k.loop.alarmed ==> PutBack(k, w, k.stage.name))
  }

  /** Where a reconcile loop ended. */
  datatype Stop =
    | Unrecovered   // nodes could not be listed for recovery
    | Unswept       // nor to reconcile the memory
    | Forced        // all nodes were to be powered on
    | CoolingDown
    | ScaledUp
    | Unlisted      // nodes could not be listed for scale-down
    | Panicked      // the last of no eligible nodes was to be taken
    | ScaledDown
    | Rotated
    | Rested        // nothing was to be done

  /** A loop ends without an error even where nodes to recover could not be listed. */
  datatype End = Fine | Error | Panic

  function EndOf(stop: Stop): End {
    match stop
    case Unswept => Error
    case Unlisted => Error
    case Panicked => Panic
    case _ => Fine
  }

  /** What becomes of a scale-down: nodes cannot be listed, it panics, a node goes down, or none does. */
  datatype Attempt = NoList | Crashed | Down | Kept

  class Reconciler {
    const cfg: Config
    const api: Api
    const state: NodeStateTracker

    /** A new process with an empty memory, but for the nodes held to be off. */
    constructor (cfg: Config, api: Api)
      requires Orderly(cfg, api)
      modifies api
      ensures this.cfg == cfg && this.api == api && fresh(state)
      ensures Between() && HeldOff(BLANK)
    {
      this.cfg, this.api := cfg, api;
      var tracker := new NodeStateTracker();
      this.state := tracker;
      new;
      Restart();
      RestorePoweredOffState();
    }

    ghost method Restart()
      requires Orderly(cfg, api) && state.View() == BLANK
      modifies api`history, api`marks
      ensures Ready() && M().stage == Restoring && M().work.owed == {} && M().work.roster.None?
      ensures MayCall(M(), Background) && M().loop.drain.NoDrain?
    {
      api.Restart();
      Permit(cfg, api.history);
    }

    ghost predicate Ready()
      reads api, state
    {
      Steady(cfg, api, state)
    }

    ghost function M(): Monitor
      reads api
    {
      Watch(cfg, api.history)
    }

    // ----- Scale-up

    /** Powers on the node that the strategies ask for, the one that has been off the longest. */
    method MaybeScaleUp(ctx: Context) returns (done: bool, ghost n: string)
      requires Ready() && M().stage == Idle && MayCall(M(), ctx) && MayRecord(cfg, M(), state.View())
      requires MayDecide(cfg, M(), state.View())
      modifies api`world, api`history, state
      ensures Ready() && M().stage == Idle && M().loop == old(M()).loop && M().plan.decided
      ensures api.world.clock >= old(api.world.clock)
      ensures M().work.owed <= old(M().work.owed)
      ensures M().work.operations == old(M().work.operations) + if done && !cfg.dryRun then 1 else 0
      ensures ScaledUpBetween(cfg, old(api.history), api.history, done, n)
    {
      NoteDeciding();
      var choice := ShouldScaleUp(cfg, api, state, ctx);
      if choice.None? {
        return false, "";
      }
      n := choice.value;
      ghost var asked := api.history;
      done := TakeUp(ctx, choice.value);
      TakenUpSince(cfg, old(api.history), asked, api.history, n, done);
    }

    ghost method NoteDeciding()
      requires Ready() && MayDecide(cfg, M(), state.View())
      modifies api`history
      ensures Ready()
      ensures M() == old(M()).(plan := NO_PLAN.(decided := true, current := true), readings := Journal.NOTHING_READ)
      ensures Faults(api.history) == old(Faults(api.history))
    {
      api.Note(Deciding);
      Permit(cfg, api.history);
      Refusal(cfg, api.history);
    }

    /** Powers on the node asked for. */
    method TakeUp(ctx: Context, n: string) returns (done: bool)
      requires Ready() && M().stage == Idle && MayCall(M(), ctx) && MayRecord(cfg, M(), state.View())
      requires M().plan.current && M().plan.head == Longest(n) && MoreNeeded(cfg, M().plan)
      modifies api`world, api`history, state
      ensures Ready() && M().stage == Idle && M().loop == old(M()).loop
      ensures M().plan.decided == old(M()).plan.decided && AskedFor(cfg, M().plan, n)
      ensures api.world.clock >= old(api.world.clock)
      ensures M().work.owed <= old(M()).work.owed
      ensures M().work.operations == old(M().work.operations) + if done && !cfg.dryRun then 1 else 0
      ensures TakenUp(cfg, old(api.history), api.history, n, done)
      ensures !done ==> Unanswered(old(api.history), api.history) || NoAddress(cfg, api.world, n)
    {
      NoteWanted(n);
      ghost var noted := api.history;
      done := ScaleUpNode(ctx, n);
      TakenUpSince(cfg, old(api.history), noted, api.history, n, done);
    }

    ghost method NoteWanted(n: string)
      requires Ready() && M().plan.current && M().plan.head == Longest(n) && MoreNeeded(cfg, M().plan)
      modifies api`history
      ensures Ready() && M() == old(M()).(plan := old(M()).plan.(asked := Some(n), wanted := Some(n)))
      ensures Faults(api.history) == old(Faults(api.history)) && FacesKept(old(api.history), api.history)
    {
      api.Note(Wanted(n));
      Permit(cfg, api.history);
      Refusal(cfg, api.history);
      FacesKeptStep(old(api.history), api.history, Wanted(n));
    }

    /** What powering n on changes of what is known about the loop. */
    ghost predicate PoweredStep(m: Monitor, k: Monitor, n: string, done: bool) {
      && k.stage == Idle && SameLoop(m, k) && SamePlan(m, k)
      && k.work.owed == m.work.owed - (if done then {n} else {})
      && k.work.operations == m.work.operations + if done && !cfg.dryRun then 1 else 0
    }

    /** Rereads the chosen node and powers it on. */
    method ScaleUpNode(ctx: Context, n: string) returns (done: bool)
      requires Ready() && M().stage == Idle && MayCall(M(), ctx)
      requires MayRecord(cfg, M(), state.View()) && M().plan.wanted == Some(n)
      modifies api`world, api`history, state
      ensures Ready() && PoweredStep(old(M()), M(), n, done)
      ensures api.world.clock >= old(api.world.clock)
      ensures TakenUp(cfg, old(api.history), api.history, n, done)
      ensures !done ==> Unanswered(old(api.history), api.history) || NoAddress(cfg, api.world, n)
    {
      var node := ReadNode(cfg, api, ctx, n);
      if node.Err? {
        return false;
      }
      ghost var read := api.history;
      done := PowerOnAndForget(ctx, node.value);
      TakenUpSince(cfg, old(api.history), read, api.history, n, done);
    }

    /** Powers a node on and forgets that it was off. */
    method PowerOnAndForget(ctx: Context, node: Node) returns (done: bool)
      requires Ready() && M().stage == Idle && MayCall(M(), ctx) && node in Encountered(api.history)
      requires MayRecord(cfg, M(), state.View()) && M().plan.wanted == Some(node.name)
      modifies api`world, api`history, state
      ensures Ready() && PoweredStep(old(M()), M(), node.name, done)
      ensures api.world.clock >= old(api.world.clock)
      ensures done && !cfg.dryRun ==> node.name in M().work.cleared
      ensures !done ==> || Unanswered(old(api.history), api.history)
                        || (Unaddressed(cfg, node) && api.history == old(api.history))
      ensures TakenUp(cfg, old(api.history), api.history, node.name, done)
      ensures Grown(old(api.history), api.history)
      ensures cfg.dryRun ==> M() == old(M()).(work := M().work) && M().work == old(M()).work.(owed := M().work.owed)
    {
      done := PowerOnAndMarkBooted(cfg, api, state, ctx, node);
      ghost var booted := api.history;
      if done {
        Remembering(cfg, api, state, NotOff(node.name));
        OffForgotten(old(M()), Watch(cfg, booted), M(), node.name);
        TakenUpAndForgotten(old(api.history), booted, api.history, node.name);
      }
    }

    lemma OffForgotten(m: Monitor, l: Monitor, k: Monitor, n: string)
      requires Attempted(m, l, n, !cfg.dryRun) && k == Settled(l, NotOff(n)) && m.stage == Idle
      requires cfg.dryRun ==> l == m
      ensures PoweredStep(m, k, n, true) && (!cfg.dryRun ==> n in k.work.cleared)
      ensures cfg.dryRun ==> k == m.(work := k.work) && k.work == m.work.(owed := k.work.owed)
    {
    }

    /** Once the boot is remembered, the off entry is removed. */
    lemma TakenUpAndForgotten(h0: History, booted: History, h: History, n: string)
      requires h.state.memory == Remember(booted.state.memory, NotOff(n)) && FacesKept(booted, h)
      requires h.state.world == booted.state.world
      requires if cfg.dryRun then booted.state.memory == h0.state.memory
               else
                 && RemembersBoot(h0.state.memory, booted.state.memory, n, h0.state.world.clock,
                                  booted.state.world.clock)
                 && booted.state.memory.off == h0.state.memory.off
                 && (Undisturbed(booted, n) ==>
                       FreshlyBooted(FaceIn(booted.state.world, n), h0.state.world.clock, booted.state.world.clock))
      ensures TakenUp(cfg, h0, h, n, true)
    {
    }

    // ----- Scale-down

    /** The eligible nodes of a listing, in random order. */
    method FilterEligibleNodes(nodes: seq<Node>) returns (eligible: seq<Node>)
      requires Ready() && M().listing.Some? && Lists(nodes, ManagedOf(cfg, M().listing.value))
      modifies api`world, api`history
      ensures Ready() && api.world.clock >= old(api.world.clock)
      ensures M() == old(M()).(stage := Idle, plan := old(M()).plan.(sized := true, weighed := map[]),
                               readings := NOTHING_READ,
                               work := old(M()).work.(eligible := M().work.eligible))
      ensures DistinctNames(eligible) && M().work.eligible == set x | x in eligible :: x.name
      ensures |M().work.eligible| == |eligible|
      ensures forall x | x in eligible :: ShutdownEligible(cfg, x, state.View(), api.world.clock)
      ensures Grown(old(api.history), api.history)
      ensures api.history.Then? && api.history.event == Filtered(api.world.clock)
    {
      var now := ReadClock(cfg, api);
      eligible := FilterShutdownEligibleNodes(cfg, state, nodes, now, M().listing.value);
      EligibleNamesOf(cfg, eligible, M().listing.value, state.View(), now);
      NoteFiltered(now);
    }

    ghost method NoteFiltered(now: Time)
      requires Ready() && M().listing.Some? && now == api.world.clock
      modifies api`history
      ensures Ready() && api.history.Then? && api.history.event == Filtered(now)
      ensures M() == old(M()).(stage := Idle, plan := old(M()).plan.(sized := true, weighed := map[]),
                               readings := NOTHING_READ,
                               work := old(M()).work.(eligible := EligibleNames(cfg, old(M()).listing.value,
                                                                                state.View(), now)))
      ensures Grown(old(api.history), api.history)
    {
      api.Note(Filtered(now));
      Permit(cfg, api.history);
      Refusal(cfg, api.history);
    }

    /** More nodes than the minimum must be eligible. Asked for more than a negative number, the last of no
        nodes is out of range. */
    method PickScaleDownCandidate(eligible: seq<Node>) returns (candidate: Result<Option<Node>, ()>)
      ensures candidate.Err? <==> eligible == [] && cfg.minNodes < 0
      ensures candidate.Ok? ==> (candidate.value.Some? <==> |eligible| > cfg.minNodes)
      ensures candidate.Ok? && candidate.value.Some? ==> candidate.value.value == eligible[|eligible| - 1]
    {
      if |eligible| <= cfg.minNodes {
        return Ok(None);
      }
      if |eligible| - 1 < 0 {
        return Err(());
      }
      candidate := Ok(Some(eligible[|eligible| - 1]));
    }

    /** Nothing but the gates were asked about a candidate. */
    ghost predicate Vetted(m: Monitor, k: Monitor) {
      && k == m.(stage := k.stage, readings := k.readings, listing := k.listing, work := k.work)
      && k.work == m.work.(roster := k.work.roster) && (m.work.roster.Some? ==> k.work.roster == m.work.roster)
    }

    /** A gate denied, on figures read for it, or they could not be read. */
    ghost predicate GateDenied(before: History, h: History, n: string) {
      (h.Then? && h.event.Verdict? && h.event.name == n && !h.event.ok) || Unanswered(before, h)
    }

    /** Asks the gates of the chain in turn, until one denies or fails. */
    method Vet(ctx: Context, n: string) returns (ok: bool)
      requires Ready() && M().stage == Vetting(n, 0) && MayCall(M(), ctx)
      modifies api`world, api`history
      ensures Ready() && api.world.clock >= old(api.world.clock)
      ensures Vetted(old(M()), M())
      ensures if ok then M().stage == Vetting(n, |Chain(cfg)|)
              else (M().stage == Idle || M().stage.Vetting?) && GateDenied(old(api.history), api.history, n)
      ensures ok ==> ShutdownGrounds.CapacityChecked(cfg, api.history, n)
      ensures ok && cfg.loadAverage ==> ShutdownGrounds.LoadChecked(cfg, api.history, n)
      ensures Grown(old(api.history), api.history)
    {
      var chain := Chain(cfg);
      for i := 0 to |chain|
        invariant Ready() && api.world.clock >= old(api.world.clock)
        invariant Vetted(old(M()), M()) && M().stage == Vetting(n, i)
        invariant Grown(old(api.history), api.history)
      {
        ok := AskGate(ctx, chain[i], n, i);
        if !ok {
          return;
        }
      }
      ok := true;
      ShutdownGrounds.PassedMeansChecked(cfg, api.history, n);
    }

    /** Reads the figures of one gate and asks for its verdict on them. */
    method AskGate(ctx: Context, gate: Gate, n: string, ghost i: nat) returns (ok: bool)
      requires Ready() && M().stage == Vetting(n, i) && MayCall(M(), ctx) && i < |Chain(cfg)| && Chain(cfg)[i] == gate
      modifies api`world, api`history
      ensures Ready() && api.world.clock >= old(api.world.clock)
      ensures Vetted(old(M()), M())
      ensures if ok then M().stage == Vetting(n, i + 1)
              else M().stage in {Idle, Vetting(n, i)} && GateDenied(old(api.history), api.history, n)
      ensures Grown(old(api.history), api.history)
    {
      var verdict;
      ghost var evidence;
      verdict, evidence := Gauge(ctx, gate, n);
      ok := verdict == Ok(true);
      if EvidenceRead(cfg, M(), evidence, n) && verdict == Ok(Approves(cfg, evidence, n)) {
        NoteVerdict(n, i, evidence, ok);
      }
    }

    method Gauge(ctx: Context, gate: Gate, n: string) returns (verdict: Result<bool, ()>, ghost e: Evidence)
      requires Ready() && M().stage.Vetting? && MayCall(M(), ctx)
      modifies api`world, api`history
      ensures Ready() && api.world.clock >= old(api.world.clock)
      ensures Gauges.Gauged(old(M()), M()) && GateOf(e) == gate
      ensures Gauges.Decided(cfg, M(), old(api.history), api.history, n, e, verdict)
      ensures Grown(old(api.history), api.history)
    {
      match gate {
        case ResourceAware =>
          verdict, e := Gauges.ResourceGate(cfg, api, ctx, n);
        case LoadAverage =>
          verdict := Gauges.ShouldScaleDown(cfg, api, ctx, n);
          e := LoadFigures(Gauges.Figures(M()));
      }
    }

    ghost method NoteVerdict(n: string, i: nat, e: Evidence, ok: bool)
      requires Ready() && M().stage == Vetting(n, i) && i < |Chain(cfg)| && GateOf(e) == Chain(cfg)[i]
      requires EvidenceRead(cfg, M(), e, n) && ok == Approves(cfg, e, n)
      modifies api`history
      ensures Ready() && M() == old(M()).(stage := if ok then Vetting(n, i + 1) else Idle)
      ensures api.history.Then? && api.history.event == Verdict(n, e, ok)
      ensures Grown(old(api.history), api.history)
    {
      api.Note(Verdict(n, e, ok));
      Permit(cfg, api.history);
      Refusal(cfg, api.history);
    }

    /** Logs that a rollback step failed. */
    ghost method Alarm(n: string)
      requires Ready()
      modifies api`history
      ensures Ready() && M() == old(M()).(loop := old(M()).loop.(alarmed := true))
      ensures FacesKept(old(api.history), api.history) && Grown(old(api.history), api.history)
    {
      api.Note(Journal.Alarm(n));
      Permit(cfg, api.history);
      Refusal(cfg, api.history);
      FacesKeptStep(old(api.history), api.history, Journal.Alarm(n));
    }

    /** The rollback of n goes on in the same loop; only an alarm may have been raised. */
    ghost predicate RollingOn(m: Monitor, k: Monitor, n: string) {
      && k.stage == RollingBack(n)
      && k.loop == m.loop.(alarmed := k.loop.alarmed, retracted := k.loop.retracted)
      && (m.loop.alarmed ==> k.loop.alarmed)
      && k.work.operations == m.work.operations && k.work.owed == m.work.owed && SamePlan(m, k) && k.pods == m.pods
      && k.face.Some? == m.face.Some? && (k.face.Some? ==> k.face.value.booted == m.face.value.booted)
    }

    /** Uncordons n, or raises an alarm because a call was refused. */
    method RestoreScheduling(ctx: Context, n: string)
      requires Ready() && M().stage == RollingBack(n) && ctx == M().loop.ctx && M().loop.drain.NoDrain? && !cfg.dryRun
      requires MarkDealtWith(M())
      modifies api`world, api`history
      ensures Ready() && RollingOn(old(M()), M(), n)
      ensures api.world.clock >= old(api.world.clock) && Grown(old(api.history), api.history)
      ensures M().loop.alarmed ==> old(M()).loop.alarmed || Faults(old(api.history)) < Faults(api.history)
      ensures M().face.Some? ==> M().face.value.mark == old(M()).face.value.mark
      ensures !M().loop.alarmed ==> n in api.world.nodes && !api.world.nodes[n].unschedulable
    {
      var ok := UncordonNode(cfg, api, ctx, n);
      if !ok {
        Alarm(n);
      }
    }

    /** Removes the off mark of n, or raises an alarm because a call was refused. */
    method RetractMark(ctx: Context, n: string)
      requires Ready() && M().stage == RollingBack(n) && ctx == M().loop.ctx && M().loop.drain.NoDrain? && !cfg.dryRun
      requires M().loop.candidate.name == n && M().loop.candidate.markKnown
      modifies api`world, api`history
      ensures Ready() && RollingOn(old(M()), M(), n)
      ensures api.world.clock >= old(api.world.clock) && Grown(old(api.history), api.history)
      ensures M().loop.alarmed ==> old(M()).loop.alarmed || Faults(old(api.history)) < Faults(api.history)
      ensures !M().loop.alarmed && M().face.Some? ==> M().face.value.mark == None
      ensures M().loop.alarmed || M().loop.retracted
    {
      var ok := ClearPoweredOffAnnotation(cfg, api, ctx, n);
      if !ok {
        Alarm(n);
      }
    }

    /** Gives up on shutting n down: its mark is removed if it is known to be written, and it is uncordoned,
        all under the context of the loop. */
    method RollBack(ctx: Context, n: string, marked: bool)
      requires Ready() && UnderWay(cfg, M(), n) && ctx == M().loop.ctx && !cfg.dryRun
      requires marked <==> M().loop.candidate.markKnown
      modifies api`world, api`history
      ensures Ready() && RollingOn(old(M()).(stage := RollingBack(n)), M(), n)
      ensures api.world.clock >= old(api.world.clock) && Grown(old(api.history), api.history)
      ensures M().loop.alarmed ==> old(M()).loop.alarmed || Faults(old(api.history)) < Faults(api.history)
      ensures !M().loop.alarmed ==>
                && n in api.world.nodes && !api.world.nodes[n].unschedulable
                && (M().face.Some? ==> M().face.value.mark == if marked then None else old(M()).face.value.mark)
    {
      StartRollback(n);
      if marked {
        RetractMark(ctx, n);
      }
      RestoreScheduling(ctx, n);
    }

    ghost method StartRollback(n: string)
      requires Ready() && UnderWay(cfg, M(), n)
      modifies api`history
      ensures Ready() && M() == old(M()).(stage := RollingBack(n)) && Grown(old(api.history), api.history)
    {
      api.Note(Aborting(n));
      Permit(cfg, api.history);
      Refusal(cfg, api.history);
    }

    // ----- Shutting down

    /** Stores the present second as the time of the shutdown on the drained node. */
    method AnnotatePoweredOffNode(ctx: Context, n: string) returns (ok: bool, ghost at: Time)
      requires Ready() && M().stage == Detached(n) && MayCall(M(), ctx) && !cfg.dryRun
      requires M().loop.candidate == Candidate(n, M().loop.candidate.entry, false, false) && M().loop.overdue.None?
      modifies api`world, api`history
      ensures Ready() && old(api.world.clock) <= at <= api.world.clock
      ensures api.history.Then? && api.history.event.Called?
      ensures api.history.event.call == PatchNode(n, MarkPatch(at)) && (ok <==> api.history.event.reply.Done?)
      ensures M().loop == old(M()).loop.(candidate := M().loop.candidate)
      ensures M().loop.candidate == Candidate(n, old(M()).loop.candidate.entry, ok, M().loop.candidate.markLost)
      ensures M().work == old(M()).work && SamePlan(old(M()), M())
      ensures M().face.Some? == old(M()).face.Some?
      ensures M().face.Some? ==> M().face.value.booted == old(M()).face.value.booted
      ensures M().stage == if ok || M().loop.candidate.markLost then Marked(n) else Detached(n)
      ensures ok ==> !M().loop.candidate.markLost
      ensures Grown(old(api.history), api.history) && (!ok ==> Unanswered(old(api.history), api.history))
      ensures if ok || M().loop.candidate.markLost then M().face.Some? ==> M().face.value.mark.Some?
              else M().face == old(M()).face
    {
      var now := ReadClock(cfg, api);
      at := now;
      var reply := ApplyPatch(cfg, api, ctx, n, MarkPatch(now));
      ok := reply.Done?;
    }

    /** Asks the host to shut down, for at most half a minute; a refusal counts as not accepted. */
    method RequestShutdown(ctx: Context, n: string) returns (ok: bool)
      requires Ready() && M().stage == Marked(n) && MayCall(M(), ctx) && !cfg.dryRun
      modifies api`world, api`history
      ensures Ready() && api.world.clock >= old(api.world.clock)
      ensures M() == if ok then old(M()).(stage := Sent(n)) else old(M())
      ensures api.history.Then? && api.history.event.Called? && api.history.event.call == Call.Shutdown(n)
      ensures var limit := old(api.world.clock) + 30_000_000_000;
              api.history.event.ctx == if ctx.Deadline? && ctx.at <= limit then ctx else Deadline(limit)
      ensures ok <==> api.history.event.reply.Done?
      ensures Grown(old(api.history), api.history) && (!ok ==> Unanswered(old(api.history), api.history))
    {
      var reply := api.Shutdown(WithTimeout(ctx, api.world.clock, SHUTDOWN_TIMEOUT), n);
      Permit(cfg, api.history);
      Refusal(cfg, api.history);
      ok := reply.Done?;
    }

    method RememberShutdown(n: string)
      requires Ready() && M().stage == Sent(n) && MayRecord(cfg, M(), state.View())
      modifies api`world, api`history, state
      ensures Ready() && api.world.clock >= old(api.world.clock) && M() == WithOperation(old(M()))
      ensures RemembersShutdown(old(state.View()), state.View(), n, old(api.world.clock), api.world.clock)
    {
      MarkGlobalShutdown(cfg, api, state);
      var now := ReadClock(cfg, api);
      Remembering(cfg, api, state, ShutDown(n, now));
      Remembering(cfg, api, state, Off(n));
    }

    /** A shutdown begun at h0 has reason to be given up: a call was refused, a listed pod blocks the drain, or
        the time for the drain is over. */
    ghost predicate GaveUp(h0: History, h: History, ctx: Context) {
      || Faults(h0) < Faults(h)
      || (exists p :: p in Watch(cfg, h).pods && DrainBlocker(p))
      || Drain.TimeUp(cfg, ctx, h0.state.world.clock, h.state.world.clock)
    }

    /** Shuts down an approved candidate: drain, mark, request; each failure rolls back. */
    method ShutDownCandidate(ctx: Context, n: string) returns (done: bool)
      requires Ready() && Approved(cfg, M(), n) && ctx == M().loop.ctx && !cfg.dryRun
      requires !M().loop.alarmed && M().face == FaceIn(M().loop.candidate.entry, n)
      requires M().loop.candidate == Candidate(n, M().loop.candidate.entry, false, false) && M().loop.overdue.None?
      modifies api`world, api`history
      ensures Ready() && api.world.clock >= old(api.world.clock)
      ensures if done then ShutAccepted(old(M()), M(), n)
              else
                && M().stage == RollingBack(n) && NotShutDown(old(M()), M(), api.world)
                && GaveUp(old(api.history), api.history, ctx)
      ensures M().loop.candidate.name == n
    {
      ghost var m := M();
      var drained := Drain.CordonAndDrain(cfg, api, ctx, n);
      if !drained {
        ghost var given := api.history;
        RollBack(ctx, n, false);
        RolledBackUndrained(m, Watch(cfg, given), M(), api.world, n);
        StillGivenUp(old(api.history), given, api.history, n, ctx);
        return false;
      }
      done := ShutDownDrained(ctx, n);
    }

    lemma StillGivenUp(h0: History, given: History, h: History, n: string, ctx: Context)
      requires Drain.GivenUp(cfg, h0, given, n, Watch(cfg, given), ctx) && Faults(given) <= Faults(h)
      requires given.state.world.clock <= h.state.world.clock && Watch(cfg, h).pods == Watch(cfg, given).pods
      ensures GaveUp(h0, h, ctx)
    {
    }

    /** Given up before it was marked, and rolled back, the candidate is put back or an alarm raised. */
    lemma RolledBackUndrained(m: Monitor, l: Monitor, k: Monitor, w: World, n: string)
      requires m.loop.candidate == Candidate(n, m.loop.candidate.entry, false, false)
      requires m.face == FaceIn(m.loop.candidate.entry, n)
      requires Drain.DrainProgress(m, l) && l.loop == m.loop && RollingOn(l.(stage := RollingBack(n)), k, n)
      requires !k.loop.alarmed ==>
                 && n in w.nodes && !w.nodes[n].unschedulable
                 && (k.face.Some? ==> k.face.value.mark == l.face.value.mark)
      ensures NotShutDown(m, k, w)
    {
    }

    /** The host has accepted, and the mark is known to be stored. */
    ghost predicate ShutAccepted(m: Monitor, k: Monitor, n: string) {
      && k.stage == Sent(n) && k.work == m.work && SamePlan(m, k)
      && k.loop == m.loop.(candidate := m.loop.candidate.(markKnown := true))
    }

    method ShutDownDrained(ctx: Context, n: string) returns (done: bool)
      requires Ready() && M().stage == Detached(n) && ctx == M().loop.ctx && M().loop.drain.NoDrain?
      requires !cfg.dryRun && !M().loop.alarmed
      requires M().loop.candidate == Candidate(n, M().loop.candidate.entry, false, false) && M().loop.overdue.None?
      requires var f, g := FaceIn(M().loop.candidate.entry, n), M().face;
               f.Some? == g.Some? && (f.Some? ==> g.value == f.value.(unschedulable := g.value.unschedulable))
      modifies api`world, api`history
      ensures Ready() && api.world.clock >= old(api.world.clock)
      ensures if done then ShutAccepted(old(M()), M(), n)
              else
                && M().stage == RollingBack(n) && NotShutDown(old(M()), M(), api.world)
                && Faults(old(api.history)) < Faults(api.history)
      ensures M().loop.candidate.name == n
    {
      var marked;
      ghost var at;
      marked, at := AnnotatePoweredOffNode(ctx, n);
      if !marked {
        RollBack(ctx, n, false);
        return false;
      }
      done := RequestShutdown(ctx, n);
      if !done {
        RollBack(ctx, n, true);
      }
    }

    /** At most one node is shut down: one of more than the minimum of eligible nodes, approved by all
        gates. If it is not shut down, nothing is remembered; then a gate denied, or the node is put back. */
    method MaybeScaleDown(ctx: Context, eligible: seq<Node>) returns (done: bool, panicked: bool, ghost n: string)
      requires Ready() && M().stage == Idle && MayRecord(cfg, M(), state.View())
      requires ctx == M().loop.ctx && !M().loop.alarmed && M().loop.overdue.None? && M().loop.drain.NoDrain?
      requires M().work.eligible == (set x | x in eligible :: x.name) && |M().work.eligible| == |eligible|
      modifies api`world, api`history, state
      ensures Ready() && api.world.clock >= old(api.world.clock)
      ensures panicked <==> |eligible| == 0 && cfg.minNodes < 0
      ensures M().work.owed == old(M()).work.owed
      ensures M().work.operations == old(M()).work.operations + if done && !cfg.dryRun then 1 else 0
      ensures M().loop.ctx == old(M()).loop.ctx && M().loop.begun == old(M()).loop.begun
      ensures M().loop.drain.NoDrain? && M().plan.decided == old(M()).plan.decided
      ensures if |eligible| <= cfg.minNodes || panicked then !done && api.history == old(api.history)
              else n in old(M()).work.eligible && M().loop.candidate.name == n
      ensures done && !cfg.dryRun ==>
                && M().stage == Sent(n)
                && RemembersShutdown(old(state.View()), state.View(), n, old(api.world.clock), api.world.clock)
      ensures !done || cfg.dryRun ==> state.View() == old(state.View())
      ensures !done ==> NotShutDown(old(M()), M(), api.world)
      ensures !done && |eligible| > cfg.minNodes && !panicked ==>
                || GateDenied(old(api.history), api.history, n)
                || ((if cfg.dryRun then M().stage.Vetting? else M().stage == RollingBack(n))
                    && GaveUp(old(api.history), api.history, ctx))
      ensures !done && M().stage.RollingBack? && !M().loop.alarmed && Undisturbed(api.history, n) ==>
                (FaceIn(api.world, n) == FaceIn(M().loop.candidate.entry, n) <==> !MarkReplyLost(api.history))
    {
      n := "";
      var candidate := PickScaleDownCandidate(eligible);
      if candidate.Err? || candidate.value.None? {
        return false, candidate.Err?, n;
      }
      panicked := false;
      var name := candidate.value.value.name;
      n := name;
      Choose(name);
      var ok := Vet(ctx, name);
      if !ok {
        return false, false, n;
      }
      done := ShutDownApproved(ctx, name);
      if !done && !M().loop.alarmed && M().stage.RollingBack? && Undisturbed(api.history, name) {
        PutBackRestores(cfg, api.history, name);
      }
    }

    /** In a dry run only the blocking pods are looked for. */
    method ShutDownApproved(ctx: Context, n: string) returns (done: bool)
      requires Ready() && Approved(cfg, M(), n) && ctx == M().loop.ctx && MayRecord(cfg, M(), state.View())
      requires !M().loop.alarmed && M().face == FaceIn(M().loop.candidate.entry, n)
      requires M().loop.candidate == Candidate(n, M().loop.candidate.entry, false, false) && M().loop.overdue.None?
      modifies api`world, api`history, state
      ensures Ready() && api.world.clock >= old(api.world.clock)
      ensures M().work.owed == old(M()).work.owed && M().plan.decided == old(M()).plan.decided
      ensures M().work.operations == old(M()).work.operations + if done && !cfg.dryRun then 1 else 0
      ensures M().loop == old(M()).loop.(candidate := M().loop.candidate, alarmed := M().loop.alarmed,
                                         retracted := M().loop.retracted)
      ensures M().loop.candidate.name == n
      ensures done && !cfg.dryRun ==>
                && M().stage == Sent(n)
                && RemembersShutdown(old(state.View()), state.View(), n, old(api.world.clock), api.world.clock)
      ensures !done || cfg.dryRun ==> state.View() == old(state.View())
      ensures !done ==>
                && NotShutDown(old(M()), M(), api.world) && (cfg.dryRun || M().stage == RollingBack(n))
                && GaveUp(old(api.history), api.history, ctx)
      ensures cfg.dryRun ==> M().stage.Vetting?
    {
      if cfg.dryRun {
        done := Drain.CordonAndDrain(cfg, api, ctx, n);
        return;
      }
      done := ShutDownCandidate(ctx, n);
      if done {
        RememberShutdown(n);
      }
    }

    ghost method Choose(n: string)
      requires Ready() && M().stage == Idle && n in M().work.eligible && |M().work.eligible| > cfg.minNodes
      requires M().loop.drain.NoDrain?
      modifies api`history
      ensures Ready() && M().stage == Vetting(n, 0) && M().work == old(M()).work && M().plan == old(M()).plan
      ensures M().loop == old(M()).loop.(candidate := Candidate(n, api.world, false, false), retracted := false)
      ensures M().face == FaceIn(api.world, n)
      ensures Faults(api.history) == old(Faults(api.history))
    {
      api.Note(Chosen(n));
      Permit(cfg, api.history);
      Refusal(cfg, api.history);
    }

    // ----- Rotation

    /** A rotation that began at h0 has ended at h without a node powered on: it is switched off, a call was
        refused, no node was due at the time it read, there is no capacity to spare, or the node due has no
        address. */
    ghost predicate Stayed(h0: History, h: History, at: Time) {
      var m := Watch(cfg, h);
      || !cfg.rotation || cfg.maxPoweredOff <= 0
      || Faults(h0) < Faults(h)
      || NothingDue(cfg, m, at)
      || (m.loop.overdue.Some? && (NoSpare(cfg, m) || Unaddressed(cfg, m.loop.overdue.value)))
    }

    /** It powered on n, the node due; in a dry run it would have. */
    ghost predicate RotatedIn(h: History, n: string) {
      var m := Watch(cfg, h);
      && cfg.rotation && cfg.maxPoweredOff > 0
      && (if cfg.dryRun then m.loop.overdue.Some? && m.loop.overdue.value.name == n && CanAfford(cfg, m)
          else h.Then? && h.event == Journal.Rotated(n))
    }

    /** The effect of a rotation. */
    ghost predicate RotatedBetween(h0: History, h: History, rotated: Option<string>, at: Time) {
      && h0.state.world.clock <= at <= h.state.world.clock
      && (match rotated
          case None => h.state.memory == h0.state.memory && Stayed(h0, h, at)
          case Some(n) =>
            && RotatedIn(h, n)
            && PoweredOn(cfg, h0.state.memory, h.state.memory, n, true, h0.state.world.clock, h.state.world.clock))
    }

    /** Powers on a node that has been off for too long, the one off the longest of those not exempt,
        if with it more than the minimum of nodes could serve and one of the others could be retired. */
    method MaybeRotate(ctx: Context) returns (ghost rotated: Option<string>, ghost at: Time)
      requires Ready() && ctx == M().loop.ctx && MayRecord(cfg, M(), state.View())
      requires !M().stage.Emptied? && M().loop.overdue.None? && M().loop.drain.NoDrain?
      modifies api`world, api`history, state
      ensures Ready() && api.world.clock >= old(api.world.clock)
      ensures M().work.owed <= old(M()).work.owed
      ensures M().loop.begun == old(M()).loop.begun && M().plan.decided == old(M()).plan.decided
      ensures M().loop.drain.NoDrain?
      ensures M().work.operations
              == old(M()).work.operations + if rotated.Some? && !cfg.dryRun then 1 else 0
      ensures RotatedBetween(old(api.history), api.history, rotated, at)
    {
      rotated, at := None, api.world.clock;
      if !cfg.rotation || cfg.maxPoweredOff <= 0 {
        return;
      }
      var overdue;
      overdue, at := DiscoverOverdue(ctx);
      if overdue.None? {
        return;
      }
      var safe := HasSpareCapacity(ctx);
      if !safe {
        return;
      }
      var done := RotateIn(ctx, overdue.value);
      if done {
        rotated := Some(overdue.value.name);
      }
    }

    /** Powers on the node found overdue. */
    method RotateIn(ctx: Context, node: Node) returns (done: bool)
      requires Ready() && M().stage == Idle && MayCall(M(), ctx) && MayRecord(cfg, M(), state.View())
      requires M().loop.overdue == Some(node) && node in Encountered(api.history) && CanAfford(cfg, M())
      modifies api`world, api`history, state
      ensures Ready() && api.world.clock >= old(api.world.clock)
      ensures M().work.owed <= old(M()).work.owed && M().plan.decided == old(M()).plan.decided
      ensures M().loop == if done && !cfg.dryRun then old(M()).loop.(overdue := None) else old(M()).loop
      ensures M().work.operations == old(M()).work.operations + if done && !cfg.dryRun then 1 else 0
      ensures done && !cfg.dryRun ==> api.history.Then? && api.history.event == Journal.Rotated(node.name)
      ensures done && cfg.dryRun ==> CanAfford(cfg, M())
      ensures !done ==> Unanswered(old(api.history), api.history) || Unaddressed(cfg, node)
      ensures PoweredOn(cfg, old(state.View()), state.View(), node.name, done, old(api.world.clock), api.world.clock)
    {
      NoteAffordable();
      done := PowerOnAndForget(ctx, node);
      if done && !cfg.dryRun {
        CountRotation(node.name);
      }
    }

    ghost method NoteAffordable()
      requires Ready() && M().loop.overdue.Some? && CanAfford(cfg, M())
      modifies api`history
      ensures Ready() && M() == old(M()).(plan := old(M()).plan.(wanted := Some(old(M()).loop.overdue.value.name)))
      ensures Faults(api.history) == old(Faults(api.history)) && Grown(old(api.history), api.history)
    {
      api.Note(Affordable);
      Permit(cfg, api.history);
      Refusal(cfg, api.history);
    }

    ghost method CountRotation(n: string)
      requires Ready() && M().loop.overdue.Some? && M().loop.overdue.value.name == n && n in M().work.cleared
      modifies api`history
      ensures Ready() && M() == old(M()).(loop := old(M()).loop.(overdue := None))
      ensures api.history.Then? && api.history.event == Journal.Rotated(n)
    {
      api.Note(Journal.Rotated(n));
      Permit(cfg, api.history);
    }

    /** The node due for rotation that was marked first, as of the time read. */
    method DiscoverOverdue(ctx: Context) returns (overdue: Option<Node>, ghost at: Time)
      requires Ready() && MayCall(M(), ctx) && cfg.maxPoweredOff > 0 && M().loop.overdue.None?
      modifies api`world, api`history
      ensures Ready() && old(api.world.clock) <= at <= api.world.clock
      ensures M().work == old(M()).work.(roster := M().work.roster, cleared := M().work.cleared)
      ensures M().loop == old(M()).loop.(overdue := overdue) && M().stage == old(M()).stage
      ensures M().plan == old(M()).plan.(due := M().plan.due, sized := M().plan.sized, wanted := M().plan.wanted)
      ensures match overdue
              case None => Unanswered(old(api.history), api.history) || NothingDue(cfg, M(), at)
              case Some(x) =>
                && M().listing.Some? && OldestOverdue(cfg, M().listing.value, x, at) && M().plan.due
                && x in Encountered(api.history)
      ensures Grown(old(api.history), api.history)
    {
      var now := ReadClock(cfg, api);
      at := now;
      BegunBefore(cfg, api.history);
      var managed := ListManagedNodes(cfg, api, ctx);
      if managed.None? {
        return None, now;
      }
      overdue := FindAmong(managed.value, now);
    }

    /** Looks for it among the nodes just listed. */
    method FindAmong(nodes: seq<Node>, now: Time) returns (overdue: Option<Node>)
      requires Ready() && M().loop.begun <= now <= api.world.clock && M().listing.Some? && M().loop.overdue.None?
      requires Lists(nodes, ManagedOf(cfg, M().listing.value)) && cfg.maxPoweredOff > 0
      modifies api`history
      ensures Ready()
      ensures M() == old(M()).(loop := old(M()).loop.(overdue := overdue), plan := M().plan,
                               work := old(M()).work.(cleared := M().work.cleared))
      ensures M().plan == old(M()).plan.(due := M().plan.due, sized := M().plan.sized, wanted := M().plan.wanted)
      ensures match overdue
              case None => NothingDue(cfg, M(), now)
              case Some(x) => OldestOverdue(cfg, M().listing.value, x, now) && M().plan.due && x in nodes
      ensures Grown(old(api.history), api.history)
    {
      if |nodes| == 0 {
        NoneFound(nodes, M().listing.value, now, 0);
        return None;
      }
      var age;
      overdue, age := Rotation.FindOverdue(cfg, nodes, now);
      if overdue.Some? {
        NoteOverdue(nodes, overdue.value, now);
      } else {
        NoneFound(nodes, M().listing.value, now, age);
      }
    }

    lemma NoneFound(nodes: seq<Node>, listing: seq<Node>, now: Time, age: Duration)
      requires Lists(nodes, ManagedOf(cfg, listing)) && Rotation.GreatestAge(cfg, nodes, now, age)
      requires age < cfg.maxPoweredOff
      ensures forall x | x in listing :: !Overduely(cfg, x, now)
    {
      forall x | x in listing ensures !Overduely(cfg, x, now) {
        if Managed(cfg, x) {
          assert x in Elements(nodes);
          ManagedIsNeverIgnored(cfg, x);
        }
      }
    }

    ghost method NoteOverdue(nodes: seq<Node>, x: Node, now: Time)
      requires Ready() && M().loop.begun <= now <= api.world.clock && M().listing.Some?
      requires Lists(nodes, ManagedOf(cfg, M().listing.value)) && Rotation.FirstDue(cfg, nodes, now, x)
      modifies api`history
      ensures Ready() && M() == old(M()).(loop := old(M()).loop.(overdue := Some(x)),
                                           plan := old(M()).plan.(due := true, sized := false, wanted := None),
                                           work := old(M()).work.(cleared := {}))
      ensures OldestOverdue(cfg, M().listing.value, x, now)
      ensures Grown(old(api.history), api.history)
    {
      Rotation.DueIsOverdue(cfg, nodes, M().listing.value, now, x);
      api.Note(Overdue(x, now));
      Permit(cfg, api.history);
      Refusal(cfg, api.history);
    }

    /** With one more node, more than the minimum could be shut down, and the load gates would let one
        of them go. */
    method HasSpareCapacity(ctx: Context) returns (ok: bool)
      requires Ready() && MayCall(M(), ctx) && M().plan.due
      modifies api`world, api`history
      ensures Ready() && api.world.clock >= old(api.world.clock)
      ensures M().loop == old(M()).loop && M().plan.decided == old(M()).plan.decided
      ensures M().work.operations == old(M()).work.operations && M().work.owed == old(M()).work.owed
      ensures if ok then M().stage == Idle && CanAfford(cfg, M())
              else Faults(old(api.history)) < Faults(api.history) || NoSpare(cfg, M())
      ensures Grown(old(api.history), api.history)
    {
      var all := ListManagedNodes(cfg, api, ctx);
      if all.None? {
        return false;
      }
      var eligible := FilterEligibleNodes(all.value);
      if |eligible| + 1 <= cfg.minNodes {
        return false;
      }
      ok := CanRetireOne(ctx, eligible);
    }

    method CanRetireOne(ctx: Context, eligible: seq<Node>) returns (ok: bool)
      requires Ready() && M().stage == Idle && MayCall(M(), ctx) && DistinctNames(eligible)
      requires M().plan.weighed == map[] && M().plan.sized && M().plan.due
      requires M().work.eligible == (set x | x in eligible :: x.name) && |M().work.eligible| == |eligible|
      requires |eligible| + 1 > cfg.minNodes
      modifies api`world, api`history
      ensures Ready() && api.world.clock >= old(api.world.clock)
      ensures Gauges.Searched(old(M()), M())
      ensures if ok then CanAfford(cfg, M())
              else Faults(old(api.history)) < Faults(api.history) || NoSpare(cfg, M())
      ensures Grown(old(api.history), api.history)
    {
      var names := seq(|eligible|, i requires 0 <= i < |eligible| => eligible[i].name);
      NamesAre(eligible, names);
      var candidate := Gauges.PickRotationPoweroffCandidate(cfg, api, ctx, names);
      ok := candidate.Some?;
      if ok {
        assert candidate.value in Elements(names);
      }
    }

    static lemma NamesAre(nodes: seq<Node>, names: seq<string>)
      requires |names| == |nodes| && forall i | 0 <= i < |nodes| :: names[i] == nodes[i].name
      requires DistinctNames(nodes)
      ensures Distinct(names) && Elements(names) == set x | x in nodes :: x.name
    {
      forall x | x in nodes ensures x.name in names {
        var i :| 0 <= i < |nodes| && nodes[i] == x;
        assert names[i] == x.name;
      }
    }

    // ----- The loop

    /** A sweep that began at h0 has forgotten of the listed nodes that they were off, if they are up and not
        marked off. */
    ghost predicate SweptBetween(h0: History, h: History) {
      var known := Watch(cfg, h).loop.known;
      if cfg.dryRun then h == h0
      else
        && known.Some? && Watch(cfg, h).listing == known
        && Reconciled(cfg, known.value, h.state.memory)
        && h.state.memory == h0.state.memory.(off := h0.state.memory.off - UpUnmarked(cfg, known.value))
    }

    /** Forgets that nodes were off that are listed up and not marked off. */
    method Sweep(ctx: Context) returns (ok: bool)
      requires Ready() && M().stage == Idle && MayCall(M(), ctx) && !cfg.dryRun
      modifies api`world, api`history, state
      ensures Ready() && M().stage == Idle && api.world.clock >= old(api.world.clock)
      ensures M().loop == old(M()).loop.(known := M().loop.known) && M().plan == old(M()).plan
      ensures M().work.operations == old(M()).work.operations && M().work.owed <= old(M()).work.owed
      ensures if ok then SweptBetween(old(api.history), api.history)
              else Stuck(old(api.history), api.history)
    {
      var listed := ListManagedNodes(cfg, api, ctx);
      if listed.None? {
        return false;
      }
      assert forall x :: x in listed.value <==> x in Elements(listed.value);
      ForgetUp(listed.value);
      UpOnesForgotten(listed.value, M().listing.value, old(state.View()), state.View());
      NoteSwept();
      ok := true;
    }

    lemma UpOnesForgotten(nodes: seq<Node>, listing: seq<Node>, before: Memory, after: Memory)
      requires Lists(nodes, ManagedOf(cfg, listing))
      requires after == before.(off := before.off - UpUnmarked(cfg, nodes))
      ensures Reconciled(cfg, listing, after) && UpUnmarked(cfg, nodes) == UpUnmarked(cfg, listing)
    {
      assert forall x :: x in nodes <==> x in Elements(nodes);
    }

    ghost method NoteSwept()
      requires Ready() && M().listing.Some? && Reconciled(cfg, M().listing.value, state.View())
      modifies api`history
      ensures Ready() && M() == old(M()).(loop := old(M()).loop.(known := old(M()).listing))
    {
      api.Note(Swept);
      Permit(cfg, api.history);
    }

    method ForgetUp(nodes: seq<Node>)
      requires Ready() && forall x | x in nodes :: Managed(cfg, x)
      modifies api`world, api`history, state
      ensures Ready() && api.world == old(api.world)
      ensures state.View() == old(state.View()).(off := old(state.View()).off - UpUnmarked(cfg, nodes))
      ensures M() == old(M()).(work := old(M()).work.(owed := M().work.owed))
      ensures M().work.owed <= old(M()).work.owed
    {
      for i := 0 to |nodes|
        invariant Ready() && api.world == old(api.world)
        invariant state.View() == old(state.View()).(off := old(state.View()).off - UpUnmarked(cfg, nodes[..i]))
        invariant M() == old(M()).(work := old(M()).work.(owed := M().work.owed))
        invariant M().work.owed <= old(M()).work.owed
      {
        assert nodes[..i + 1] == nodes[..i] + [nodes[i]];
        if nodes[i].ready && PoweredOffSince(nodes[i]).None? {
          Remembering(cfg, api, state, NotOff(nodes[i].name));
        }
      }
      assert nodes[..|nodes|] == nodes;
    }

    /** What forced power-on, begun at h0, has achieved for these nodes: those not up were booted, or a call
        on them was refused, or they have no address to wake them at. Nothing is forgotten about them. */
    ghost predicate ForcedFor(h0: History, h: History, nodes: seq<Node>, booted: set<string>, failed: set<string>) {
      && booted + failed == DownNames(cfg, nodes)
      && (!cfg.dryRun ==> Recovery.AllBack(h, booted, h0.state.world.clock) && booted <= Watch(cfg, h).work.owed)
      && (forall x | x in nodes && x.name in failed :: x.name in Refusals(h) || Unaddressed(cfg, x))
      && h.state.memory.off == h0.state.memory.off
    }

    /** Forced mode: tries to power on every listed node that is not up, and no other. */
    method ForcePowerOnAllNodes(ctx: Context) returns (ok: bool, ghost booted: set<string>, ghost failed: set<string>)
      requires Ready() && M().stage == Idle && MayCall(M(), ctx) && cfg.forcePowerOn && M().plan.forced.None?
      modifies api`world, api`history, state
      ensures Ready() && api.world.clock >= old(api.world.clock) && M().loop == old(M()).loop
      ensures if ok then
                M().plan.forced.Some? && ForcedFor(old(api.history), api.history, M().plan.forced.value, booted, failed)
              else Unanswered(old(api.history), api.history) && state.View() == old(state.View())
    {
      ok, booted, failed := false, {}, {};
      var listed := ListManagedNodes(cfg, api, ctx);
      if listed.None? {
        return;
      }
      ghost var listing := M().listing.value;
      NoteForcing();
      booted, failed := ForceEach(ctx, listed.value, listing, old(api.history));
      SameForced(old(api.history), api.history, listed.value, listing, booted, failed);
      ok := true;
    }

    lemma SameForced(h0: History, h: History, nodes: seq<Node>, listing: seq<Node>, booted: set<string>,
                     failed: set<string>)
      requires Lists(nodes, ManagedOf(cfg, listing)) && DistinctNames(listing)
      requires ForcedFor(h0, h, nodes, booted, failed)
      ensures ForcedFor(h0, h, listing, booted, failed)
    {
      assert forall x :: x in nodes <==> x in Elements(nodes);
      forall x | x in listing && x.name in failed ensures x in nodes {
        assert x.name in DownNames(cfg, nodes);
        var y :| y in nodes && y.name == x.name;
        assert y in listing;
      }
    }

    ghost method NoteForcing()
      requires Ready() && cfg.forcePowerOn && M().listing.Some?
      modifies api`history
      ensures Ready() && M() == old(M()).(plan := old(M()).plan.(forced := old(M()).listing))
      ensures Grown(old(api.history), api.history)
    {
      api.Note(Forcing);
      Permit(cfg, api.history);
      Refusal(cfg, api.history);
    }

    method ForceEach(ctx: Context, nodes: seq<Node>, ghost listing: seq<Node>, ghost h0: History)
      returns (ghost booted: set<string>, ghost failed: set<string>)
      requires Ready() && M().stage == Idle && MayCall(M(), ctx) && cfg.forcePowerOn && M().plan.forced == Some(listing)
      requires Lists(nodes, ManagedOf(cfg, listing)) && Elements(nodes) <= Encountered(api.history)
      requires api.world.clock >= h0.state.world.clock && state.View() == h0.state.memory
      modifies api`world, api`history, state
      ensures Ready() && api.world.clock >= old(api.world.clock)
      ensures M().plan.forced == Some(listing) && M().loop == old(M()).loop
      ensures ForcedFor(h0, api.history, nodes, booted, failed)
    {
      booted, failed := {}, {};
      for i := 0 to |nodes|
        invariant Ready() && M().stage == Idle && api.world.clock >= old(api.world.clock)
        invariant M().plan.forced == Some(listing) && M().loop == old(M()).loop
        invariant Elements(nodes) <= Encountered(api.history)
        invariant ForcedFor(h0, api.history, nodes[..i], booted, failed)
      {
        assert nodes[i] in Elements(nodes);
        if nodes[i].ready {
          ForcedPast(h0, api.history, nodes, i, booted, failed);
          continue;
        }
        booted, failed := ForceNode(ctx, nodes, i, listing, booted, failed, h0);
      }
      assert nodes[..|nodes|] == nodes;
    }

    /** A node that is up is passed over. */
    lemma ForcedPast(h0: History, h: History, nodes: seq<Node>, i: nat, booted: set<string>, failed: set<string>)
      requires i < |nodes| && DistinctNames(nodes) && nodes[i].ready && ForcedFor(h0, h, nodes[..i], booted, failed)
      ensures ForcedFor(h0, h, nodes[..i + 1], booted, failed)
    {
      NotYetForced(nodes, i, booted + failed);
      assert nodes[..i + 1] == nodes[..i] + [nodes[i]];
    }

    lemma NotYetForced(nodes: seq<Node>, i: nat, names: set<string>)
      requires i < |nodes| && DistinctNames(nodes) && names == DownNames(cfg, nodes[..i])
      ensures nodes[i].name !in names
    {
    }

    /** Tries to power on the next node. */
    method ForceNode(ctx: Context, nodes: seq<Node>, i: nat, ghost listing: seq<Node>,
                     ghost booted0: set<string>, ghost failed0: set<string>, ghost h0: History)
      returns (ghost booted: set<string>, ghost failed: set<string>)
      requires Ready() && M().stage == Idle && MayCall(M(), ctx) && cfg.forcePowerOn && M().plan.forced == Some(listing)
      requires i < |nodes| && DistinctNames(nodes) && nodes[i] in Encountered(api.history)
      requires nodes[i] in listing && Managed(cfg, nodes[i]) && !nodes[i].ready
      requires ForcedFor(h0, api.history, nodes[..i], booted0, failed0) && api.world.clock >= h0.state.world.clock
      modifies api`world, api`history, state
      ensures Ready() && M().stage == Idle && api.world.clock >= old(api.world.clock)
      ensures M().plan.forced == Some(listing) && M().loop == old(M()).loop
      ensures ForcedFor(h0, api.history, nodes[..i + 1], booted, failed) && Grown(old(api.history), api.history)
    {
      ghost var before := api.history;
      NotYetForced(nodes, i, booted0 + failed0);
      var done := PowerOnAndMarkBooted(cfg, api, state, ctx, nodes[i]);
      ghost var up := done;
      booted := if up then booted0 + {nodes[i].name} else booted0;
      failed := if up then failed0 else failed0 + {nodes[i].name};
      ForcedOneMore(h0, before, api.history, nodes, i, booted0, failed0, up);
    }

    lemma ForcedOneMore(h0: History, before: History, h: History, nodes: seq<Node>, i: nat,
                        booted: set<string>, failed: set<string>, up: bool)
      requires i < |nodes| && DistinctNames(nodes) && Managed(cfg, nodes[i]) && !nodes[i].ready
      requires ForcedFor(h0, before, nodes[..i], booted, failed) && nodes[i].name !in booted + failed
      requires h0.state.world.clock <= before.state.world.clock <= h.state.world.clock
      requires h.state.memory.off == before.state.memory.off && Refusals(before) <= Refusals(h)
      requires !cfg.dryRun ==> OthersKept(before, h, nodes[i].name)
      requires up && !cfg.dryRun ==>
                 && Watch(cfg, h).work.owed == Watch(cfg, before).work.owed + {nodes[i].name}
                 && (Undisturbed(h, nodes[i].name) ==>
                       FreshlyBooted(FaceIn(h.state.world, nodes[i].name), before.state.world.clock,
                                     h.state.world.clock))
      requires !up ==>
                 && Watch(cfg, h).work.owed == Watch(cfg, before).work.owed
                 && (nodes[i].name in Refusals(h) || Unaddressed(cfg, nodes[i]))
      ensures ForcedFor(h0, h, nodes[..i + 1], if up then booted + {nodes[i].name} else booted,
                        if up then failed else failed + {nodes[i].name})
    {
      assert nodes[..i + 1] == nodes[..i] + [nodes[i]];
      assert DownNames(cfg, nodes[..i + 1]) == DownNames(cfg, nodes[..i]) + {nodes[i].name};
    }

    /** Between two loops no drain is under way, and nothing is owed, unless power-on is forced. */
    ghost predicate Between()
      reads api, state
    {
      Ready() && M().loop.drain.NoDrain? && (!cfg.forcePowerOn ==> M().work.owed == {})
    }

    /** The time of the last operation and all cooldowns are the same. */
    ghost predicate OnlyOffChanged(before: Memory, after: Memory) {
      after == before.(off := after.off)
    }

    // ----- One loop

    /** A recovery pass that began at h0 has ended at h. */
    ghost predicate RecoveredBetween(h0: History, h: History) {
      var roster := Watch(cfg, h).work.roster;
      && h.state.memory == h0.state.memory
      && roster.Some? && exists recovered, gaveUp :: Recovery.PassResult(cfg, h0, h, roster.value, recovered, gaveUp)
    }

    /** Forced power-on that began at h0 has ended at h. */
    ghost predicate ForcedBetween(h0: History, h: History) {
      var forced := Watch(cfg, h).plan.forced;
      || Unanswered(h0, h)
      || (forced.Some? && exists booted, failed :: ForcedFor(h0, h, forced.value, booted, failed))
    }

    ghost predicate ScaleUpOver(h0: History, h: History, done: bool) {
      exists n :: ScaledUpBetween(cfg, h0, h, done, n)
    }

    /** A scale-down that began at h0, with a listing, has ended at h: a host has accepted its shutdown, or
        in a dry run would have been asked for it; or there are too few eligible nodes, a gate denied, or the
        node is put back or an alarm raised. */
    ghost predicate ScaledDownBetween(h0: History, h: History, done: bool) {
      var k := Watch(cfg, h);
      var n := k.loop.candidate.name;
      if done && !cfg.dryRun then
        && k.stage == Sent(n)
        && RemembersShutdown(h0.state.memory, h.state.memory, n, h0.state.world.clock, h.state.world.clock)
      else
        && h.state.memory == h0.state.memory
        && (!done ==>
              || (h.Then? && h.event == Filtered(h.state.world.clock) && |k.work.eligible| <= cfg.minNodes)
              || GateDenied(h0, h, n)
              || (GaveUp(h0, h, k.loop.ctx)
                  && if cfg.dryRun then k.stage.Vetting?
                     else k.stage == RollingBack(n) && (k.loop.alarmed || PutBack(k, h.state.world, n))))
    }

    /** Nodes could not be listed, and nothing was remembered. */
    ghost predicate Stuck(h0: History, h: History) {
      Unanswered(h0, h) && h.state.memory == h0.state.memory
    }

    /** What a loop has done by where it ended. Its steps are divided by marks: the first is set when it has
        read the time, and the others after recovery, sweep, scale-up and scale-down. */
    ghost predicate WentThrough(marks: seq<History>, h: History, stop: Stop) {
      if stop.Unrecovered? then |marks| == 1 && Stuck(marks[0], h)
      else |marks| >= 2 && RecoveredBetween(marks[0], marks[1]) && AfterRecovery(marks, h, stop)
    }

    ghost predicate AfterRecovery(marks: seq<History>, h: History, stop: Stop)
      requires |marks| >= 2
    {
      if stop.Unswept? then |marks| == 2 && Stuck(marks[1], h)
      else |marks| >= 3 && SweptBetween(marks[1], marks[2]) && AfterSweep(marks, h, stop)
    }

    /** Scaling is thought of exactly if power-on is not forced and the loop began outside the global cooldown. */
    ghost predicate AfterSweep(marks: seq<History>, h: History, stop: Stop)
      requires |marks| >= 3
    {
      if stop.Forced? then cfg.forcePowerOn && |marks| == 3 && ForcedBetween(marks[2], h)
      else
        && !cfg.forcePowerOn
        && (stop.CoolingDown? <==>
              GlobalCooldownActive(marks[2].state.memory, Watch(cfg, marks[2]).loop.begun, cfg.cooldown))
        && (if stop.CoolingDown? then h == marks[2] else Scaling(marks, h, stop))
    }

    ghost predicate Scaling(marks: seq<History>, h: History, stop: Stop)
      requires |marks| >= 3
    {
      if stop.ScaledUp? then |marks| == 3 && ScaleUpOver(marks[2], h, true)
      else |marks| >= 4 && ScaleUpOver(marks[2], marks[3], false) && AfterScaleUp(marks, h, stop)
    }

    ghost predicate AfterScaleUp(marks: seq<History>, h: History, stop: Stop)
      requires |marks| >= 4
    {
      match stop
      case Unlisted => |marks| == 4 && Stuck(marks[3], h)
      case Panicked =>
        && |marks| == 4 && h.state.memory == marks[3].state.memory
        && h.Then? && h.event == Filtered(h.state.world.clock)
        && Watch(cfg, h).work.eligible == {} && cfg.minNodes < 0
      case ScaledDown => |marks| == 4 && ScaledDownBetween(marks[3], h, true)
      case Rotated =>
        && |marks| == 5 && ScaledDownBetween(marks[3], marks[4], false)
        && exists n, at :: RotatedBetween(marks[4], h, Some(n), at)
      case Rested =>
        && |marks| == 5 && ScaledDownBetween(marks[3], marks[4], false)
        && exists at :: RotatedBetween(marks[4], h, None, at)
      case _ => false
    }

    /** One reconcile loop, and where it ended. It fails only where a listing of nodes does, and panics only
        if the last of no eligible nodes was to be taken. Scaling is thought of exactly if the loop gets past
        recovery and sweep, power-on is not forced, and the time at which the loop began is outside the
        global cooldown; and then scale-up comes first, scale-down second, and rotation last. */
    method Reconcile(ctx: Context) returns (end: End, ghost stop: Stop)
      requires Between()
      modifies api, state
      ensures Between() && api.world.clock >= old(api.world.clock)
      ensures end == EndOf(stop)
      ensures !cfg.forcePowerOn ==> M().work.operations == if Operated(stop) then 1 else 0
      ensures WentThrough(api.marks, api.history, stop) && BeganAt(api.marks[0], old(api.history), ctx)
      ensures Scaled(stop) ==> M().plan.decided
      ensures !cfg.forcePowerOn && !Operated(stop) ==> OnlyOffChanged(old(state.View()), state.View())
    {
      var now := BeginLoop(ctx);
      end, stop := RecoverAndGoOn(ctx, now);
      if !cfg.forcePowerOn && !Operated(stop) {
        MemoryKept(api.marks, api.history, stop);
      }
    }

    /** Without an operation only the set of nodes held to be off can change. */
    lemma MemoryKept(marks: seq<History>, h: History, stop: Stop)
      requires WentThrough(marks, h, stop) && !cfg.forcePowerOn && !Operated(stop)
      ensures OnlyOffChanged(marks[0].state.memory, h.state.memory)
    {
    }

    ghost predicate BeganAt(h: History, before: History, ctx: Context) {
      h.Then? && h.past == before && h.event == Begin(ctx)
    }

    /** An operation was carried out, not only thought out in a dry run. */
    predicate Operated(stop: Stop) {
      !cfg.dryRun && (stop.ScaledUp? || stop.ScaledDown? || stop.Rotated?)
    }

    predicate Scaled(stop: Stop) {
      stop.ScaledUp? || stop.Unlisted? || stop.Panicked? || stop.ScaledDown? || stop.Rotated? || stop.Rested?
    }

    /** A loop has just begun. */
    ghost predicate JustBegun(ctx: Context, now: Time)
      reads api, state
    {
      && Between() && M().stage == Idle && M().work.roster.None? && M().loop.known.None?
      && M().loop.ctx == ctx && M().loop.begun == now && !M().loop.alarmed && M().loop.overdue.None?
      && M().loop.drain.NoDrain? && M().work.operations == 0 && M().plan == NO_PLAN
    }

    method BeginLoop(ctx: Context) returns (now: Time)
      requires Between()
      modifies api
      ensures JustBegun(ctx, now)
      ensures api.world.clock >= old(api.world.clock) && state.View() == old(state.View())
      ensures api.marks == [api.history] && BeganAt(api.history, old(api.history), ctx)
    {
      now := api.Begin(ctx);
      Permit(cfg, api.history);
      api.Mark();
    }

    /** The loop goes on, and has done nothing but to recover nodes. */
    ghost predicate Underway(ctx: Context, now: Time)
      reads api, state
    {
      && Between() && M().stage == Idle
      && M().loop.ctx == ctx && M().loop.begun == now && !M().loop.alarmed && M().loop.overdue.None?
      && M().loop.drain.NoDrain? && M().work.operations == 0
    }

    method Recover(ctx: Context) returns (ok: bool)
      requires JustBegun(ctx, M().loop.begun)
      modifies api`world, api`history
      ensures Underway(ctx, old(M()).loop.begun) && M().plan.forced.None?
      ensures api.world.clock >= old(api.world.clock) && state.View() == old(state.View())
      ensures if ok then RecoveredBetween(old(api.history), api.history) else Stuck(old(api.history), api.history)
    {
      ghost var recovered, gaveUp;
      ok, recovered, gaveUp := Recovery.RecoverUnexpectedlyBootedNodes(cfg, api, ctx);
    }

    method RecoverAndGoOn(ctx: Context, now: Time) returns (end: End, ghost stop: Stop)
      requires JustBegun(ctx, now) && api.marks == [api.history]
      modifies api`world, api`history, api`marks, state
      ensures Between() && api.world.clock >= old(api.world.clock)
      ensures end == EndOf(stop)
      ensures !cfg.forcePowerOn ==> M().work.operations == if Operated(stop) then 1 else 0
      ensures |api.marks| >= 1 && api.marks[0] == old(api.history) && WentThrough(api.marks, api.history, stop)
      ensures Scaled(stop) ==> M().plan.decided
    {
      var ok := Recover(ctx);
      if !ok {
        return Fine, Unrecovered;
      }
      api.Mark();
      end, stop := SweepAndGoOn(ctx, now);
    }

    /** Sweeps, unless in a dry run, and goes on with forced power-on or scaling. */
    method SweepAndGoOn(ctx: Context, now: Time) returns (end: End, ghost stop: Stop)
      requires Underway(ctx, now) && M().plan.forced.None? && |api.marks| == 2 && api.marks[1] == api.history
      modifies api`world, api`history, api`marks, state
      ensures Between() && api.world.clock >= old(api.world.clock) && M().loop.begun == now
      ensures end == EndOf(stop)
      ensures !stop.Unrecovered? && (Scaled(stop) ==> M().plan.decided)
      ensures !cfg.forcePowerOn ==> M().work.operations == if Operated(stop) then 1 else 0
      ensures |api.marks| >= 2 && api.marks[..2] == old(api.marks) && AfterRecovery(api.marks, api.history, stop)
    {
      var ok := MaybeSweep(ctx, now);
      if !ok {
        return Error, Unswept;
      }
      api.Mark();
      end, stop := ForceOrScale(ctx, now);
    }

    method MaybeSweep(ctx: Context, now: Time) returns (ok: bool)
      requires Underway(ctx, now) && M().plan.forced.None?
      modifies api`world, api`history, state
      ensures Underway(ctx, now) && M().plan.forced.None? && api.world.clock >= old(api.world.clock)
      ensures if ok then SweptBetween(old(api.history), api.history) && MayDecide(cfg, M(), state.View())
              else Stuck(old(api.history), api.history)
    {
      if cfg.dryRun {
        return true;
      }
      ok := Sweep(ctx);
    }

    method ForceOrScale(ctx: Context, now: Time) returns (end: End, ghost stop: Stop)
      requires Underway(ctx, now) && M().plan.forced.None? && MayDecide(cfg, M(), state.View())
      requires |api.marks| == 3 && api.marks[2] == api.history
      modifies api`world, api`history, api`marks, state
      ensures Between() && api.world.clock >= old(api.world.clock) && M().loop.begun == now
      ensures end == EndOf(stop)
      ensures !stop.Unrecovered? && !stop.Unswept? && (Scaled(stop) ==> M().plan.decided)
      ensures !cfg.forcePowerOn ==> M().work.operations == if Operated(stop) then 1 else 0
      ensures |api.marks| >= 3 && api.marks[..3] == old(api.marks) && AfterSweep(api.marks, api.history, stop)
    {
      if cfg.forcePowerOn {
        Force(ctx);
        return Fine, Forced;
      }
      if state.IsGlobalCooldownActive(now, cfg.cooldown) {
        return Fine, CoolingDown;
      }
      end, stop := Scale(ctx);
    }

    /** Whatever becomes of it, the loop ends after forced power-on. */
    method Force(ctx: Context)
      requires Underway(ctx, M().loop.begun) && M().plan.forced.None? && cfg.forcePowerOn
      modifies api`world, api`history, state
      ensures Ready() && api.world.clock >= old(api.world.clock) && M().loop == old(M()).loop
      ensures ForcedBetween(old(api.history), api.history)
    {
      ghost var booted, failed;
      var ok;
      ok, booted, failed := ForcePowerOnAllNodes(ctx);
    }

    /** Nothing was done in this loop so far, and something may be. */
    ghost predicate FreeToScale(ctx: Context)
      reads api, state
    {
      && Underway(ctx, M().loop.begun) && !cfg.forcePowerOn
      && !GlobalCooldownActive(state.View(), M().loop.begun, cfg.cooldown)
    }

    /** Scale up, or else down, or else rotate. */
    method Scale(ctx: Context) returns (end: End, ghost stop: Stop)
      requires FreeToScale(ctx) && MayDecide(cfg, M(), state.View())
      requires |api.marks| == 3 && api.marks[2] == api.history
      modifies api`world, api`history, api`marks, state
      ensures Between() && api.world.clock >= old(api.world.clock)
      ensures Scaled(stop) && end == EndOf(stop)
      ensures M().loop.begun == old(M()).loop.begun && M().plan.decided
      ensures M().work.operations == if Operated(stop) then 1 else 0
      ensures |api.marks| >= 3 && api.marks[..3] == old(api.marks) && Scaling(api.marks, api.history, stop)
    {
      ghost var n;
      var done;
      done, n := MaybeScaleUp(ctx);
      if done {
        return Fine, ScaledUp;
      }
      api.Mark();
      end, stop := ScaleDownOrRotate(ctx);
    }

    method ScaleDownOrRotate(ctx: Context) returns (end: End, ghost stop: Stop)
      requires FreeToScale(ctx) && M().plan.decided
      requires |api.marks| == 4 && api.marks[3] == api.history
      modifies api`world, api`history, api`marks, state
      ensures Between() && api.world.clock >= old(api.world.clock)
      ensures Scaled(stop) && !stop.ScaledUp? && end == EndOf(stop)
      ensures M().loop.begun == old(M()).loop.begun && M().plan.decided
      ensures M().work.operations == if Operated(stop) then 1 else 0
      ensures |api.marks| >= 4 && api.marks[..4] == old(api.marks) && AfterScaleUp(api.marks, api.history, stop)
    {
      var attempt := ScaleDown(ctx);
      match attempt {
        case NoList => return Error, Unlisted;
        case Crashed => return Panic, Panicked;
        case Down => return Fine, ScaledDown;
        case Kept =>
      }
      api.Mark();
      ghost var rotated, at := MaybeRotate(ctx);
      return Fine, if rotated.Some? then Stop.Rotated else Rested;
    }

    /** Lists the nodes and scales down. */
    method ScaleDown(ctx: Context) returns (attempt: Attempt)
      requires FreeToScale(ctx) && M().plan.decided
      modifies api`world, api`history, state
      ensures Ready() && M().work.owed == {} && api.world.clock >= old(api.world.clock)
      ensures M().loop.begun == old(M()).loop.begun && M().plan.decided && M().loop.ctx == ctx
      ensures M().loop.drain.NoDrain?
      ensures M().work.operations == if attempt.Down? && !cfg.dryRun then 1 else 0
      ensures match attempt
              case NoList => Stuck(old(api.history), api.history)
              case Crashed =>
                && state.View() == old(state.View())
                && api.history.Then? && api.history.event == Filtered(api.world.clock)
                && M().work.eligible == {} && cfg.minNodes < 0
              case Down => ScaledDownBetween(old(api.history), api.history, true)
              case Kept =>
                && ScaledDownBetween(old(api.history), api.history, false)
                && !M().stage.Emptied? && M().loop.overdue.None? && state.View() == old(state.View())
    {
      var all := ListManagedNodes(cfg, api, ctx);
      if all.None? {
        return NoList;
      }
      var eligible := FilterEligibleNodes(all.value);
      var done, panicked;
      ghost var n;
      done, panicked, n := MaybeScaleDown(ctx, eligible);
      attempt := if done then Down else if panicked then Crashed else Kept;
    }

    // ----- Restarts

    /** A new process has listed nodes twice, and holds the managed nodes of the second listing to be off
        that the first one lacked; or one of the listings failed. */
    ghost predicate HeldOff(before: Memory)
      reads api, state
    {
      if Denied(api.history) then state.View() == before
      else
        && M().work.roster.Some? && M().listing.Some?
        && state.View() == before.(off := before.off + Appeared(cfg, M().work.roster.value, M().listing.value))
    }

    /** Holds the managed nodes to be off that appear between two listings. */
    method RestorePoweredOffState()
      requires Ready() && M().stage == Restoring && M().work.roster.None? && MayCall(M(), Background)
      modifies api`world, api`history, state
      ensures Ready() && M().stage == Restoring && api.world.clock >= old(api.world.clock)
      ensures M().work.owed == old(M()).work.owed && M().loop == old(M()).loop
      ensures HeldOff(old(state.View()))
    {
      var known := KnownNames();
      if known.None? {
        return;
      }
      var managed := ListManagedNodes(cfg, api, Background);
      if managed.None? {
        return;
      }
      HoldMissingOff(managed.value, known.value);
      AppearedAre(managed.value, known.value, M().work.roster.value, M().listing.value);
    }

    /** Names of the nodes that a listing lacks. */
    ghost function Missing(nodes: seq<Node>, known: set<string>): set<string> {
      set x | x in nodes && x.name !in known :: x.name
    }

    lemma AppearedAre(nodes: seq<Node>, known: set<string>, first: seq<Node>, last: seq<Node>)
      requires Lists(nodes, ManagedOf(cfg, last)) && known == set x | x in first :: x.name
      ensures Missing(nodes, known) == Appeared(cfg, first, last)
    {
      assert forall x :: x in nodes <==> x in Elements(nodes);
    }

    method HoldMissingOff(nodes: seq<Node>, known: set<string>)
      requires Ready() && M().stage == Restoring && M().work.roster.Some? && !Denied(api.history)
      requires known == set x | x in M().work.roster.value :: x.name
      modifies api`world, api`history, state
      ensures Ready() && api.world == old(api.world) && M() == old(M()) && !Denied(api.history)
      ensures state.View() == old(state.View()).(off := old(state.View()).off + Missing(nodes, known))
    {
      for i := 0 to |nodes|
        invariant Ready() && api.world == old(api.world) && M() == old(M()) && !Denied(api.history)
        invariant state.View() == old(state.View()).(off := old(state.View()).off + Missing(nodes[..i], known))
      {
        assert nodes[..i + 1] == nodes[..i] + [nodes[i]];
        if nodes[i].name !in known {
          Remembering(cfg, api, state, Off(nodes[i].name));
        }
      }
      assert nodes[..|nodes|] == nodes;
    }

    method KnownNames() returns (names: Option<set<string>>)
      requires Ready() && M().stage == Restoring && M().work.roster.None? && MayCall(M(), Background)
      modifies api`world, api`history
      ensures M().loop == old(M()).loop
      ensures Ready() && M().stage == Restoring && api.world.clock >= old(api.world.clock)
      ensures M().work.owed == old(M()).work.owed && state.View() == old(state.View())
      ensures match names
              case None => Denied(api.history)
              case Some(known) => M().work.roster.Some? && known == set x | x in M().work.roster.value :: x.name
    {
      var reply := api.ListNodes(Background);
      Permit(cfg, api.history);
      names := if reply.Refused? then None else Some(set x | x in reply.nodes :: x.name);
    }
  }

  /** Any run of the autoscaler against any cluster: it starts, reconciles any number of times, and may
      die and start again, as it does after a panic. A loop whose context expires in the middle is a process
      that dies there. Whatever is proved of truthful, justified histories holds of every such run and every
      part of it. */
  method Run(cfg: Config, api: Api, rounds: nat)
    requires Orderly(cfg, api)
    modifies api
    ensures Orderly(cfg, api)
    ensures forall part | Continues(api.history, part) :: Truthful(part) && Justified(cfg, part)
  {
    var r := new Reconciler(cfg, api);
    for i := 0 to rounds
      invariant r.api == api && r.cfg == cfg && r.Between() && fresh(r.state)
    {
      var dies: bool := *;
      if !dies {
        var ctx: Context := *;
        var panicked := Round(r, ctx);
        dies := panicked;
      }
      if dies {
        r := new Reconciler(cfg, api);
      }
    }
    Open(cfg, api.history);
    forall part | Continues(api.history, part) ensures Truthful(part) && Justified(cfg, part) {
      EveryPartToo(cfg, api.history, part);
    }
  }

  /** One loop and the pause after it. */
  method Round(r: Reconciler, ctx: Context) returns (panicked: bool)
    requires r.Between()
    modifies r.api, r.state
    ensures r.Between()
  {
    var end;
    ghost var stop;
    end, stop := r.Reconcile(ctx);
    panicked := end.Panic?;
    if !panicked {
      var pause: Duration := *;
      r.api.Sleep(pause);
      Permit(r.cfg, r.api.history);
    }
  }
}
