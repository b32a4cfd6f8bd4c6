/** When a node is made schedulable, and when its off mark is removed: in the rollback of its own shutdown,
    after its host was powered on, or in its recovery, and in which order, read off the history. A rollback
    removes the mark first; everywhere else the node is made schedulable first. */
module BootOrder {
  import opened Prelude
  import opened Clock
  import opened Cluster
  import opened Settings
  import opened Journal
  import opened PlainTerms
  import opened Rollback

  predicate Woken(e: Event, n: string) {
    e.Called? && e.call.PowerOn? && e.call.name == n && e.reply.Done?
  }

  /** In this loop the host of n was powered on. */
  ghost predicate PoweredOnBefore(h: History, n: string) {
    h.Then? && !StartsLoop(h.event) && (Woken(h.event, n) || PoweredOnBefore(h.past, n))
  }

  predicate StoresBootTime(e: Event, n: string) {
    && Write(e) && e.call.PatchNode? && e.call.name == n
    && "cba.dev/booted-at" in e.call.patch && e.call.patch["cba.dev/booted-at"].Some?
  }

  /** And since then a boot time was stored for it. */
  ghost predicate StampedSincePowerOn(h: History, n: string) {
    && h.Then? && !StartsLoop(h.event) && !Woken(h.event, n)
    && ((StoresBootTime(h.event, n) && PoweredOnBefore(h.past, n)) || StampedSincePowerOn(h.past, n))
  }

  predicate Uncordons(e: Event, n: string) {
    Write(e) && e.call.UpdateNode? && e.call.node.name == n && !e.call.node.unschedulable
  }

  ghost predicate UncordonedBefore(h: History, n: string) {
    h.Then? && !StartsLoop(h.event) && (Uncordons(h.event, n) || UncordonedBefore(h.past, n))
  }

  /** In this loop n was read to be schedulable. */
  ghost predicate ReadOpen(h: History, n: string) {
    && h.Then? && !StartsLoop(h.event)
    && ((exists x :: x in NodesIn(h.event) && x.name == n && !x.unschedulable) || ReadOpen(h.past, n))
  }

  lemma {:induction false} MetOpen(h: History, x: Node)
    requires x in NodesMet(h) && !x.unschedulable
    ensures ReadOpen(h, x.name)
  {
    if x !in NodesIn(h.event) {
      MetOpen(h.past, x);
    }
  }

  /** In this loop a step of a rollback failed. */
  ghost predicate Alarmed(h: History) {
    h.Then? && !StartsLoop(h.event) && (h.event.Alarm? || Alarmed(h.past))
  }

  /** The nodes as listed first in this loop. */
  ghost function FirstListing(h: History): Option<seq<Node>> {
    match h
    case Start(_) => None
    case Then(past, _, e, _) =>
      if StartsLoop(e) then None
      else if FirstListing(past).Some? then FirstListing(past)
      else if e.Called? && e.call.ListNodes? && e.reply.Nodes? then Some(e.reply.nodes)
      else None
  }

  ghost predicate BeforeSweep(h: History) {
    h.Start? || StartsLoop(h.event) || (!h.event.Swept? && BeforeSweep(h.past))
  }

  /** Managed and up, but cordoned and marked off, not less than two minutes ago. */
  predicate Stranded(cfg: Config, x: Node, now: Time) {
    && IsManaged(cfg, x) && x.ready && x.unschedulable && HasMark(x)
    && (MarkTime(x).Some? ==> Sub(now, MarkTime(x).value) >= 120_000_000_000)
  }

  /** The recovery pass of this loop is not over, and its listing shows n stranded. */
  ghost predicate FoundStranded(cfg: Config, h: History, n: string) {
    && BeforeSweep(h) && FirstListing(h).Some?
    && exists x :: x in FirstListing(h).value && x.name == n && Stranded(cfg, x, h.state.world.clock)
  }

  lemma NeedPlainly(cfg: Config, x: Node, now: Time)
    ensures Managed(cfg, x) && NeedsRecovery(cfg, x, now) <==> Stranded(cfg, x, now)
  {
    MarkPlainly(x, BLANK);
    if Managed(cfg, x) {
      ManagedIsNeverIgnored(cfg, x);
    }
  }

  // ----- What the monitor knows of it

  ghost predicate Booked(h: History, m: Monitor) {
    && (forall n | n in m.work.powered :: PoweredOnBefore(h, n))
    && (forall n | n in m.work.powered && n in m.work.stamped :: StampedSincePowerOn(h, n))
    && (forall n | n in m.work.released :: UncordonedBefore(h, n))
    && m.work.roster == FirstListing(h) && (m.loop.known.None? ==> BeforeSweep(h))
  }

  lemma UpdateBooked(h: History, m: Monitor, node: Node)
    requires h.Then? && Write(h.event) && h.event.call == UpdateNode(node) && Booked(h.past, m)
    ensures Booked(h, Rescheduled(m, node.name, node.unschedulable))
  {
  }

  lemma PatchBooked(h: History, m: Monitor, n: string, patch: Patch)
    requires h.Then? && Write(h.event) && h.event.call == PatchNode(n, patch) && Booked(h.past, m)
    ensures Booked(h, Annotated(m, n, patch, h.event.reply))
  {
    var k := Annotated(m, n, patch, h.event.reply);
    assert k.work.powered == m.work.powered && k.work.released == m.work.released && k.work.roster == m.work.roster;
    assert k.work.stamped == if StoresBootTime(h.event, n) then m.work.stamped + {n} else m.work.stamped;
  }

  lemma ReadBooked(h: History, m: Monitor)
    requires h.Then? && h.event.Called? && !Write(h.event) && Booked(h.past, m)
    ensures Booked(h, AfterCall(m, h.event.call, h.event.reply))
  {
  }

  lemma NoteBooked(cfg: Config, h: History, m: Monitor)
    requires h.Then? && !h.event.Called? && Booked(h.past, m)
    requires Allowed(cfg, m, h.past.state, h.seen, h.event)
    ensures Booked(h, After(cfg, m, h.past.state.memory, h.seen, h.event))
  {
  }

  lemma {:induction false} AlwaysBooked(cfg: Config, h: History)
    requires Justified(cfg, h)
    ensures Booked(h, Replay(cfg, h))
  {
    if h.Then? {
      AlwaysBooked(cfg, h.past);
      var m := Replay(cfg, h.past);
      if h.event.Called? && Write(h.event) {
        match h.event.call
        case UpdateNode(node) => UpdateBooked(h, m, node);
        case PatchNode(n, patch) => PatchBooked(h, m, n, patch);
      } else if h.event.Called? {
        ReadBooked(h, m);
      } else {
        NoteBooked(cfg, h, m);
      }
    }
  }

  lemma NeedIsStranded(cfg: Config, h: History, m: Monitor, n: string)
    requires Booked(h, m) && InNeed(cfg, m, n, h.state.world.clock)
    ensures FoundStranded(cfg, h, n)
  {
    var now := h.state.world.clock;
    var x :| x in m.work.roster.value && x.name == n && Managed(cfg, x) && NeedsRecovery(cfg, x, now);
    NeedPlainly(cfg, x, now);
  }

  lemma UncordonPermitted(cfg: Config, h: History, n: string)
    requires Justified(cfg, h) && h.Then? && Uncordons(h.event, n)
    ensures MayRelease(cfg, Replay(cfg, h.past), n, h.past.state.world.clock)
  {
  }

  /** What the monitor knows of an acknowledged mark and of the rollback. */
  ghost predicate Told(h: History, m: Monitor) {
    && (m.loop.alarmed ==> Alarmed(h))
    && (Active(m.stage) && LeftMarked(h, m.stage.name) ==> m.loop.candidate.markKnown && !m.loop.retracted)
    && (Active(m.stage) && !m.stage.RollingBack? ==> !m.loop.retracted)
  }

  lemma UpdateTold(cfg: Config, h: History, m: Monitor, node: Node)
    requires h.Then? && Write(h.event) && h.event.call == UpdateNode(node) && Told(h.past, m)
    requires node.unschedulable ==> m.stage == Vetting(node.name, |Chain(cfg)|)
    ensures Told(h, Rescheduled(m, node.name, node.unschedulable))
  {
  }

  lemma PatchTold(cfg: Config, h: History, m: Monitor, n: string, patch: Patch)
    requires h.Then? && Write(h.event) && h.event.call == PatchNode(n, patch) && Told(h.past, m)
    requires KnownPatch(m, n, patch, h.past.state.world.clock)
    requires m.stage.RollingBack? ==> patch == CLEAR_PATCH && n == m.stage.name && m.loop.candidate.markKnown
    requires h.event.reply.Done? || h.event.reply.Refused?
    ensures Told(h, Annotated(m, n, patch, h.event.reply))
  {
  }

  lemma ReadTold(h: History, m: Monitor)
    requires h.Then? && h.event.Called? && !Write(h.event) && Told(h.past, m)
    ensures Told(h, AfterCall(m, h.event.call, h.event.reply))
  {
    ReadKeeps(m, h.event.call, h.event.reply);
    CallKeepsAlarm(m, h.event.call, h.event.reply);
  }

  lemma CallKeepsAlarm(m: Monitor, call: Call, reply: Reply)
    requires !((call.UpdateNode? || call.PatchNode?) && Applied(reply))
    ensures var k := AfterCall(m, call, reply);
            && k.loop.alarmed == m.loop.alarmed && k.loop.retracted == m.loop.retracted
            && (k.stage.RollingBack? <==> m.stage.RollingBack?)
  {
  }

  lemma NoteTold(cfg: Config, h: History, m: Monitor)
    requires h.Then? && !h.event.Called? && Told(h.past, m)
    requires Allowed(cfg, m, h.past.state, h.seen, h.event)
    ensures Told(h, After(cfg, m, h.past.state.memory, h.seen, h.event))
  {
  }

  lemma {:induction false} AlwaysTold(cfg: Config, h: History)
    requires Truthful(h) && Justified(cfg, h)
    ensures Told(h, Replay(cfg, h))
  {
    if h.Then? {
      AlwaysTold(cfg, h.past);
      StepTold(cfg, h, Replay(cfg, h.past));
    }
  }

  lemma StepTold(cfg: Config, h: History, m: Monitor)
    requires Truthful(h) && Justified(cfg, h) && h.Then? && m == Replay(cfg, h.past) && Told(h.past, m)
    ensures Told(h, Replay(cfg, h))
  {
    if h.event.Called? && Write(h.event) {
      match h.event.call
      case UpdateNode(node) => UpdateTold(cfg, h, m, node);
      case PatchNode(n, patch) =>
        PatchInRollback(cfg, m, h.past.state.world.clock, h.seen, n, patch, h.event.reply);
        PatchTold(cfg, h, m, n, patch);
    } else if h.event.Called? {
      ReadTold(h, m);
    } else {
      NoteTold(cfg, h, m);
    }
  }

  /** A node is made schedulable only in the rollback of its shutdown, with no acknowledged mark left on it
      unless its removal failed; or when its host was powered on and its boot time has been stored since; or
      in recovery, because it was listed stranded. */
  lemma UncordonHasReason(cfg: Config, h: History, n: string)
    requires Lawful(h) && Disciplined(cfg, h) && h.Then? && Uncordons(h.event, n)
    ensures || (InRollback(h.past, n) && (LeftMarked(h.past, n) ==> Alarmed(h.past)))
            || StampedSincePowerOn(h.past, n) || FoundStranded(cfg, h.past, n)
  {
    Open(cfg, h);
    UncordonPermitted(cfg, h, n);
    AlwaysBooked(cfg, h.past);
    AlwaysTold(cfg, h.past);
    RollbackStage(cfg, h.past, n);
    var m := Replay(cfg, h.past);
    if !m.stage.RollingBack? && !(n in m.work.powered && n in m.work.stamped) {
      NeedIsStranded(cfg, h.past, m, n);
    }
  }

  predicate RemovesMark(e: Event, n: string) {
    && Write(e) && e.call.PatchNode? && e.call.name == n
    && "cba.dev/was-powered-off" in e.call.patch && e.call.patch["cba.dev/was-powered-off"].None?
  }

  lemma RemovalPermitted(cfg: Config, h: History, n: string)
    requires Justified(cfg, h) && h.Then? && RemovesMark(h.event, n)
    ensures var m, now := Replay(cfg, h.past), h.past.state.world.clock;
            || (m.stage.RollingBack? && n == m.stage.name)
            || (n in m.work.powered
                && (n in m.work.released || exists x :: x in NodesMet(h.past) && x.name == n && !x.unschedulable))
            || (InNeed(cfg, m, n, now) && n in m.work.released && StoresBootTime(h.event, n))
  {
  }

  /** Its off mark is removed only in the rollback of its shutdown; or when its host was powered on, after the
      node was made or read to be schedulable; or in recovery, after it was made schedulable, and with the same
      patch that stores its boot time. */
  lemma MarkRemovalHasReason(cfg: Config, h: History, n: string)
    requires Lawful(h) && Disciplined(cfg, h) && h.Then? && RemovesMark(h.event, n)
    ensures || InRollback(h.past, n)
            || (PoweredOnBefore(h.past, n) && (UncordonedBefore(h.past, n) || ReadOpen(h.past, n)))
            || (FoundStranded(cfg, h.past, n) && UncordonedBefore(h.past, n) && StoresBootTime(h.event, n))
  {
    Open(cfg, h);
    RemovalPermitted(cfg, h, n);
    AlwaysBooked(cfg, h.past);
    RollbackStage(cfg, h.past, n);
    var m := Replay(cfg, h.past);
    if InNeed(cfg, m, n, h.past.state.world.clock) {
      NeedIsStranded(cfg, h.past, m, n);
    }
    forall x | x in NodesMet(h.past) && x.name == n && !x.unschedulable ensures ReadOpen(h.past, n) {
      MetOpen(h.past, x);
    }
  }
}
