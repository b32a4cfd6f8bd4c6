/** How long a drain may take and what it must have seen before it cordons, read off the history: no call of
    a drain is made under a later deadline than its own, and none of a loop under a later one than the loop's. */
module DrainDeadline {
  import opened Prelude
  import opened Clock
  import opened Cluster
  import opened Settings
  import opened Journal
  import opened Findings
  import opened Rollback

  /** The drain under way in this loop: of which node, and when it started. It is over when it ends, or when
      an eviction is refused for another reason than that it is too early, in conflict, or that the pod is gone. */
  ghost function DrainUnderWay(h: History): Option<(string, Time)> {
    match h
    case Start(_) => None
    case Then(past, seen, e, _) =>
      if StartsLoop(e) || e.DrainEnds? || RefusesEviction(e) then None
      else if e.DrainStarts? then Some((e.name, seen.clock))
      else DrainUnderWay(past)
  }

  predicate RefusesEviction(e: Event) {
    && e.Called? && e.call.Evict? && e.reply.Refused?
    && e.reply.error != TooManyRequests && e.reply.error != Conflict && e.reply.error != NotFound
  }

  /** The end of a drain that starts at that time: a quarter of an hour later, unless configured otherwise. */
  function LastMoment(cfg: Config, start: Time): Time {
    start + if cfg.drainTimeout <= 0 then 900_000_000_000 else cfg.drainTimeout
  }

  /** The monitor knows of the drain and its end. */
  ghost predicate Limited(cfg: Config, h: History, m: Monitor) {
    match DrainUnderWay(h)
    case None => m.loop.drain.NoDrain?
    case Some(d) => m.loop.drain.DrainUntil? && m.loop.drain.at == LastMoment(cfg, d.1) && m.loop.candidate.name == d.0
  }

  lemma CallLimited(cfg: Config, h: History, m: Monitor)
    requires h.Then? && h.event.Called? && Limited(cfg, h.past, m)
    ensures Limited(cfg, h, AfterCall(m, h.event.call, h.event.reply))
  {
  }

  lemma NoteLimited(cfg: Config, h: History, m: Monitor)
    requires h.Then? && !h.event.Called? && Limited(cfg, h.past, m)
    requires Allowed(cfg, m, h.past.state, h.seen, h.event)
    ensures Limited(cfg, h, After(cfg, m, h.past.state.memory, h.seen, h.event))
  {
  }

  lemma {:induction false} AlwaysLimited(cfg: Config, h: History)
    requires Justified(cfg, h)
    ensures Limited(cfg, h, Replay(cfg, h))
  {
    if h.Then? {
      AlwaysLimited(cfg, h.past);
      if h.event.Called? {
        CallLimited(cfg, h, Replay(cfg, h.past));
      } else {
        NoteLimited(cfg, h, Replay(cfg, h.past));
      }
    }
  }

  /** The call is made under a deadline no later than that. */
  predicate Before(ctx: Context, t: Time) {
    ctx.Deadline? && ctx.at <= t
  }

  /** Nothing is answered under an expired context. */
  lemma AnsweredBefore(h: History, t: Time)
    requires Truthful(h) && h.Then? && h.event.Called? && Before(h.event.ctx, t)
    ensures !h.event.reply.Refused? ==> h.seen.clock <= t
  {
  }

  lemma CallPermitted(cfg: Config, h: History)
    requires Justified(cfg, h) && h.Then? && h.event.Called?
    ensures MayCall(Replay(cfg, h.past), h.event.ctx)
    ensures CallAllowed(cfg, Replay(cfg, h.past), h.past.state.world.clock, h.seen, h.event.call, h.event.reply)
  {
  }

  /** Every call during a drain is made under a deadline no later than the end of the drain's time, and so
      nothing is answered after that: no pod is listed or evicted, and the drain is not completed. */
  lemma DrainCallsInTime(cfg: Config, h: History, n: string, start: Time)
    requires Lawful(h) && Disciplined(cfg, h) && h.Then? && h.event.Called?
    requires DrainUnderWay(h.past) == Some((n, start))
    ensures Before(h.event.ctx, start + if cfg.drainTimeout <= 0 then 900_000_000_000 else cfg.drainTimeout)
    ensures !h.event.reply.Refused? ==>
              h.seen.clock <= start + if cfg.drainTimeout <= 0 then 900_000_000_000 else cfg.drainTimeout
  {
    Open(cfg, h);
    CallPermitted(cfg, h);
    AlwaysLimited(cfg, h.past);
    AnsweredBefore(h, LastMoment(cfg, start));
  }

  /** Between its polls a drain pauses for two seconds at most. */
  lemma DrainPausesAreShort(cfg: Config, h: History)
    requires Lawful(h) && Disciplined(cfg, h) && h.Then? && h.event.Waited? && DrainUnderWay(h.past).Some?
    ensures h.event.d <= 2_000_000_000
  {
    Open(cfg, h);
    AlwaysLimited(cfg, h.past);
    PausePermitted(cfg, h);
  }

  lemma PausePermitted(cfg: Config, h: History)
    requires Justified(cfg, h) && h.Then? && h.event.Waited?
    ensures Replay(cfg, h.past).loop.drain.DrainUntil? ==> h.event.d <= 2 * SECOND
  {
  }

  predicate Cordoning(call: Call) {
    call.UpdateNode? && call.node.unschedulable
  }

  /** And outside of a drain nothing of it happens: no listing of a node's pods, no eviction, no listing of
      attachments, and no cordon. */
  lemma OnlyInDrain(cfg: Config, h: History)
    requires Lawful(h) && Disciplined(cfg, h) && h.Then? && h.event.Called?
    requires h.event.call.ListPods? || h.event.call.Evict? || h.event.call.ListAttachments? || Cordoning(h.event.call)
    ensures DrainUnderWay(h.past).Some?
    ensures h.event.call.ListPods? ==> h.event.call.on == DrainUnderWay(h.past).value.0
    ensures Cordoning(h.event.call) && Write(h.event) ==> h.event.call.node.name == DrainUnderWay(h.past).value.0
  {
    Open(cfg, h);
    CallPermitted(cfg, h);
    AlwaysLimited(cfg, h.past);
    AlwaysTracked(cfg, h.past);
  }

  // ----- The completed drain

  /** The last entry finds, in time, no volume attached any more. */
  ghost predicate Completes(cfg: Config, h: History, n: string)
    requires h.Then?
  {
    && h.event.Called? && h.event.call == ListAttachments && h.event.reply.Attachments?
    && NothingAttached(h.seen.attachments, n)
    && DrainUnderWay(h.past).Some? && DrainUnderWay(h.past).value.0 == n
    && h.seen.clock <= LastMoment(cfg, DrainUnderWay(h.past).value.1)
  }

  /** A drain of n was completed in time since a candidate was picked. */
  ghost predicate CompletedInTime(cfg: Config, h: History, n: string) {
    && h.Then? && !StartsLoop(h.event) && !h.event.Chosen?
    && (Completes(cfg, h, n) || CompletedInTime(cfg, h.past, n))
  }

  ghost predicate Completed(cfg: Config, h: History, s: Stage) {
    s.Detached? || s.Marked? || s.Sent? ==> CompletedInTime(cfg, h, s.name)
  }

  lemma CallCompleted(cfg: Config, h: History, m: Monitor)
    requires h.Then? && h.event.Called? && Completed(cfg, h.past, m.stage) && Limited(cfg, h.past, m)
    requires m.stage.Unmounted? ==> m.stage.name == m.loop.candidate.name
    requires StepTruthful(h.past.state.memory, h.seen, h.event, h.state)
    requires MayCall(m, h.event.ctx)
    requires CallAllowed(cfg, m, h.past.state.world.clock, h.seen, h.event.call, h.event.reply)
    ensures Completed(cfg, h, AfterCall(m, h.event.call, h.event.reply).stage)
  {
    if h.event.call.ListAttachments? {
      AttachmentsCompleted(cfg, h, m);
    }
  }

  lemma AttachmentsCompleted(cfg: Config, h: History, m: Monitor)
    requires h.Then? && h.event.Called? && h.event.call.ListAttachments? && Limited(cfg, h.past, m)
    requires m.stage.Unmounted? ==> m.stage.name == m.loop.candidate.name
    requires StepTruthful(h.past.state.memory, h.seen, h.event, h.state)
    requires MayCall(m, h.event.ctx) && m.loop.drain.DrainUntil?
    ensures m.stage.Unmounted? && AfterCall(m, h.event.call, h.event.reply).stage.Detached? ==>
              AfterCall(m, h.event.call, h.event.reply).stage.name == m.stage.name && Completes(cfg, h, m.stage.name)
    ensures !m.stage.Unmounted? ==> AfterCall(m, h.event.call, h.event.reply).stage == m.stage
  {
  }

  lemma NoteCompleted(cfg: Config, h: History, m: Monitor)
    requires h.Then? && !h.event.Called? && Completed(cfg, h.past, m.stage)
    ensures Completed(cfg, h, After(cfg, m, h.past.state.memory, h.seen, h.event).stage)
  {
  }

  lemma {:induction false} AlwaysCompleted(cfg: Config, h: History)
    requires Truthful(h) && Justified(cfg, h)
    ensures Completed(cfg, h, Replay(cfg, h).stage)
  {
    if h.Then? {
      AlwaysCompleted(cfg, h.past);
      if h.event.Called? {
        AlwaysLimited(cfg, h.past);
        AlwaysTracked(cfg, h.past);
        CallPermitted(cfg, h);
        CallCompleted(cfg, h, Replay(cfg, h.past));
      } else {
        NoteCompleted(cfg, h, Replay(cfg, h.past));
      }
    }
  }

  /** A host is asked to shut down only after its node's drain was completed in time. */
  lemma ShutdownFollowsDrainInTime(cfg: Config, h: History, n: string)
    requires Lawful(h) && Disciplined(cfg, h)
    requires h.Then? && h.event.Called? && h.event.call == Shutdown(n)
    ensures CompletedInTime(cfg, h.past, n)
  {
    Open(cfg, h);
    CallPermitted(cfg, h);
    AlwaysCompleted(cfg, h.past);
  }

  // ----- The look at the pods before the cordon

  /** The drain under way has listed the pods of n at some time, and none of them had to stay. */
  ghost predicate NoneStays(h: History, n: string) {
    && h.Then? && !StartsLoop(h.event) && !h.event.DrainStarts?
    && (|| (&& h.event.Called? && h.event.call == ListPods(n) && h.event.reply.Pods?
            && forall p | p in h.event.reply.pods :: !MustStay(p))
        || NoneStays(h.past, n))
  }

  ghost predicate ScreenHeld(h: History, m: Monitor) {
    m.loop.drain.DrainUntil? && m.loop.drain.screened ==> NoneStays(h, m.loop.candidate.name)
  }

  lemma CallScreenHeld(cfg: Config, h: History, m: Monitor)
    requires h.Then? && h.event.Called? && ScreenHeld(h.past, m)
    requires CallAllowed(cfg, m, h.past.state.world.clock, h.seen, h.event.call, h.event.reply)
    ensures ScreenHeld(h, AfterCall(m, h.event.call, h.event.reply))
  {
    if h.event.call.ListPods? && h.event.reply.Pods? {
      forall p | p in h.event.reply.pods ensures DrainBlocker(p) <==> MustStay(p) {
        BlockersMustStay(p);
      }
    }
  }

  lemma NoteScreenHeld(cfg: Config, h: History, m: Monitor)
    requires h.Then? && !h.event.Called? && ScreenHeld(h.past, m)
    requires Allowed(cfg, m, h.past.state, h.seen, h.event)
    ensures ScreenHeld(h, After(cfg, m, h.past.state.memory, h.seen, h.event))
  {
  }

  lemma {:induction false} AlwaysScreenHeld(cfg: Config, h: History)
    requires Justified(cfg, h)
    ensures ScreenHeld(h, Replay(cfg, h))
  {
    if h.Then? {
      AlwaysScreenHeld(cfg, h.past);
      if h.event.Called? {
        CallPermitted(cfg, h);
        CallScreenHeld(cfg, h, Replay(cfg, h.past));
      } else {
        NoteScreenHeld(cfg, h, Replay(cfg, h.past));
      }
    }
  }

  /** A node is cordoned only after the drain has listed its pods and found none that has to stay. */
  lemma CordonFollowsScreening(cfg: Config, h: History)
    requires Lawful(h) && Disciplined(cfg, h) && h.Then? && Write(h.event) && Cordoning(h.event.call)
    ensures NoneStays(h.past, h.event.call.node.name)
  {
    Open(cfg, h);
    CallPermitted(cfg, h);
    AlwaysScreenHeld(cfg, h.past);
    AlwaysTracked(cfg, h.past);
  }

  // ----- The deadline of the loop

  /** The context the loop was started with. */
  ghost function LoopContext(h: History): Context {
    match h
    case Start(_) => Background
    case Then(past, _, e, _) =>
      match e
      case Begin(ctx) => ctx
      case Restarted => Background
      case _ => LoopContext(past)
  }

  lemma {:induction false} ContextKept(cfg: Config, h: History)
    ensures Replay(cfg, h).loop.ctx == LoopContext(h)
  {
    if h.Then? {
      ContextKept(cfg, h.past);
      if h.event.Called? {
        CallKeepsLoop(Replay(cfg, h.past), h.event.call, h.event.reply);
      }
    }
  }

  /** A loop with a deadline makes every call under this or an earlier deadline, and gets no answer after it. */
  lemma CallsWithinLoop(cfg: Config, h: History, t: Time)
    requires Lawful(h) && Disciplined(cfg, h) && h.Then? && h.event.Called? && LoopContext(h.past) == Deadline(t)
    ensures Before(h.event.ctx, t) && (!h.event.reply.Refused? ==> h.seen.clock <= t)
  {
    Open(cfg, h);
    CallPermitted(cfg, h);
    ContextKept(cfg, h.past);
    AnsweredBefore(h, t);
  }
}
