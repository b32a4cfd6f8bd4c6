/** Powering nodes on, and the bookkeeping on nodes and in memory that goes with it. */
module Power {
  import opened Prelude
  import opened Clock
  import opened Cluster
  import opened Settings
  import opened Journal
  import opened ApiServer
  import opened Scheduling
  import opened Tracker
  import opened NodeLists

  /** The face of n is what it was before the patch, with the patch if it was applied. */
  ghost predicate FacePatched(before: History, h: History, n: string, patch: Patch, applied: bool) {
    Undisturbed(h, n) ==>
      && Undisturbed(before, n)
      && var f, g := FaceIn(before.state.world, n), FaceIn(h.state.world, n);
         f.Some? == g.Some? && (f.Some? ==> g.value == if applied then PatchedFace(f.value, patch) else f.value)
  }

  /** The patches there are, and when. */
  ghost predicate MayPatch(cfg: Config, m: Monitor, ctx: Context, n: string, patch: Patch, t: Time) {
    && MayCall(m, ctx)
    && (|| (patch == MarkPatch(t) && m.stage == Detached(n) && m.loop.overdue.None?)
        || (patch == CLEAR_PATCH && MayClear(m, n))
        || MayStamp(cfg, m, n, patch, t))
  }

  /** Outside of a rollback and of recovery a mark is removed from a node that was made or seen schedulable. */
  ghost predicate MayForget(cfg: Config, h: History, n: string, patch: Patch) {
    ClearsMark(patch) && BOOTED_AT !in patch && !Watch(cfg, h).stage.RollingBack? ==> OpenSeen(cfg, h, n)
  }

  lemma PatchPermitted(cfg: Config, h: History, ctx: Context, n: string, patch: Patch, reply: Reply)
    requires h.Then? && h.event == Called(ctx, PatchNode(n, patch), reply) && Disciplined(cfg, h.past) && !cfg.dryRun
    requires MayPatch(cfg, Watch(cfg, h.past), ctx, n, patch, h.past.state.world.clock)
    requires MayForget(cfg, h.past, n, patch)
    ensures Disciplined(cfg, h)
    ensures var m := Watch(cfg, h.past); Watch(cfg, h) == if Applied(reply) then Annotated(m, n, patch, reply) else m
  {
    Permit(cfg, h);
  }

  /** Merges annotations into a node, whatever its version. */
  method ApplyPatch(cfg: Config, api: Api, ctx: Context, n: string, patch: Patch) returns (reply: Reply)
    requires Orderly(cfg, api) && !cfg.dryRun
    requires MayPatch(cfg, Watch(cfg, api.history), ctx, n, patch, api.world.clock)
    requires MayForget(cfg, api.history, n, patch)
    modifies api`world, api`history
    ensures Orderly(cfg, api) && api.history.state.memory == old(api.history.state.memory)
    ensures api.world.clock >= old(api.world.clock)
    ensures reply.Done? || (reply.Refused? && DeniedOn(old(api.history), api.history, n))
    ensures var m := old(Watch(cfg, api.history));
            Watch(cfg, api.history) == if Applied(reply) then Annotated(m, n, patch, reply) else m
    ensures FacePatched(old(api.history), api.history, n, patch, Applied(reply))
    ensures OthersKept(old(api.history), api.history, n) && Grown(old(api.history), api.history)
    ensures Applied(reply) ==> n in api.world.nodes
    ensures api.history.Then? && api.history.event == Called(ctx, PatchNode(n, patch), reply)
  {
    reply := api.PatchNode(ctx, n, patch);
    PatchPermitted(cfg, api.history, ctx, n, patch, reply);
    Refusal(cfg, api.history);
    FacePatchedStep(old(api.history), api.history, ctx, n, patch, reply);
  }

  lemma FacePatchedStep(before: History, h: History, ctx: Context, n: string, patch: Patch, reply: Reply)
    requires Extends(h, before, Called(ctx, PatchNode(n, patch), reply))
    ensures FacePatched(before, h, n, patch, Applied(reply)) && OthersKept(before, h, n)
  {
    UndisturbedStep(h, before, h.event);
  }

  /** Reads the time for a time stamp. */
  method ReadClock(cfg: Config, api: Api) returns (now: Time)
    requires Orderly(cfg, api)
    modifies api`world, api`history
    ensures Orderly(cfg, api) && api.history.state.memory == old(api.history.state.memory)
    ensures now == api.world.clock >= old(api.world.clock)
    ensures Watch(cfg, api.history) == old(Watch(cfg, api.history))
    ensures FacesKept(old(api.history), api.history) && Grown(old(api.history), api.history)
  {
    now := api.Now();
    Permit(cfg, api.history);
    Refusal(cfg, api.history);
    FacesKeptStep(old(api.history), api.history, Tick);
  }

  /** The same loop, with the same findings about it, but for what writes to nodes leave behind. */
  ghost predicate SameLoop(m: Monitor, k: Monitor) {
    && k.loop == m.loop.(retracted := if m.stage.RollingBack? then k.loop.retracted else m.loop.retracted)
    && (m.work.roster.Some? ==> k.work.roster == m.work.roster)
  }

  /** A node powered on owes the removal of its off entry in memory. */
  ghost predicate Owing(m: Monitor, k: Monitor, n: string, success: bool) {
    k.work.owed == if success && !m.stage.RollingBack? then m.work.owed + {n} else m.work.owed
  }

  /** What the loop knows after a node's boot has been written down, as far as its callers care. */
  ghost predicate Written(m: Monitor, k: Monitor, n: string) {
    && SameLoop(m, k) && k.work.operations == m.work.operations && SamePlan(m, k) && k.pods == m.pods
    && m.work.cleared <= k.work.cleared <= m.work.cleared + {n}
    && (if m.stage.RollingBack? then k.stage == m.stage else k.stage == m.stage || k.stage == Idle)
  }

  /** A node is put back in the rollback of its shutdown, or once its host was powered on. */
  ghost predicate MayWrite(cfg: Config, m: Monitor, ctx: Context, n: string) {
    && !cfg.dryRun && !m.stage.Emptied? && MayCall(m, ctx)
    && (if m.stage.RollingBack? then n == m.stage.name else n in m.work.powered)
  }

  /** Once its host was powered on, a boot time is stored for the node before it is made schedulable; and in a
      rollback its mark is removed before. */
  ghost predicate MayReturn(cfg: Config, m: Monitor, ctx: Context, n: string) {
    MayWrite(cfg, m, ctx, n) && (if m.stage.RollingBack? then MarkDealtWith(m) else n in m.work.stamped)
  }

  /** A host may be powered on if somebody wants it. */
  ghost predicate MayBoot(cfg: Config, m: Monitor, ctx: Context, n: string) {
    !cfg.dryRun && !m.stage.Emptied? && !m.stage.RollingBack? && MayCall(m, ctx) && MayPowerOn(cfg, m, n)
  }

  lemma AnnotatedIsWritten(m: Monitor, n: string, patch: Patch, reply: Reply)
    requires patch == CLEAR_PATCH || !(POWERED_OFF in patch)
    ensures var k := Annotated(m, n, patch, reply);
            && Written(m, k, n) && k.work.powered == m.work.powered
            && (SetsBootTime(patch) ==> n in k.work.stamped)
            && (ClearsMark(patch) ==> n in k.work.cleared)
            && (if ClearsMark(patch) then Owing(m, k, n, reply.Done?) else k.work.owed == m.work.owed)
  {
  }

  /** Stamps the node with the present time as its boot time. */
  method WriteBootTime(cfg: Config, api: Api, ctx: Context, n: string) returns (ok: bool, ghost stamp: int)
    requires Orderly(cfg, api) && MayWrite(cfg, Watch(cfg, api.history), ctx, n)
    requires !Watch(cfg, api.history).stage.RollingBack?
    modifies api`world, api`history
    ensures Orderly(cfg, api) && api.history.state.memory == old(api.history.state.memory)
    ensures api.world.clock >= old(api.world.clock)
    ensures Seconds(old(api.world.clock)) <= stamp <= Seconds(api.world.clock)
    ensures Written(old(Watch(cfg, api.history)), Watch(cfg, api.history), n)
    ensures Watch(cfg, api.history).work.owed == old(Watch(cfg, api.history)).work.owed
    ensures Watch(cfg, api.history).work.powered == old(Watch(cfg, api.history)).work.powered
    ensures if ok then FacePatched(old(api.history), api.history, n, map[BOOTED_AT := Some(Stamp(stamp))], true)
            else DeniedOn(old(api.history), api.history, n)
    ensures OthersKept(old(api.history), api.history, n) && Grown(old(api.history), api.history)
    ensures ok ==> n in api.world.nodes && n in Watch(cfg, api.history).work.stamped
  {
    var now := ReadClock(cfg, api);
    stamp := Seconds(now);
    AnnotatedIsWritten(Watch(cfg, api.history), n, BootPatch(now), Done);
    var patched := ApplyPatch(cfg, api, ctx, n, BootPatch(now));
    ok := patched.Done?;
  }

  /** The node was made schedulable and its off mark removed; its boot time was kept. */
  ghost predicate BackInService(before: History, h: History, n: string) {
    Undisturbed(h, n) ==>
      && Undisturbed(before, n)
      && var f, g := FaceIn(before.state.world, n), FaceIn(h.state.world, n);
         f.Some? && g == Some(Face(false, None, f.value.booted))
  }

  /** Sets the scheduling flag back, unless it is not set. */
  method UncordonNode(cfg: Config, api: Api, ctx: Context, n: string) returns (ok: bool)
    requires Orderly(cfg, api) && MayReturn(cfg, Watch(cfg, api.history), ctx, n)
    modifies api`world, api`history
    ensures Orderly(cfg, api) && api.history.state.memory == old(api.history.state.memory)
    ensures api.world.clock >= old(api.world.clock)
    ensures Written(old(Watch(cfg, api.history)), Watch(cfg, api.history), n)
    ensures Watch(cfg, api.history).work.owed == old(Watch(cfg, api.history)).work.owed
    ensures Watch(cfg, api.history).work.powered == old(Watch(cfg, api.history)).work.powered
    ensures Watch(cfg, api.history) == old(Watch(cfg, api.history))
            || Watch(cfg, api.history) == Rescheduled(old(Watch(cfg, api.history)), n, false)
    ensures if ok then n in api.world.nodes && !api.world.nodes[n].unschedulable && OpenSeen(cfg, api.history, n)
            else DeniedOn(old(api.history), api.history, n)
    ensures FlagOnly(old(api.history), api.history, n) && OthersKept(old(api.history), api.history, n)
    ensures Grown(old(api.history), api.history)
  {
    ok := SetScheduling(cfg, api, ctx, n, false, true);
  }

  /** Removes the off mark. */
  method ClearPoweredOffAnnotation(cfg: Config, api: Api, ctx: Context, n: string) returns (ok: bool)
    requires Orderly(cfg, api) && MayWrite(cfg, Watch(cfg, api.history), ctx, n) && MayClear(Watch(cfg, api.history), n)
    requires !Watch(cfg, api.history).stage.RollingBack? ==> OpenSeen(cfg, api.history, n)
    modifies api`world, api`history
    ensures Orderly(cfg, api) && api.history.state.memory == old(api.history.state.memory)
    ensures api.world.clock >= old(api.world.clock)
    ensures Written(old(Watch(cfg, api.history)), Watch(cfg, api.history), n)
    ensures ok ==> n in Watch(cfg, api.history).work.cleared
    ensures Owing(old(Watch(cfg, api.history)), Watch(cfg, api.history), n, ok)
    ensures if ok then FacePatched(old(api.history), api.history, n, CLEAR_PATCH, true)
            else DeniedOn(old(api.history), api.history, n)
    ensures OthersKept(old(api.history), api.history, n) && Grown(old(api.history), api.history)
    ensures var m, k := old(Watch(cfg, api.history)), Watch(cfg, api.history);
            k.face == m.face || k.face == FaceWithout(m, n)
    ensures ok ==> Watch(cfg, api.history).face == FaceWithout(old(Watch(cfg, api.history)), n)
    ensures ok && old(Watch(cfg, api.history)).stage.RollingBack? ==> Watch(cfg, api.history).loop.retracted
  {
    var reply := ApplyPatch(cfg, api, ctx, n, CLEAR_PATCH);
    ClearIsWritten(old(Watch(cfg, api.history)), n, reply);
    ok := reply.Done?;
  }

  /** What the loop knows once the mark of n is removed. */
  lemma ClearIsWritten(m: Monitor, n: string, reply: Reply)
    requires m.stage.RollingBack? ==> m.stage.name == n
    ensures var k := Annotated(m, n, CLEAR_PATCH, reply);
            && Written(m, k, n) && n in k.work.cleared && Owing(m, k, n, reply.Done?) && k.face == FaceWithout(m, n)
            && (m.stage.RollingBack? ==> k.loop.retracted)
  {
  }

  /** The face of the candidate once the off mark of n is gone. */
  ghost function FaceWithout(m: Monitor, n: string): Option<Face> {
    if n == m.loop.candidate.name && m.face.Some? then Some(m.face.value.(mark := None)) else m.face
  }

  /** Makes the node schedulable and then removes its off mark. */
  method ReturnToService(cfg: Config, api: Api, ctx: Context, n: string) returns (ok: bool)
    requires Orderly(cfg, api) && MayReturn(cfg, Watch(cfg, api.history), ctx, n)
    requires !Watch(cfg, api.history).stage.RollingBack?
    modifies api`world, api`history
    ensures Orderly(cfg, api) && api.history.state.memory == old(api.history.state.memory)
    ensures api.world.clock >= old(api.world.clock)
    ensures Written(old(Watch(cfg, api.history)), Watch(cfg, api.history), n)
    ensures ok ==> n in Watch(cfg, api.history).work.cleared
    ensures Owing(old(Watch(cfg, api.history)), Watch(cfg, api.history), n, ok)
    ensures if ok then BackInService(old(api.history), api.history, n) else DeniedOn(old(api.history), api.history, n)
    ensures OthersKept(old(api.history), api.history, n) && Grown(old(api.history), api.history)
  {
    ok := UncordonNode(cfg, api, ctx, n);
    if ok {
      ok := ClearPoweredOffAnnotation(cfg, api, ctx, n);
    }
  }

  // ----- Remembering operations

  /** An operation may be recorded: at most one a loop, and only in a loop that began after the global
      cooldown. Forced power-on is exempt. */
  ghost predicate MayRecord(cfg: Config, m: Monitor, memory: Memory) {
    !cfg.forcePowerOn ==> m.work.operations == 0 && !GlobalCooldownActive(memory, m.loop.begun, cfg.cooldown)
  }

  function WithOperation(m: Monitor): Monitor {
    m.(work := m.work.(operations := m.work.operations + 1))
  }

  /** Starts the global cooldown. */
  method MarkGlobalShutdown(cfg: Config, api: Api, tracker: NodeStateTracker)
    requires Steady(cfg, api, tracker) && MayRecord(cfg, Watch(cfg, api.history), tracker.View())
    modifies api`world, api`history, tracker
    ensures Steady(cfg, api, tracker)
    ensures api.world.clock >= old(api.world.clock)
    ensures tracker.View() == Remember(old(tracker.View()), Operation(api.world.clock))
    ensures Watch(cfg, api.history) == WithOperation(old(Watch(cfg, api.history)))
    ensures FacesKept(old(api.history), api.history) && Grown(old(api.history), api.history)
  {
    var now := ReadClock(cfg, api);
    tracker.MarkGlobalShutdown(now);
    ghost var read := api.history;
    api.Note(Noted(Operation(now)));
    Permit(cfg, api.history);
    Refusal(cfg, api.history);
    FacesKeptStep(read, api.history, api.history.event);
  }

  /** A removed off entry is no longer owed. */
  function Settled(m: Monitor, op: MemoryOp): Monitor {
    if op.NotOff? then m.(work := m.work.(owed := m.work.owed - {op.name})) else m
  }

  /** Operations apart, and but for a shutdown that was not accepted, anything may be remembered. */
  ghost predicate MayRemember(m: Monitor, op: MemoryOp) {
    && !op.Operation?
    && (op.ShutDown? || op.Off? ==> m.stage == Sent(op.name) || (op.Off? && NewlyListed(m, op.name)))
  }

  lemma MemoryPermitted(cfg: Config, h: History, op: MemoryOp)
    requires h.Then? && h.event == Noted(op) && Disciplined(cfg, h.past) && MayRemember(Watch(cfg, h.past), op)
    ensures Disciplined(cfg, h) && Watch(cfg, h) == Settled(Watch(cfg, h.past), op)
    ensures Grown(h.past, h)
  {
    Permit(cfg, h);
    Refusal(cfg, h);
  }

  method Keep(tracker: NodeStateTracker, op: MemoryOp)
    requires !op.Operation?
    modifies tracker
    ensures tracker.View() == Remember(old(tracker.View()), op)
  {
    match op {
      case ShutDown(n, t) => tracker.MarkShutdown(n, t);
      case Booted(n, t) => tracker.MarkBooted(n, t);
      case Off(n) => tracker.MarkPoweredOff(n);
      case NotOff(n) => tracker.ClearPoweredOff(n);
    }
  }

  /** A change of memory that is no operation. */
  method Remembering(cfg: Config, api: Api, tracker: NodeStateTracker, op: MemoryOp)
    requires Steady(cfg, api, tracker) && MayRemember(Watch(cfg, api.history), op)
    modifies api`world, api`history, tracker
    ensures Steady(cfg, api, tracker)
    ensures tracker.View() == Remember(old(tracker.View()), op)
    ensures api.world == old(api.world)
    ensures Watch(cfg, api.history) == Settled(old(Watch(cfg, api.history)), op) && !Denied(api.history)
    ensures FacesKept(old(api.history), api.history) && Grown(old(api.history), api.history)
  {
    Keep(tracker, op);
    api.Note(Noted(op));
    MemoryPermitted(cfg, api.history, op);
    FacesKeptStep(old(api.history), api.history, Noted(op));
  }

  // ----- Powering on

  function MacKey(cfg: Config): string {
    if cfg.macKey == "" then MAC_AUTO else cfg.macKey
  }

  function MacOf(cfg: Config, node: Node): Value {
    if MacKey(cfg) in node.annotations then node.annotations[MacKey(cfg)] else Text("")
  }

  /** What the loop knows after an attempt to power n on. */
  ghost predicate Attempted(m: Monitor, k: Monitor, n: string, success: bool) {
    && SameLoop(m, k) && SamePlan(m, k)
    && m.work.cleared <= k.work.cleared <= m.work.cleared + {n}
    && (if m.stage.RollingBack? then k.stage == m.stage else k.stage == m.stage || k.stage == Idle)
    && k.work.operations == m.work.operations + (if success then 1 else 0)
    && (success ==> n in k.work.cleared)
    && Owing(m, k, n, success)
  }

  /** The node is back in service with a boot time from the given interval. */
  ghost predicate FreshlyBooted(f: Option<Face>, from: Time, to: Time) {
    && f.Some? && !f.value.unschedulable && f.value.mark == None
    && f.value.booted.Some? && f.value.booted.value.Stamp?
    && Seconds(from) <= f.value.booted.value.seconds <= Seconds(to)
  }

  /** The memory has a new operation and boot time of n, both from the given interval. */
  ghost predicate RemembersBoot(before: Memory, after: Memory, n: string, from: Time, to: Time) {
    && after.shutdownAt == before.shutdownAt
    && n in after.bootedAt && after.bootedAt == before.bootedAt[n := after.bootedAt[n]]
    && from <= after.lastOperation <= after.bootedAt[n] <= to
  }

  /** Boots the host and writes that down on the node. */
  method BootNode(cfg: Config, api: Api, ctx: Context, n: string, mac: Value) returns (ok: bool)
    requires Orderly(cfg, api) && MayBoot(cfg, Watch(cfg, api.history), ctx, n)
    requires exists x :: x in Encountered(api.history) && x.name == n && Carries(cfg, x, mac)
    modifies api`world, api`history
    ensures Orderly(cfg, api) && api.history.state.memory == old(api.history.state.memory)
    ensures api.world.clock >= old(api.world.clock)
    ensures Written(old(Watch(cfg, api.history)), Watch(cfg, api.history), n)
    ensures ok ==> n in Watch(cfg, api.history).work.cleared
    ensures Owing(old(Watch(cfg, api.history)), Watch(cfg, api.history), n, ok)
    ensures ok && Undisturbed(api.history, n) ==>
              FreshlyBooted(FaceIn(api.world, n), old(api.world.clock), api.world.clock)
    ensures !ok ==> DeniedOn(old(api.history), api.history, n)
    ensures OthersKept(old(api.history), api.history, n) && Grown(old(api.history), api.history)
  {
    ok := RequestPowerOn(cfg, api, ctx, n, mac);
    if ok {
      ok := BookBoot(cfg, api, ctx, n);
    }
  }

  /** Writes down on the node that it was booted. */
  method BookBoot(cfg: Config, api: Api, ctx: Context, n: string) returns (ok: bool)
    requires Orderly(cfg, api) && MayWrite(cfg, Watch(cfg, api.history), ctx, n)
    requires !Watch(cfg, api.history).stage.RollingBack?
    modifies api`world, api`history
    ensures Orderly(cfg, api) && api.history.state.memory == old(api.history.state.memory)
    ensures api.world.clock >= old(api.world.clock)
    ensures Written(old(Watch(cfg, api.history)), Watch(cfg, api.history), n)
    ensures ok ==> n in Watch(cfg, api.history).work.cleared
    ensures Owing(old(Watch(cfg, api.history)), Watch(cfg, api.history), n, ok)
    ensures ok && Undisturbed(api.history, n) ==>
              FreshlyBooted(FaceIn(api.world, n), old(api.world.clock), api.world.clock)
    ensures !ok ==> DeniedOn(old(api.history), api.history, n)
    ensures OthersKept(old(api.history), api.history, n) && Grown(old(api.history), api.history)
  {
    ghost var stamp;
    ok, stamp := WriteBootTime(cfg, api, ctx, n);
    if ok {
      ok := ReturnToService(cfg, api, ctx, n);
    }
  }

  method RequestPowerOn(cfg: Config, api: Api, ctx: Context, n: string, mac: Value) returns (ok: bool)
    requires Orderly(cfg, api) && MayBoot(cfg, Watch(cfg, api.history), ctx, n)
    requires exists x :: x in Encountered(api.history) && x.name == n && Carries(cfg, x, mac)
    modifies api`world, api`history
    ensures Orderly(cfg, api) && api.history.state.memory == old(api.history.state.memory)
    ensures api.world.clock >= old(api.world.clock)
    ensures Watch(cfg, api.history)
            == PowerOnTried(old(Watch(cfg, api.history)), n, if ok then Done else Refused(Failure, false))
    ensures FacesKept(old(api.history), api.history) && Grown(old(api.history), api.history)
    ensures !ok ==> DeniedOn(old(api.history), api.history, n)
  {
    var reply := api.PowerOn(ctx, n, mac);
    Permit(cfg, api.history);
    Refusal(cfg, api.history);
    FacesKeptStep(old(api.history), api.history, api.history.event);
    ok := reply.Done?;
  }

  method PowerOnAndMarkBooted(cfg: Config, api: Api, tracker: NodeStateTracker, ctx: Context, node: Node)
    returns (ok: bool)
    requires Steady(cfg, api, tracker) && MayRecord(cfg, Watch(cfg, api.history), tracker.View())
    requires cfg.dryRun || (MayBoot(cfg, Watch(cfg, api.history), ctx, node.name) && node in Encountered(api.history))
    modifies api`world, api`history, tracker
    ensures Steady(cfg, api, tracker)
    ensures api.world.clock >= old(api.world.clock)
    ensures Attempted(old(Watch(cfg, api.history)), Watch(cfg, api.history), node.name, ok && !cfg.dryRun)
    ensures if ok && !cfg.dryRun then
              RemembersBoot(old(tracker.View()), tracker.View(), node.name, old(api.world.clock), api.world.clock)
              && tracker.View().off == old(tracker.View()).off
            else tracker.View() == old(tracker.View())
    ensures ok && !cfg.dryRun && Undisturbed(api.history, node.name) ==>
              FreshlyBooted(FaceIn(api.world, node.name), old(api.world.clock), api.world.clock)
    ensures OthersKept(old(api.history), api.history, node.name) && Grown(old(api.history), api.history)
    ensures !ok ==> || DeniedOn(old(api.history), api.history, node.name)
                    || (Unaddressed(cfg, node) && api.history == old(api.history))
    ensures cfg.dryRun ==> ok && api.world == old(api.world) && Watch(cfg, api.history) == old(Watch(cfg, api.history))
  {
    if cfg.dryRun {
      return true;
    }
    var mac := MacOf(cfg, node);
    if mac == Text("") {
      return false;
    }
    ok := BootNode(cfg, api, ctx, node.name, mac);
    if ok {
      RememberBoot(cfg, api, tracker, node.name);
    }
  }

  /** Starts the global cooldown and the boot cooldown of the node. */
  method RememberBoot(cfg: Config, api: Api, tracker: NodeStateTracker, n: string)
    requires Steady(cfg, api, tracker) && MayRecord(cfg, Watch(cfg, api.history), tracker.View())
    modifies api`world, api`history, tracker
    ensures Steady(cfg, api, tracker)
    ensures api.world.clock >= old(api.world.clock)
    ensures Watch(cfg, api.history) == WithOperation(old(Watch(cfg, api.history)))
    ensures RemembersBoot(old(tracker.View()), tracker.View(), n, old(api.world.clock), api.world.clock)
    ensures tracker.View().off == old(tracker.View()).off
    ensures FacesKept(old(api.history), api.history) && Grown(old(api.history), api.history)
  {
    MarkGlobalShutdown(cfg, api, tracker);
    var now := ReadClock(cfg, api);
    Remembering(cfg, api, tracker, Booted(n, now));
  }
}
