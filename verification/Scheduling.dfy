/** Setting a node's scheduling flag by reading it, changing it, and writing it back. */
module Scheduling {
  import opened Prelude
  import opened Clock
  import opened Cluster
  import opened Settings
  import opened Journal
  import opened ApiServer

  /** Attempts of a retry on conflict. */
  const RETRY_STEPS := 4

  /** The history is one the cluster can produce and the autoscaler may have produced. */
  ghost predicate Orderly(cfg: Config, api: Api)
    reads api
  {
    api.Valid() && Disciplined(cfg, api.history)
  }

  /** The last step was a call, other than an eviction, that was refused. */
  ghost predicate Denied(h: History) {
    h.Then? && h.event.Called? && !h.event.call.Evict? && h.event.reply.Refused?
  }

  /** Its reason was a conflict. */
  ghost predicate InConflict(h: History) {
    Denied(h) && h.event.reply.error == Conflict
  }

  /** The record of refusals and of the nodes met in this loop has not shrunk. */
  ghost predicate Grown(before: History, h: History) {
    Refusals(before) <= Refusals(h) && Faults(before) <= Faults(h) && Encountered(before) <= Encountered(h)
  }

  /** The last call was refused, and it was made since then. */
  ghost predicate Unanswered(before: History, h: History) {
    Denied(h) && Faults(before) < Faults(h)
  }

  /** The last call was refused, and it was about n. */
  ghost predicate DeniedOn(before: History, h: History, n: string) {
    Unanswered(before, h) && n in Refusals(h)
  }

  /** A cordon needs the approval of every gate and a look at the pods; an uncordon belongs to a rollback,
      a power-on or a recovery. */
  ghost predicate MayReschedule(cfg: Config, m: Monitor, ctx: Context, n: string, flag: bool, t: Time) {
    && !cfg.dryRun
    && !m.stage.Emptied? && MayCall(m, ctx)
    && (if flag then m.stage == Vetting(n, |Chain(cfg)|) && m.loop.drain.DrainUntil? && m.loop.drain.screened
        else MayRelease(cfg, m, n, t))
  }

  lemma StillMayReschedule(cfg: Config, m: Monitor, ctx: Context, n: string, flag: bool, t: Time, u: Time)
    requires t <= u && MayReschedule(cfg, m, ctx, n, flag, t)
    ensures MayReschedule(cfg, m, ctx, n, flag, u)
  {
    if !flag && InNeed(cfg, m, n, t) {
      StillInNeed(cfg, m, n, t, u);
    }
  }

  /** In this loop n was made schedulable, or was read to be so. */
  ghost predicate OpenSeen(cfg: Config, h: History, n: string) {
    n in Watch(cfg, h).work.released || exists x :: x in Encountered(h) && x.name == n && !x.unschedulable
  }

  /** Unless the outside world interfered, the face of every node is what it was. */
  ghost predicate FacesKept(before: History, h: History) {
    forall n :: Undisturbed(h, n) ==>
      Undisturbed(before, n) && FaceIn(h.state.world, n) == FaceIn(before.state.world, n)
  }

  /** The same for every node but n. */
  ghost predicate OthersKept(before: History, h: History, n: string) {
    forall x :: x != n && Undisturbed(h, x) ==>
      Undisturbed(before, x) && FaceIn(h.state.world, x) == FaceIn(before.state.world, x)
  }

  /** Of what power management writes to n, only the scheduling flag can have changed, unless the
      outside world interfered. */
  ghost predicate FlagOnly(before: History, h: History, n: string) {
    Undisturbed(h, n) ==>
      && Undisturbed(before, n)
      && var f, g := FaceIn(before.state.world, n), FaceIn(h.state.world, n);
         f.Some? == g.Some? && (f.Some? ==> g.value == f.value.(unschedulable := g.value.unschedulable))
  }

  lemma FlagOnlyStep(before: History, h: History, ctx: Context, node: Node, reply: Reply)
    requires Extends(h, before, Called(ctx, UpdateNode(node), reply))
    requires Applied(reply) ==> node.name in h.seen.nodes && OnlyScheduling(h.seen.nodes[node.name], node)
    ensures FlagOnly(before, h, node.name) && OthersKept(before, h, node.name)
  {
    UndisturbedStep(h, before, h.event);
  }

  /** A permitted update is the step it says. */
  lemma UpdatePermitted(cfg: Config, h: History, ctx: Context, node: Node, reply: Reply)
    requires h.Then? && h.event == Called(ctx, UpdateNode(node), reply) && Disciplined(cfg, h.past)
    requires MayReschedule(cfg, Watch(cfg, h.past), ctx, node.name, node.unschedulable, h.past.state.world.clock)
    requires Applied(reply) ==> node.name in h.seen.nodes && OnlyScheduling(h.seen.nodes[node.name], node)
    ensures Disciplined(cfg, h)
    ensures var m := Watch(cfg, h.past);
            Watch(cfg, h) == if Applied(reply) then Rescheduled(m, node.name, node.unschedulable) else m
  {
    Permit(cfg, h);
  }

  lemma FacesKeptStep(before: History, h: History, e: Event)
    requires Extends(h, before, e) && !e.Begin? && !e.Restarted?
    requires h.state.world.nodes == h.seen.nodes
    ensures FacesKept(before, h)
  {
    UndisturbedStep(h, before, e);
  }

  lemma FlagOnlyAfter(a: History, b: History, c: History, n: string)
    requires FacesKept(a, b) && FlagOnly(b, c, n) && OthersKept(b, c, n)
    ensures FlagOnly(a, c, n) && OthersKept(a, c, n)
  {
  }

  /** Reads a node. */
  method ReadNode(cfg: Config, api: Api, ctx: Context, n: string) returns (node: Result<Node, ApiError>)
    requires Orderly(cfg, api)
    requires !Watch(cfg, api.history).stage.Emptied? && MayCall(Watch(cfg, api.history), ctx)
    modifies api`world, api`history
    ensures Orderly(cfg, api) && api.history.state.memory == old(api.history.state.memory)
    ensures api.world.clock >= old(api.world.clock)
    ensures Watch(cfg, api.history) == old(Watch(cfg, api.history))
    ensures if node.Ok? then
              && n in api.world.nodes && node.value == api.world.nodes[n] && node.value.name == n
              && node.value in Encountered(api.history)
            else DeniedOn(old(api.history), api.history, n) && api.history.event.reply.error == node.error
    ensures Conflicts(api.history) == old(Conflicts(api.history)) + if node == Err(Conflict) then 1 else 0
    ensures FacesKept(old(api.history), api.history) && Grown(old(api.history), api.history)
  {
    var got := api.GetNode(ctx, n);
    Permit(cfg, api.history);
    Refusal(cfg, api.history);
    Meeting(cfg, api.history);
    FacesKeptStep(old(api.history), api.history, api.history.event);
    node := if got.Refused? then Err(got.error) else Ok(got.node);
  }

  /** Writes back a node that was just read, with its scheduling flag set. If the version check lets
      the write pass, the stored node is the one that was read. */
  method WriteFlag(cfg: Config, api: Api, ctx: Context, read: Node, flag: bool) returns (error: Option<ApiError>)
    requires Orderly(cfg, api)
    requires MayReschedule(cfg, Watch(cfg, api.history), ctx, read.name, flag, api.world.clock)
    requires read.name in api.world.nodes && api.world.nodes[read.name] == read
    modifies api`world, api`history
    ensures Orderly(cfg, api) && api.history.state.memory == old(api.history.state.memory)
    ensures api.world.clock >= old(api.world.clock)
    ensures var m, k := old(Watch(cfg, api.history)), Watch(cfg, api.history);
            k == m || (k == Rescheduled(m, read.name, flag) && error != Some(Conflict))
    ensures error.Some? ==>
              DeniedOn(old(api.history), api.history, read.name) && api.history.event.reply.error == error.value
    ensures Conflicts(api.history) == old(Conflicts(api.history)) + if error == Some(Conflict) then 1 else 0
    ensures error.None? ==>
              && read.name in api.world.nodes && api.world.nodes[read.name].unschedulable == flag
              && Watch(cfg, api.history) == Rescheduled(old(Watch(cfg, api.history)), read.name, flag)
    ensures FlagOnly(old(api.history), api.history, read.name) && OthersKept(old(api.history), api.history, read.name)
    ensures Grown(old(api.history), api.history)
  {
    var submitted := read.(unschedulable := flag);
    var written := api.UpdateNode(ctx, submitted);
    UpdatePermitted(cfg, api.history, ctx, submitted, written);
    Refusal(cfg, api.history);
    FlagOnlyStep(old(api.history), api.history, ctx, submitted, written);
    error := if written.Done? then None else Some(written.error);
  }

  /** One attempt. */
  method TrySetScheduling(cfg: Config, api: Api, ctx: Context, n: string, flag: bool, onlyIfDifferent: bool)
    returns (error: Option<ApiError>)
    requires Orderly(cfg, api) && MayReschedule(cfg, Watch(cfg, api.history), ctx, n, flag, api.world.clock)
    modifies api`world, api`history
    ensures Orderly(cfg, api) && api.history.state.memory == old(api.history.state.memory)
    ensures api.world.clock >= old(api.world.clock)
    ensures var m, k := old(Watch(cfg, api.history)), Watch(cfg, api.history);
            k == m || (k == Rescheduled(m, n, flag) && error != Some(Conflict))
    ensures if error.None? then n in api.world.nodes && api.world.nodes[n].unschedulable == flag
            else DeniedOn(old(api.history), api.history, n) && api.history.event.reply.error == error.value
    ensures Conflicts(api.history) == old(Conflicts(api.history)) + if error == Some(Conflict) then 1 else 0
    ensures FlagOnly(old(api.history), api.history, n) && OthersKept(old(api.history), api.history, n)
    ensures Grown(old(api.history), api.history)
    ensures error.None? && !flag ==> OpenSeen(cfg, api.history, n)
    ensures error.None? && !onlyIfDifferent ==>
              Watch(cfg, api.history) == Rescheduled(old(Watch(cfg, api.history)), n, flag)
  {
    ghost var start := api.world.clock;
    var node := ReadNode(cfg, api, ctx, n);
    if node.Err? {
      return Some(node.error);
    }
    if onlyIfDifferent && node.value.unschedulable == flag {
      return None;
    }
    ghost var read := api.history;
    StillMayReschedule(cfg, Watch(cfg, read), ctx, n, flag, start, api.world.clock);
    error := WriteFlag(cfg, api, ctx, node.value, flag);
    FlagOnlyAfter(old(api.history), read, api.history, n);
  }

  /** Attempts until one succeeds, fails for another reason than a conflict, or the attempts run out. */
  method SetScheduling(cfg: Config, api: Api, ctx: Context, n: string, flag: bool, onlyIfDifferent: bool)
    returns (ok: bool)
    requires Orderly(cfg, api) && MayReschedule(cfg, Watch(cfg, api.history), ctx, n, flag, api.world.clock)
    modifies api`world, api`history
    ensures Orderly(cfg, api) && api.history.state.memory == old(api.history.state.memory)
    ensures api.world.clock >= old(api.world.clock)
    ensures var m, k := old(Watch(cfg, api.history)), Watch(cfg, api.history);
            k == m || k == Rescheduled(m, n, flag)
    ensures if ok then n in api.world.nodes && api.world.nodes[n].unschedulable == flag
            else DeniedOn(old(api.history), api.history, n)
    ensures !ok && InConflict(api.history) ==> Conflicts(api.history) == old(Conflicts(api.history)) + 4
    ensures FlagOnly(old(api.history), api.history, n) && OthersKept(old(api.history), api.history, n)
    ensures Grown(old(api.history), api.history)
    ensures ok && !flag ==> OpenSeen(cfg, api.history, n)
    ensures ok && !onlyIfDifferent ==>
              Watch(cfg, api.history) == Rescheduled(old(Watch(cfg, api.history)), n, flag)
  {
    ghost var start := api.world.clock;
    for attempt := 0 to RETRY_STEPS
      invariant Orderly(cfg, api) && api.history.state.memory == old(api.history.state.memory)
      invariant Watch(cfg, api.history) == old(Watch(cfg, api.history))
      invariant api.world.clock >= start
      invariant FlagOnly(old(api.history), api.history, n) && OthersKept(old(api.history), api.history, n)
      invariant Grown(old(api.history), api.history)
      invariant Conflicts(api.history) == old(Conflicts(api.history)) + attempt
      invariant attempt > 0 ==> DeniedOn(old(api.history), api.history, n)
    {
      StillMayReschedule(cfg, Watch(cfg, api.history), ctx, n, flag, start, api.world.clock);
      var error := TrySetScheduling(cfg, api, ctx, n, flag, onlyIfDifferent);
      if error.None? {
        return true;
      }
      if error.value != Conflict {
        return false;
      }
    }
    return false;
  }
}
