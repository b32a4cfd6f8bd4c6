/** Cordoning a node and waiting until its pods are gone and its storage is detached. */
module Drain {
  import opened Prelude
  import opened Clock
  import opened Cluster
  import opened Settings
  import opened Journal
  import opened ApiServer
  import opened Scheduling
  import opened DrainSoundness

  const POLL_INTERVAL: Duration := 2 * SECOND
  const DEFAULT_DRAIN_TIMEOUT: Duration := 15 * MINUTE

  /** A drain changes nothing of what is known about the loop but the progress of the drain itself. */
  ghost predicate DrainProgress(m: Monitor, k: Monitor) {
    && k.loop == m.loop.(drain := k.loop.drain) && k.work == m.work && SamePlan(m, k)
    && k.face.Some? == m.face.Some?
    && (m.face.Some? ==> k.face.value == m.face.value.(unschedulable := k.face.value.unschedulable))
  }

  /** Refusals after which an eviction is simply tried again at the next poll. */
  predicate Retryable(e: ApiError) {
    e == TooManyRequests || e == Conflict || e == NotFound
  }

  /** A reply that ends a drain. */
  predicate Fatal(e: Event) {
    e.Called? && e.reply.Refused? && (e.call.Evict? ==> StopsDrain(e.reply))
  }

  /** The drain of n is under way, and calls under this context are in time for it. */
  predicate Underway(m: Monitor, ctx: Context, n: string) {
    m.loop.drain.DrainUntil? && m.loop.candidate.name == n && MayCall(m, ctx)
  }

  /** The last reply, to a call made since then, ended the drain. */
  ghost predicate Stopped(before: History, h: History) {
    h.Then? && Fatal(h.event) && Faults(before) < Faults(h)
  }

  datatype Poll = Finished | NotYet | Aborted

  /** A pod of the node that a poll has to get rid of. */
  predicate ToEvict(p: Pod, n: string) {
    p.node == n && !SkipDrain(p) && !p.terminating
  }

  function KeyOf(p: Pod): string {
    EvictionKey(p.namespace, p.name, p.uid)
  }

  /** The drain of n has just listed pods. */
  ghost predicate JustListed(m: Monitor, n: string, pods: seq<Pod>) {
    && m.pods == pods && m.attempted == {}
    && m.stage == if NothingToMove(pods, n) then Emptied(n) else Cordoned(n)
  }

  /** What one round of evictions achieves for the pods listed. */
  ghost predicate RoundDone(pods: seq<Pod>, n: string, accepted: set<string>, attempted: set<string>) {
    forall p | p in pods && p.node == n ::
      !DrainBlocker(p) && (ToEvict(p, n) ==> KeyOf(p) in accepted || KeyOf(p) in attempted)
  }

  ghost predicate Blocked(n: string, pods: seq<Pod>) {
    exists p :: p in pods && p.node == n && DrainBlocker(p)
  }

  /** Asks for the eviction of one pod, on condition that it is still the pod that was listed. */
  method EvictPod(cfg: Config, api: Api, ctx: Context, n: string, p: Pod) returns (reply: Reply)
    requires Orderly(cfg, api) && !cfg.dryRun && Underway(Watch(cfg, api.history), ctx, n)
    requires var m := Watch(cfg, api.history);
             m.stage == Cordoned(n) && p in m.pods && Evictable(p, n) && KeyOf(p) !in m.accepted
    modifies api`world, api`history
    ensures Orderly(cfg, api) && api.history.state.memory == old(api.history.state.memory)
    ensures api.world.clock >= old(api.world.clock) && Grown(old(api.history), api.history)
    ensures reply.Done? || reply.Refused?
    ensures var m, k := old(Watch(cfg, api.history)), Watch(cfg, api.history);
            k == m.(attempted := m.attempted + {KeyOf(p)},
                    accepted := if reply.Done? then m.accepted + {KeyOf(p)} else m.accepted,
                    loop := if StopsDrain(reply) then m.loop.(drain := NoDrain) else m.loop)
    ensures reply.Refused? && !Retryable(reply.error) ==> Stopped(old(api.history), api.history)
  {
    reply := api.Evict(ctx, p.namespace, p.name, p.uid);
    assert SameIdentity(p, p.namespace, p.name, p.uid);
    Permit(cfg, api.history);
    Refusal(cfg, api.history);
  }

  /** A pod that was dealt with joins those before it. */
  lemma RoundOneMore(pods: seq<Pod>, i: nat, n: string, accepted0: set<string>, attempted0: set<string>,
                     accepted: set<string>, attempted: set<string>)
    requires i < |pods| && RoundDone(pods[..i], n, accepted0, attempted0)
    requires accepted0 <= accepted && attempted0 <= attempted
    requires pods[i].node == n ==>
               !DrainBlocker(pods[i]) && (ToEvict(pods[i], n) ==> KeyOf(pods[i]) in accepted + attempted)
    ensures RoundDone(pods[..i + 1], n, accepted, attempted)
    ensures NothingToMove(pods[..i], n) && (pods[i].node == n ==> SkipDrain(pods[i])) ==>
              NothingToMove(pods[..i + 1], n)
  {
    assert pods[..i + 1] == pods[..i] + [pods[i]];
  }

  /** One round over the pods listed last: every pod that has to move is evicted, unless it is on its
      way already. Refusals that pass are left for the next round. */
  method EvictPods(cfg: Config, api: Api, ctx: Context, n: string, pods: seq<Pod>, accepted0: set<string>)
    returns (result: Poll, accepted: set<string>)
    requires Orderly(cfg, api) && !cfg.dryRun && Underway(Watch(cfg, api.history), ctx, n)
    requires JustListed(Watch(cfg, api.history), n, pods) && accepted0 == Watch(cfg, api.history).accepted
    modifies api`world, api`history
    ensures Orderly(cfg, api) && api.history.state.memory == old(api.history.state.memory)
    ensures api.world.clock >= old(api.world.clock) && Grown(old(api.history), api.history)
    ensures var m, k := old(Watch(cfg, api.history)), Watch(cfg, api.history);
            && k == m.(accepted := accepted, attempted := k.attempted, loop := k.loop)
            && k.loop == m.loop.(drain := k.loop.drain) && (result != Aborted ==> k.loop == m.loop)
    ensures result == Finished ==> NothingToMove(pods, n)
    ensures result == NotYet ==> !NothingToMove(pods, n)
    ensures result != Aborted ==> RoundDone(pods, n, accepted, Watch(cfg, api.history).attempted)
    ensures result == Aborted ==> Stopped(old(api.history), api.history) || Blocked(n, pods)
  {
    ghost var m := Watch(cfg, api.history);
    ghost var attempted: set<string> := {};
    accepted := accepted0;
    var remaining := 0;
    for i := 0 to |pods|
      invariant Orderly(cfg, api) && api.history.state.memory == old(api.history.state.memory)
      invariant api.world.clock >= old(api.world.clock) && Grown(old(api.history), api.history)
      invariant Watch(cfg, api.history) == m.(accepted := accepted, attempted := attempted)
      invariant remaining == 0 ==> NothingToMove(pods[..i], n)
      invariant remaining > 0 ==> !NothingToMove(pods, n)
      invariant RoundDone(pods[..i], n, accepted, attempted)
    {
      var p := pods[i];
      if p.node != n {
        RoundOneMore(pods, i, n, accepted, attempted, accepted, attempted);
        continue;
      }
      if DrainBlocker(p) {
        return Aborted, accepted;
      }
      if SkipDrain(p) {
        RoundOneMore(pods, i, n, accepted, attempted, accepted, attempted);
        continue;
      }
      remaining := remaining + 1;
      var key := KeyOf(p);
      if key in accepted || p.terminating {
        RoundOneMore(pods, i, n, accepted, attempted, accepted, attempted);
        continue;
      }
      var reply := EvictPod(cfg, api, ctx, n, p);
      RoundOneMore(pods, i, n, accepted, attempted, accepted, attempted + {key});
      RoundOneMore(pods, i, n, accepted, attempted, accepted + {key}, attempted + {key});
      attempted := attempted + {key};
      if reply.Done? {
        accepted := accepted + {key};
      } else if !Retryable(reply.error) {
        return Aborted, accepted;
      }
    }
    assert pods[..|pods|] == pods;
    result := if remaining > 0 then NotYet else Finished;
  }

  /** Whether the node reports no volume in use. */
  method CheckVolumes(cfg: Config, api: Api, ctx: Context, n: string) returns (result: Poll)
    requires Orderly(cfg, api) && Watch(cfg, api.history).stage == Emptied(n)
    requires Underway(Watch(cfg, api.history), ctx, n)
    modifies api`world, api`history
    ensures Orderly(cfg, api) && api.history.state.memory == old(api.history.state.memory)
    ensures api.world.clock >= old(api.world.clock) && Grown(old(api.history), api.history)
    ensures Watch(cfg, api.history)
            == if result == Finished then old(Watch(cfg, api.history)).(stage := Unmounted(n))
               else old(Watch(cfg, api.history))
    ensures result == Aborted ==> Stopped(old(api.history), api.history)
  {
    var latest := api.GetNode(ctx, n);
    Permit(cfg, api.history);
    Refusal(cfg, api.history);
    if latest.Refused? {
      return Aborted;
    }
    result := if latest.node.volumesInUse == {} then Finished else NotYet;
  }

  /** Whether no volume is attached to the node. */
  method CheckAttachments(cfg: Config, api: Api, ctx: Context, n: string) returns (result: Poll)
    requires Orderly(cfg, api) && Watch(cfg, api.history).stage == Unmounted(n)
    requires Underway(Watch(cfg, api.history), ctx, n)
    modifies api`world, api`history
    ensures Orderly(cfg, api) && api.history.state.memory == old(api.history.state.memory)
    ensures api.world.clock >= old(api.world.clock) && Grown(old(api.history), api.history)
    ensures Watch(cfg, api.history)
            == if result == Finished then old(Watch(cfg, api.history)).(stage := Detached(n))
               else old(Watch(cfg, api.history))
    ensures result == Aborted ==> Stopped(old(api.history), api.history)
  {
    var listed := api.ListAttachments(ctx);
    Permit(cfg, api.history);
    Refusal(cfg, api.history);
    if listed.Refused? {
      return Aborted;
    }
    var items := listed.attachments;
    for i := 0 to |items|
      invariant forall j | 0 <= j < i :: items[j].node != n
    {
      if items[i].node == n {
        assert !NoneAttached(items, n);
        return NotYet;
      }
    }
    return Finished;
  }

  /** Once no pod is left to move: volumes must be out of use, and after that detached. */
  method CheckStorage(cfg: Config, api: Api, ctx: Context, n: string) returns (result: Poll)
    requires Orderly(cfg, api) && Watch(cfg, api.history).stage == Emptied(n)
    requires Underway(Watch(cfg, api.history), ctx, n)
    modifies api`world, api`history
    ensures Orderly(cfg, api) && api.history.state.memory == old(api.history.state.memory)
    ensures api.world.clock >= old(api.world.clock) && Grown(old(api.history), api.history)
    ensures var m, k := old(Watch(cfg, api.history)), Watch(cfg, api.history);
            && k == m.(stage := k.stage)
            && (if result == Finished then k.stage == Detached(n) else k.stage in {Emptied(n), Unmounted(n)})
    ensures result == Aborted ==> Stopped(old(api.history), api.history)
  {
    result := CheckVolumes(cfg, api, ctx, n);
    if result == Finished {
      result := CheckAttachments(cfg, api, ctx, n);
    }
  }

  /** One poll of a drain. */
  method PollDrain(cfg: Config, api: Api, ctx: Context, n: string, accepted0: set<string>)
    returns (result: Poll, accepted: set<string>)
    requires Orderly(cfg, api) && !cfg.dryRun && Underway(Watch(cfg, api.history), ctx, n)
    requires Draining(Watch(cfg, api.history).stage, n) && accepted0 == Watch(cfg, api.history).accepted
    modifies api`world, api`history
    ensures Orderly(cfg, api) && api.history.state.memory == old(api.history.state.memory)
    ensures api.world.clock >= old(api.world.clock) && Grown(old(api.history), api.history)
    ensures var m, k := old(Watch(cfg, api.history)), Watch(cfg, api.history);
            && DrainProgress(m, k)
            && accepted == k.accepted && (result != Aborted ==> k.loop == m.loop)
            && (if result == Finished then k.stage == Detached(n) else Draining(k.stage, n))
            && (result != Aborted ==> RoundDone(k.pods, n, k.accepted, k.attempted))
            && (result == Aborted ==> Stopped(old(api.history), api.history) || Blocked(n, k.pods))
  {
    accepted := accepted0;
    var listed := api.ListPods(ctx, n);
    Permit(cfg, api.history);
    Refusal(cfg, api.history);
    if listed.Refused? {
      return Aborted, accepted;
    }
    result, accepted := EvictPods(cfg, api, ctx, n, listed.pods, accepted);
    if result == Finished {
      result := CheckStorage(cfg, api, ctx, n);
    }
  }

  /** Before anything is changed, a blocking pod in the listing rules the drain out. */
  method CheckBlockers(cfg: Config, api: Api, ctx: Context, n: string) returns (ok: bool)
    requires Orderly(cfg, api) && Watch(cfg, api.history).stage.Vetting?
    requires Underway(Watch(cfg, api.history), ctx, n)
    modifies api`world, api`history
    ensures Orderly(cfg, api) && api.history.state.memory == old(api.history.state.memory)
    ensures api.world.clock >= old(api.world.clock) && Grown(old(api.history), api.history)
    ensures var m, k := old(Watch(cfg, api.history)), Watch(cfg, api.history);
            && k == m.(pods := k.pods, attempted := k.attempted, loop := m.loop.(drain := k.loop.drain))
            && (ok ==> k.loop.drain == m.loop.drain.(screened := true) && forall p | p in k.pods :: !DrainBlocker(p))
            && (!ok ==> Stopped(old(api.history), api.history) || exists p :: p in k.pods && DrainBlocker(p))
  {
    var listed := api.ListPods(ctx, n);
    Permit(cfg, api.history);
    Refusal(cfg, api.history);
    if listed.Refused? {
      return false;
    }
    for i := 0 to |listed.pods|
      invariant forall j | 0 <= j < i :: !DrainBlocker(listed.pods[j])
    {
      if DrainBlocker(listed.pods[i]) {
        return false;
      }
    }
    return true;
  }

  function Timeout(cfg: Config): Duration {
    if cfg.drainTimeout <= 0 then DEFAULT_DRAIN_TIMEOUT else cfg.drainTimeout
  }

  /** Polls until the drain is finished, cannot go on, or its time is up. The poller may catch up on
      missed intervals, so a pause can be shorter than one. */
  method WaitForDrain(cfg: Config, api: Api, deadline: Time, n: string) returns (ok: bool)
    requires Orderly(cfg, api) && !cfg.dryRun && Underway(Watch(cfg, api.history), Deadline(deadline), n)
    requires Watch(cfg, api.history).stage == Cordoned(n) && Watch(cfg, api.history).accepted == {}
    modifies api`world, api`history
    ensures Orderly(cfg, api) && api.history.state.memory == old(api.history.state.memory)
    ensures api.world.clock >= old(api.world.clock) && Grown(old(api.history), api.history)
    ensures var m, k := old(Watch(cfg, api.history)), Watch(cfg, api.history);
            && DrainProgress(m, k)
            && (if ok then k.stage == Detached(n) else Draining(k.stage, n))
            && (!ok ==> || Stopped(old(api.history), api.history) || Blocked(n, k.pods)
                        || Expired(Deadline(deadline), api.world.clock))
  {
    var accepted: set<string> := {};
    while true
      invariant Orderly(cfg, api) && api.history.state.memory == old(api.history.state.memory)
      invariant api.world.clock >= old(api.world.clock) && Grown(old(api.history), api.history)
      invariant DrainProgress(old(Watch(cfg, api.history)), Watch(cfg, api.history))
      invariant Draining(Watch(cfg, api.history).stage, n) && accepted == Watch(cfg, api.history).accepted
      invariant Watch(cfg, api.history).loop == old(Watch(cfg, api.history)).loop
      decreases deadline - api.world.clock
    {
      var result;
      result, accepted := PollDrain(cfg, api, Deadline(deadline), n, accepted);
      if result != NotYet {
        return result == Finished;
      }
      var pause: Duration := *;
      if pause < 1 || POLL_INTERVAL < pause {
        pause := POLL_INTERVAL;
      }
      api.Sleep(pause);
      Permit(cfg, api.history);
      Refusal(cfg, api.history);
      if Expired(Deadline(deadline), api.world.clock) {
        return false;
      }
    }
  }

  /** A drain failed for good reason: a call was refused for good, a pod blocks, or time is up. */
  ghost predicate Failed(before: History, h: History, m: Monitor, ctx: Context) {
    Stopped(before, h) || (exists p :: p in m.pods && DrainBlocker(p)) || Expired(ctx, h.state.world.clock)
  }

  /** Cordons the node and waits for the drain, under a deadline. */
  method CordonAndWait(cfg: Config, api: Api, ctx: Context, n: string) returns (ok: bool)
    requires Orderly(cfg, api) && !cfg.dryRun && Underway(Watch(cfg, api.history), ctx, n)
    requires Watch(cfg, api.history).stage == Vetting(n, |Chain(cfg)|) && Watch(cfg, api.history).loop.drain.screened
    modifies api`world, api`history
    ensures Orderly(cfg, api) && api.history.state.memory == old(api.history.state.memory)
    ensures api.world.clock >= old(api.world.clock) && Grown(old(api.history), api.history)
    ensures var m, k := old(Watch(cfg, api.history)), Watch(cfg, api.history);
            && DrainProgress(m, k)
            && (if ok then k.stage == Detached(n) else Draining(k.stage, n) || k.stage == m.stage)
            && (!ok ==> Failed(old(api.history), api.history, k, ctx))
  {
    ok := SetScheduling(cfg, api, ctx, n, true, false);
    if ok {
      ok := WaitForDrain(cfg, api, ctx.at, n);
      assert Deadline(ctx.at) == ctx;
    }
  }

  /** A drain begun at that time under this context has no time left. */
  predicate TimeUp(cfg: Config, ctx: Context, from: Time, now: Time) {
    Expired(ctx, now) || now > from + (if cfg.drainTimeout <= 0 then 900_000_000_000 else cfg.drainTimeout)
  }

  /** The drain of n has ended without success, for good reason: before its end a call was refused for good,
      or a listed pod blocks it, or its time is up. */
  ghost predicate GivenUp(cfg: Config, before: History, h: History, n: string, m: Monitor, ctx: Context) {
    && h.Then? && h.event == DrainEnds(n)
    && (|| (Stopped(before, h.past) && Faults(before) < Faults(h)) || (exists p :: p in m.pods && DrainBlocker(p))
        || TimeUp(cfg, ctx, before.state.world.clock, h.state.world.clock))
  }

  /** Reads the time at which the drain starts. */
  method StartDrain(cfg: Config, api: Api, n: string) returns (start: Time)
    requires Orderly(cfg, api)
    requires var m := Watch(cfg, api.history);
             m.stage == Vetting(n, |Chain(cfg)|) && m.loop.candidate.name == n && m.loop.drain.NoDrain?
    modifies api`world, api`history
    ensures Orderly(cfg, api) && api.history.state.memory == old(api.history.state.memory)
    ensures start == api.world.clock >= old(api.world.clock) && Grown(old(api.history), api.history)
    ensures var m := old(Watch(cfg, api.history));
            Watch(cfg, api.history) == m.(loop := m.loop.(drain := DrainUntil(start + DrainTime(cfg), false)))
  {
    start := api.StartDrain(n);
    Permit(cfg, api.history);
    Refusal(cfg, api.history);
  }

  ghost method EndDrain(cfg: Config, api: Api, n: string)
    requires Orderly(cfg, api)
    modifies api`history
    ensures Orderly(cfg, api) && api.history.state.memory == old(api.history.state.memory)
    ensures api.history.Then? && api.history.past == old(api.history) && api.history.event == DrainEnds(n)
    ensures Grown(old(api.history), api.history)
    ensures var m := old(Watch(cfg, api.history)); Watch(cfg, api.history) == m.(loop := m.loop.(drain := NoDrain))
  {
    api.Note(DrainEnds(n));
    Permit(cfg, api.history);
    Refusal(cfg, api.history);
  }

  /** The drain within its time: in a dry run only the blocking pods are looked for. */
  method DrainInTime(cfg: Config, api: Api, ctx: Context, n: string) returns (ok: bool)
    requires Orderly(cfg, api) && Underway(Watch(cfg, api.history), ctx, n)
    requires Watch(cfg, api.history).stage == Vetting(n, |Chain(cfg)|)
    modifies api`world, api`history
    ensures Orderly(cfg, api) && api.history.state.memory == old(api.history.state.memory)
    ensures api.world.clock >= old(api.world.clock) && Grown(old(api.history), api.history)
    ensures var m, k := old(Watch(cfg, api.history)), Watch(cfg, api.history);
            && DrainProgress(m, k)
            && (if cfg.dryRun then k.stage == m.stage && k.face == m.face
                else if ok then k.stage == Detached(n)
                else Draining(k.stage, n) || k.stage == m.stage)
            && (ok && cfg.dryRun ==> forall p | p in k.pods :: !DrainBlocker(p))
            && (!ok ==> Failed(old(api.history), api.history, k, ctx))
  {
    ok := CheckBlockers(cfg, api, ctx, n);
    if !ok || cfg.dryRun {
      return;
    }
    ok := CordonAndWait(cfg, api, ctx, n);
  }

  /** Cordons the node and waits for evicted pods to disappear and storage to detach, for no longer
      than the drain timeout. */
  method CordonAndDrain(cfg: Config, api: Api, ctx: Context, n: string) returns (ok: bool)
    requires Orderly(cfg, api) && MayCall(Watch(cfg, api.history), ctx)
    requires var m := Watch(cfg, api.history);
             m.stage == Vetting(n, |Chain(cfg)|) && m.loop.candidate.name == n && m.loop.drain.NoDrain?
    modifies api`world, api`history
    ensures Orderly(cfg, api) && api.history.state.memory == old(api.history.state.memory)
    ensures api.world.clock >= old(api.world.clock) && Grown(old(api.history), api.history)
    ensures var m, k := old(Watch(cfg, api.history)), Watch(cfg, api.history);
            && DrainProgress(m, k) && k.loop == m.loop
            && (if cfg.dryRun then k.stage == m.stage && k.face == m.face
                else if ok then k.stage == Detached(n)
                else Draining(k.stage, n) || k.stage == m.stage)
            && (ok && cfg.dryRun ==> forall p | p in k.pods :: !DrainBlocker(p))
            && (!ok ==> GivenUp(cfg, old(api.history), api.history, n, k, ctx))
    ensures ok && !cfg.dryRun && Calm(api.history, n) ==> Drained(api.world, n)
  {
    var start := StartDrain(cfg, api, n);
    var bounded := WithTimeout(ctx, start, Timeout(cfg));
    ok := DrainInTime(cfg, api, bounded, n);
    EndDrain(cfg, api, n);
    if ok && !cfg.dryRun && Calm(api.history, n) {
      DetachedIsDrained(cfg, api.history, n);
    }
  }
}
