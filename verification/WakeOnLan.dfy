/** Powering a host on by wake-on-LAN: the request is sent a few times, and after each the node is watched
    until it is up or the boot time is over. The history here is that of the power-on controller, in which
    a power-on is a request to the agent that wakes the host. */
module WakeOnLan {
  import opened Prelude
  import opened Clock
  import opened Cluster
  import opened Journal
  import opened ApiServer

  const CHECK_INTERVAL: Duration := 5 * SECOND

  /** Readiness checks that fit into one boot time: the quotient rounded up. */
  function ChecksPerAttempt(bootTimeout: Duration): nat {
    if bootTimeout <= 0 then 0 else (bootTimeout + 4_999_999_999) / 5_000_000_000
  }

  /** The last entry shows the node up. */
  ghost predicate SawReady(h: History, node: string) {
    h.Then? && h.event.Called? && h.event.call == GetNode(node) && h.event.reply.One? && h.event.reply.node.ready
  }

  /** How often the node was read after h0. */
  ghost function Checks(h: History, h0: History, node: string): nat {
    if h == h0 || h.Start? then 0
    else Checks(h.past, h0, node) + if h.event.Called? && h.event.call == GetNode(node) then 1 else 0
  }

  lemma {:induction false} ChecksAdd(h: History, mid: History, h0: History, node: string)
    requires Continues(h, mid) && Continues(mid, h0)
    ensures Continues(h, h0) && Checks(h, h0, node) == Checks(h, mid, node) + Checks(mid, h0, node)
  {
    if h != mid {
      ChecksAdd(h.past, mid, h0, node);
      NoLoop(h, mid);
      if mid != h0 {
        NoLoop(mid, h0);
      }
    }
  }

  lemma OneMoreCheck(checks: nat, elapsed: Duration, bootTimeout: Duration)
    requires checks * CHECK_INTERVAL <= elapsed < bootTimeout
    ensures checks + 1 <= ChecksPerAttempt(bootTimeout)
  {
  }

  /** Since h0 the node has not been seen up. */
  ghost predicate NeverUp(h: History, h0: History, node: string) {
    h == h0 || (h.Then? && NeverUp(h.past, h0, node) && !SawReady(h, node))
  }

  lemma {:induction false} NeverUpAdd(h: History, mid: History, h0: History, node: string)
    requires Continues(h, mid) && NeverUp(h, mid, node) && NeverUp(mid, h0, node)
    ensures NeverUp(h, h0, node)
  {
    if h != mid {
      NeverUpAdd(h.past, mid, h0, node);
    }
  }

  predicate LooksAt(e: Event, node: string) {
    e.Called? && e.call == GetNode(node)
  }

  /** After h0 it was waited only right after a look at the node, and for five seconds at most. */
  ghost predicate Patient(h: History, h0: History, node: string) {
    || h == h0
    || (&& h.Then? && Patient(h.past, h0, node)
        && (h.event.Waited? ==> h.event.d <= 5_000_000_000 && h.past.Then? && LooksAt(h.past.event, node)))
  }

  lemma {:induction false} PatientAdd(h: History, mid: History, h0: History, node: string)
    requires Continues(h, mid) && Patient(h, mid, node) && Patient(mid, h0, node)
    ensures Patient(h, h0, node)
  {
    if h != mid {
      PatientAdd(h.past, mid, h0, node);
    }
  }

  /** How often the host was asked to wake up after h0. */
  ghost function Sends(h: History, h0: History, node: string, mac: Value): nat {
    if h == h0 || h.Start? then 0
    else Sends(h.past, h0, node, mac) + if h.event.Called? && h.event.call == Call.PowerOn(node, mac) then 1 else 0
  }

  lemma {:induction false} SendsAdd(h: History, mid: History, h0: History, node: string, mac: Value)
    requires Continues(h, mid) && Continues(mid, h0)
    ensures Continues(h, h0) && Sends(h, h0, node, mac) == Sends(h, mid, node, mac) + Sends(mid, h0, node, mac)
  {
    if h != mid {
      SendsAdd(h.past, mid, h0, node, mac);
      NoLoop(h, mid);
      if mid != h0 {
        NoLoop(mid, h0);
      }
    }
  }

  /** From h1 to h the node was looked at so often and asked to wake up so often, and was not seen up. */
  ghost predicate Watched(h: History, h1: History, node: string, mac: Value, checks: nat, sends: nat) {
    && Continues(h, h1) && NeverUp(h, h1, node) && Patient(h, h1, node)
    && Checks(h, h1, node) == checks && Sends(h, h1, node, mac) == sends
  }

  lemma WatchedOn(h: History, mid: History, h0: History, node: string, mac: Value, a: nat, b: nat, c: nat, d: nat)
    requires Watched(mid, h0, node, mac, a, b) && Watched(h, mid, node, mac, c, d)
    ensures Watched(h, h0, node, mac, a + c, b + d)
  {
    ChecksAdd(h, mid, h0, node);
    SendsAdd(h, mid, h0, node, mac);
    NeverUpAdd(h, mid, h0, node);
    PatientAdd(h, mid, h0, node);
  }

  /** What one entry adds. */
  lemma OneEntry(h: History, h0: History, node: string, mac: Value)
    requires h.Then? && h.past == h0
    ensures Continues(h, h0) && (NeverUp(h, h0, node) <==> !SawReady(h, node))
    ensures (h.event.Waited? ==> h.event.d <= 5_000_000_000 && h0.Then? && LooksAt(h0.event, node)) ==>
              Patient(h, h0, node)
    ensures Checks(h, h0, node) == if h.event.Called? && h.event.call == GetNode(node) then 1 else 0
    ensures Sends(h, h0, node, mac) == if h.event.Called? && h.event.call == Call.PowerOn(node, mac) then 1 else 0
  {
    NoLoop(h, h0);
    assert NeverUp(h0, h0, node) && Patient(h0, h0, node);
    assert Checks(h0, h0, node) == 0 && Sends(h0, h0, node, mac) == 0;
  }

  datatype Wait = Up | TimedOut | Cancelled

  /** One look at the node. */
  method CheckNodeReady(api: Api, ctx: Context, node: string, ghost mac: Value) returns (ready: bool)
    requires api.Valid()
    modifies api`world, api`history
    ensures api.Valid() && Continues(api.history, old(api.history)) && Patient(api.history, old(api.history), node)
    ensures api.history.Then? && LooksAt(api.history.event, node) && api.world.clock >= old(api.world.clock)
    ensures if ready then SawReady(api.history, node) else NeverUp(api.history, old(api.history), node)
    ensures Checks(api.history, old(api.history), node) == 1 && Sends(api.history, old(api.history), node, mac) == 0
  {
    var reply := api.GetNode(ctx, node);
    OneEntry(api.history, old(api.history), node, mac);
    ready := reply.One? && reply.node.ready;
  }

  method ReadClock(api: Api, node: string, ghost mac: Value) returns (now: Time)
    requires api.Valid()
    modifies api`world, api`history
    ensures api.Valid() && Watched(api.history, old(api.history), node, mac, 0, 0)
    ensures now == api.world.clock >= old(api.world.clock)
  {
    now := api.Now();
    OneEntry(api.history, old(api.history), node, mac);
  }

  /** After a look, waits for five seconds, or until the context expires. */
  method Pause(api: Api, ctx: Context, node: string, ghost mac: Value) returns (cancelled: bool)
    requires api.Valid() && api.history.Then? && LooksAt(api.history.event, node)
    modifies api`world, api`history
    ensures api.Valid() && Watched(api.history, old(api.history), node, mac, 0, 0)
    ensures if cancelled then Expired(ctx, api.world.clock)
            else api.world.clock >= old(api.world.clock) + CHECK_INTERVAL
    ensures api.world.clock >= old(api.world.clock)
  {
    var d := CHECK_INTERVAL;
    cancelled := ctx.Deadline? && ctx.at < api.world.clock + CHECK_INTERVAL;
    if cancelled {
      d := Max(0, ctx.at + 1 - api.world.clock);
    }
    api.Sleep(d);
    OneEntry(api.history, old(api.history), node, mac);
  }

  /** How a wait ends: with the node seen up; or without, when the boot timeout is over or the context expired. */
  ghost predicate Ended(result: Wait, ctx: Context, bootTimeout: Duration, h: History, h0: History, node: string) {
    match result
    case Up => SawReady(h, node)
    case TimedOut => NeverUp(h, h0, node) && h.state.world.clock >= h0.state.world.clock + bootTimeout
    case Cancelled => NeverUp(h, h0, node) && Expired(ctx, h.state.world.clock)
  }

  /** Looks at the node every five seconds, until it is up, the boot timeout is over or the context expires. */
  method AwaitReady(api: Api, ctx: Context, node: string, ghost mac: Value, bootTimeout: Duration)
    returns (result: Wait, ghost checks: nat)
    requires api.Valid() && bootTimeout <= MAX_DURATION
    modifies api`world, api`history
    ensures api.Valid() && Continues(api.history, old(api.history)) && api.world.clock >= old(api.world.clock)
    ensures Patient(api.history, old(api.history), node)
    ensures Checks(api.history, old(api.history), node) == checks <= ChecksPerAttempt(bootTimeout)
    ensures Sends(api.history, old(api.history), node, mac) == 0
    ensures Ended(result, ctx, bootTimeout, api.history, old(api.history), node)
  {
    var start := ReadClock(api, node, mac);
    checks := 0;
    while true
      invariant api.Valid() && Watched(api.history, old(api.history), node, mac, checks, 0)
      invariant checks <= ChecksPerAttempt(bootTimeout)
      invariant api.world.clock - start >= checks * CHECK_INTERVAL
      decreases start + bootTimeout - api.world.clock
    {
      ghost var before := api.history;
      var now := ReadClock(api, node, mac);
      WatchedOn(api.history, before, old(api.history), node, mac, checks, 0, 0, 0);
      if Sub(now, start) >= bootTimeout {
        SubReached(now, start, bootTimeout);
        return TimedOut, checks;
      }
      OneMoreCheck(checks, now - start, bootTimeout);
      var ended := LookAndPause(api, ctx, node, mac, old(api.history), checks);
      checks := checks + 1;
      if ended.Some? {
        return ended.value, checks;
      }
    }
  }

  /** One look at the node, and the pause after it. */
  method LookAndPause(api: Api, ctx: Context, node: string, ghost mac: Value, ghost h0: History, ghost checks: nat)
    returns (ended: Option<Wait>)
    requires api.Valid() && Watched(api.history, h0, node, mac, checks, 0)
    modifies api`world, api`history
    ensures api.Valid() && Continues(api.history, h0) && Patient(api.history, h0, node)
    ensures Checks(api.history, h0, node) == checks + 1 && Sends(api.history, h0, node, mac) == 0
    ensures api.world.clock >= old(api.world.clock)
    ensures match ended
            case None => NeverUp(api.history, h0, node) && api.world.clock >= old(api.world.clock) + CHECK_INTERVAL
            case Some(Up) => SawReady(api.history, node)
            case Some(Cancelled) => NeverUp(api.history, h0, node) && Expired(ctx, api.world.clock)
            case Some(TimedOut) => false
  {
    ghost var before := api.history;
    var ready := CheckNodeReady(api, ctx, node, mac);
    ChecksAdd(api.history, before, h0, node);
    SendsAdd(api.history, before, h0, node, mac);
    PatientAdd(api.history, before, h0, node);
    if ready {
      return Some(Up);
    }
    NeverUpAdd(api.history, before, h0, node);
    ghost var looked := api.history;
    var cancelled := Pause(api, ctx, node, mac);
    WatchedOn(api.history, looked, h0, node, mac, checks + 1, 0, 0, 0);
    ended := if cancelled then Some(Cancelled) else None;
  }

  /** Asks the agent to wake the host, for at most ten seconds; whether that worked is not known. */
  method SendRequest(api: Api, ctx: Context, node: string, mac: Value)
    requires api.Valid()
    modifies api`world, api`history
    ensures api.Valid() && Watched(api.history, old(api.history), node, mac, 0, 1)
    ensures api.world.clock >= old(api.world.clock)
    ensures var limit := old(api.world.clock) + 10_000_000_000;
            && api.history.Then? && api.history.event.Called?
            && api.history.event.ctx == if ctx.Deadline? && ctx.at <= limit then ctx else Deadline(limit)
  {
    var reply := api.PowerOn(WithTimeout(ctx, api.world.clock, 10 * SECOND), node, mac);
    OneEntry(api.history, old(api.history), node, mac);
  }

  /** One request, and the wait for its effect. */
  method Attempt(api: Api, ctx: Context, node: string, mac: Value, bootTimeout: Duration)
    returns (result: Wait, ghost checks: nat)
    requires api.Valid() && bootTimeout <= MAX_DURATION
    modifies api`world, api`history
    ensures api.Valid() && Continues(api.history, old(api.history)) && api.world.clock >= old(api.world.clock)
    ensures Patient(api.history, old(api.history), node)
    ensures Checks(api.history, old(api.history), node) == checks <= ChecksPerAttempt(bootTimeout)
    ensures Sends(api.history, old(api.history), node, mac) == 1
    ensures Ended(result, ctx, bootTimeout, api.history, old(api.history), node)
  {
    SendRequest(api, ctx, node, mac);
    ghost var sent := api.history;
    result, checks := AwaitReady(api, ctx, node, mac, bootTimeout);
    ChecksAdd(api.history, sent, old(api.history), node);
    SendsAdd(api.history, sent, old(api.history), node, mac);
    PatientAdd(api.history, sent, old(api.history), node);
    if !result.Up? {
      NeverUpAdd(api.history, sent, old(api.history), node);
    }
  }

  /** Success means that the node was seen up, except in a dry run, which does nothing. Failure means that no
      agent was found, that the context expired, or that all configured requests were sent and each was waited
      for; and in any case that the node was never seen up. The node is looked at a bounded number of times, and
      it is waited only right after a look, for five seconds at most. */
  method PowerOn(api: Api, ctx: Context, node: string, mac: Value, dryRun: bool, agentFound: bool,
                 bootTimeout: Duration, maxRetries: nat) returns (ok: bool, ghost sent: nat)
    requires api.Valid() && bootTimeout <= MAX_DURATION
    modifies api`world, api`history
    ensures api.Valid() && Continues(api.history, old(api.history))
    ensures dryRun ==> ok && api.history == old(api.history)
    ensures ok && !dryRun ==> SawReady(api.history, node) && sent > 0
    ensures !ok ==> NeverUp(api.history, old(api.history), node)
    ensures !ok ==>
              || !agentFound || Expired(ctx, api.world.clock)
              || (sent == maxRetries && api.world.clock >= old(api.world.clock) + maxRetries * bootTimeout)
    ensures Sends(api.history, old(api.history), node, mac) == sent <= maxRetries
    ensures Patient(api.history, old(api.history), node)
    ensures Checks(api.history, old(api.history), node) <= maxRetries * ChecksPerAttempt(bootTimeout)
  {
    sent := 0;
    if dryRun {
      return true, sent;
    }
    if !agentFound {
      return false, sent;
    }
    ghost var h0, start := api.history, api.world.clock;
    ghost var checks: nat := 0;
    for attempt := 0 to maxRetries
      invariant api.Valid() && sent == attempt && Watched(api.history, h0, node, mac, checks, sent)
      invariant checks <= attempt * ChecksPerAttempt(bootTimeout)
      invariant api.world.clock >= start + attempt * bootTimeout
    {
      ghost var before := api.history;
      var result;
      ghost var more;
      result, more := Attempt(api, ctx, node, mac, bootTimeout);
      ChecksAdd(api.history, before, h0, node);
      SendsAdd(api.history, before, h0, node, mac);
      PatientAdd(api.history, before, h0, node);
      OneAttemptMore(attempt, maxRetries, ChecksPerAttempt(bootTimeout));
      sent := sent + 1;
      if result.Up? {
        return true, sent;
      }
      NeverUpAdd(api.history, before, h0, node);
      if result.Cancelled? {
        return false, sent;
      }
      checks := checks + more;
      OneTimeoutMore(attempt, bootTimeout);
    }
    ok := false;
  }

  lemma OneTimeoutMore(attempt: nat, bootTimeout: Duration)
    ensures attempt * bootTimeout + bootTimeout == (attempt + 1) * bootTimeout
  {
  }

  lemma OneAttemptMore(attempt: nat, maxRetries: nat, checks: nat)
    requires attempt < maxRetries
    ensures attempt * checks + checks == (attempt + 1) * checks <= maxRetries * checks
  {
    var left := maxRetries - attempt - 1;
    assert maxRetries * checks == (attempt + 1) * checks + left * checks;
  }
}
