/** The autoscaler's volatile memory of cooldowns and powered-off nodes. */
module Tracker {
  import opened Clock
  import opened Journal

  class NodeStateTracker {
    var shutdownTimestamps: map<string, Time>
    var bootTimestamps: map<string, Time>
    var poweredOff: set<string>
    var lastShutdownTime: Time

    constructor ()
      ensures View() == BLANK
    {
      shutdownTimestamps, bootTimestamps := map[], map[];
      poweredOff := {};
      lastShutdownTime := ZERO_TIME;
    }

    ghost function View(): Memory
      reads this
    {
      Memory(shutdownTimestamps, bootTimestamps, poweredOff, lastShutdownTime)
    }

    method MarkShutdown(n: string, now: Time)
      modifies this
      ensures View() == Remember(old(View()), ShutDown(n, now))
    {
      shutdownTimestamps := shutdownTimestamps[n := now];
    }

    predicate IsInCooldown(n: string, now: Time, cooldown: Duration)
      reads this
      ensures IsInCooldown(n, now, cooldown) <==> InShutdownCooldown(View(), n, now, cooldown)
    {
      if n !in shutdownTimestamps then false else Sub(now, shutdownTimestamps[n]) < cooldown
    }

    method MarkPoweredOff(n: string)
      modifies this
      ensures View() == Remember(old(View()), Off(n))
    {
      poweredOff := poweredOff + {n};
    }

    method ClearPoweredOff(n: string)
      modifies this
      ensures View() == Remember(old(View()), NotOff(n))
    {
      poweredOff := poweredOff - {n};
    }

    predicate IsPoweredOff(n: string)
      reads this
      ensures IsPoweredOff(n) <==> n in View().off
    {
      n in poweredOff
    }

    method MarkGlobalShutdown(now: Time)
      modifies this
      ensures View() == Remember(old(View()), Operation(now))
    {
      lastShutdownTime := now;
    }

    predicate IsGlobalCooldownActive(now: Time, cooldown: Duration)
      reads this
      ensures IsGlobalCooldownActive(now, cooldown) <==> GlobalCooldownActive(View(), now, cooldown)
    {
      Sub(now, lastShutdownTime) < cooldown
    }

    method MarkBooted(n: string, now: Time)
      modifies this
      ensures View() == Remember(old(View()), Booted(n, now))
    {
      bootTimestamps := bootTimestamps[n := now];
    }

    predicate IsBootCooldownActive(n: string, now: Time, cooldown: Duration)
      reads this
      ensures IsBootCooldownActive(n, now, cooldown)
              <==> n in View().bootedAt && Sub(now, View().bootedAt[n]) < cooldown
    {
      if n !in bootTimestamps then false else Sub(now, bootTimestamps[n]) < cooldown
    }
  }
}
