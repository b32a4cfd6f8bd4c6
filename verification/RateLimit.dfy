/** How often the autoscaler switches hosts. */
module RateLimit {
  import opened Prelude
  import opened Clock
  import opened Cluster
  import opened Settings
  import opened Journal

  predicate IsOperation(e: Event) {
    e.Noted? && e.op.Operation?
  }

  /** When the operations of this process were recorded, the earliest first. */
  ghost function OperationTimes(h: History): seq<Time> {
    match h
    case Start(_) => []
    case Then(past, _, e, _) =>
      if e.Restarted? then []
      else if IsOperation(e) then OperationTimes(past) + [e.op.at]
      else OperationTimes(past)
  }

  /** How many operations were recorded in the present loop. */
  ghost function OperationsInLoop(h: History): nat {
    match h
    case Start(_) => 0
    case Then(past, _, e, _) =>
      if e.Begin? || e.Restarted? then 0
      else OperationsInLoop(past) + if IsOperation(e) then 1 else 0
  }

  ghost predicate Spaced(times: seq<Time>, d: Duration) {
    forall i | 0 < i < |times| :: times[i] - times[i - 1] >= Max(d, 0)
  }

  /** What the memory of the last operation has to do with the operations so far. */
  ghost predicate Kept(cfg: Config, h: History, m: Monitor) {
    var times := OperationTimes(h);
    && m.work.operations == OperationsInLoop(h)
    && Spaced(times, cfg.cooldown)
    && (times != [] ==>
          && h.state.memory.lastOperation == times[|times| - 1] <= h.state.world.clock
          && (m.work.operations == 0 ==> times[|times| - 1] <= m.loop.begun))
  }

  /** A new process is in no global cooldown: no operation is remembered, and that counts as long ago. */
  lemma NewProcessIsFree(now: Time, cooldown: Duration)
    requires now >= 0 && cooldown <= 0x7FFF_FFFF_FFFF_FFFF
    ensures !GlobalCooldownActive(BLANK, now, cooldown)
  {
  }

  lemma CallKept(cfg: Config, h: History, m: Monitor)
    requires h.Then? && h.event.Called? && Kept(cfg, h.past, m)
    requires StepTruthful(h.past.state.memory, h.seen, h.event, h.state) && Outside(h.past.state.world, h.seen)
    ensures Kept(cfg, h, AfterCall(m, h.event.call, h.event.reply))
  {
    CallKeepsLoop(m, h.event.call, h.event.reply);
    ClockStands(h.past.state.memory, h.seen, h.event, h.state);
  }

  lemma OperationKept(cfg: Config, h: History, m: Monitor)
    requires h.Then? && IsOperation(h.event) && Kept(cfg, h.past, m) && !cfg.forcePowerOn
    requires StepTruthful(h.past.state.memory, h.seen, h.event, h.state) && Outside(h.past.state.world, h.seen)
    requires Allowed(cfg, m, h.past.state, h.seen, h.event) && m.loop.begun <= h.past.state.world.clock
    ensures Kept(cfg, h, After(cfg, m, h.past.state.memory, h.seen, h.event))
  {
    var times := OperationTimes(h.past);
    if times != [] {
      SubReached(m.loop.begun, times[|times| - 1], cfg.cooldown);
    }
  }

  lemma NoteKept(cfg: Config, h: History, m: Monitor)
    requires h.Then? && !h.event.Called? && !IsOperation(h.event)
    requires Kept(cfg, h.past, m)
    requires StepTruthful(h.past.state.memory, h.seen, h.event, h.state) && Outside(h.past.state.world, h.seen)
    ensures Kept(cfg, h, After(cfg, m, h.past.state.memory, h.seen, h.event))
  {
  }

  lemma {:induction false} AlwaysKept(cfg: Config, h: History)
    requires Truthful(h) && Justified(cfg, h) && !cfg.forcePowerOn
    ensures Kept(cfg, h, Replay(cfg, h))
  {
    if h.Then? {
      AlwaysKept(cfg, h.past);
      var m := Replay(cfg, h.past);
      LoopBegan(cfg, h.past);
      if h.event.Called? {
        CallKept(cfg, h, m);
      } else if IsOperation(h.event) {
        OperationKept(cfg, h, m);
      } else {
        NoteKept(cfg, h, m);
      }
    }
  }

  lemma {:induction false} SpacedApart(times: seq<Time>, d: Duration, i: nat, j: nat)
    requires Spaced(times, d) && i <= j < |times|
    ensures times[j] - times[i] >= (j - i) * Max(d, 0)
    decreases j
  {
    if i < j {
      SpacedApart(times, d, i, j - 1);
      assert (j - i) * Max(d, 0) == (j - 1 - i) * Max(d, 0) + Max(d, 0);
    }
  }

  /** A reconcile loop records at most one operation. */
  lemma {:induction false} OneOperationPerLoop(cfg: Config, h: History)
    requires Truthful(h) && Justified(cfg, h) && !cfg.forcePowerOn
    ensures OperationsInLoop(h) <= 1
  {
    if h.Then? {
      OneOperationPerLoop(cfg, h.past);
      AlwaysKept(cfg, h.past);
    }
  }

  /** The operations of one process, the i-th to the j-th, take at least the cooldown each but the first;
      so N of them do not fit into a window shorter than N - 1 cooldowns. */
  lemma OperationsAreSpaced(cfg: Config, h: History, i: nat, j: nat)
    requires Truthful(h) && Justified(cfg, h) && !cfg.forcePowerOn && cfg.cooldown >= 0
    requires i <= j < |OperationTimes(h)|
    ensures OperationTimes(h)[j] - OperationTimes(h)[i] >= (j - i) * cfg.cooldown
  {
    AlwaysKept(cfg, h);
    SpacedApart(OperationTimes(h), cfg.cooldown, i, j);
  }
}
