/** A node that is cordoned and not marked off: how the autoscaler can leave one behind, and that it never
    takes notice of it again. */
module Limbo {
  import opened Prelude
  import opened Clock
  import opened Cluster
  import opened Settings
  import opened Journal
  import opened MinimumService
  import opened LostReply
  import opened Rollback
  import opened CrashSafety

  /** Cordoned, and not marked off. */
  predicate InLimbo(f: Option<Face>) {
    f.Some? && f.value.unschedulable && f.value.mark == None
  }

  // ----- A run that leaves one

  lemma RefuseOne(cfg: Config, h0: History, w: World, a: Node, v: World, face: Face) returns (h: History)
    requires At(cfg, h0, w, a, v, Marked(a.name), KnownMark, face) && !cfg.dryRun
    ensures At(cfg, h, w, a, v, Marked(a.name), KnownMark, face)
  {
    h := Next(cfg, h0, Called(Deadline(v.clock + 30 * SECOND), Call.Shutdown(a.name), Refused(Failure, false)), v);
  }

  lemma ClearAllowed(cfg: Config, m: Monitor, now: State, n: string)
    requires !cfg.dryRun && m.stage == RollingBack(n) && m.loop.ctx == Background && m.loop.candidate.markKnown
    requires m.loop.drain.NoDrain?
    ensures Allowed(cfg, m, now, now.world, Called(Background, PatchNode(n, CLEAR_PATCH), Done))
  {
  }

  lemma ClearAccounted(m: Monitor, n: string)
    requires m.stage == RollingBack(n) && m.loop.candidate.name == n && m.face.Some?
    ensures var k := Annotated(m, n, CLEAR_PATCH, Done);
            && k.stage == m.stage && k.loop == m.loop.(retracted := true)
            && k.face == Some(m.face.value.(mark := None))
  {
  }

  function ClearedWorld(v: World, n: string): World
    requires n in v.nodes
  {
    Put(v, Patched(v.nodes[n], CLEAR_PATCH))
  }

  lemma ClearTruthful(memory: Memory, v: World, n: string)
    requires n in v.nodes
    ensures StepTruthful(memory, v, Called(Background, PatchNode(n, CLEAR_PATCH), Done),
                         State(ClearedWorld(v, n), memory))
  {
  }

  lemma ClearOne(cfg: Config, h0: History, w: World, a: Node, v: World, face: Face) returns (h: History)
    requires At(cfg, h0, w, a, v, RollingBack(a.name), KnownMark, face) && a.name in v.nodes && !cfg.dryRun
    ensures At(cfg, h, w, a, ClearedWorld(v, a.name), RollingBack(a.name), KnownMark, face.(mark := None))
  {
    ClearAllowed(cfg, Replay(cfg, h0), h0.state, a.name);
    ClearTruthful(h0.state.memory, v, a.name);
    ClearAccounted(Replay(cfg, h0), a.name);
    h := Next(cfg, h0, Called(Background, PatchNode(a.name, CLEAR_PATCH), Done), ClearedWorld(v, a.name));
  }

  /** The host refuses to shut down, and the rollback has removed the mark. */
  lemma RemoveTheMark(cfg: Config, w: World, a: Node, b: Node) returns (h: History)
    requires QuietPair(cfg, w, a, b)
    ensures var v := Flagged(w, a.name, true);
            At(cfg, h, w, a, ClearedWorld(MarkedWorld(v, a.name), a.name), RollingBack(a.name), KnownMark, Cordon(a))
  {
    var v := Flagged(w, a.name, true);
    h := DrainOne(cfg, w, a, b);
    h := MarkOne(cfg, h, w, a, v, Done);
    h := RefuseOne(cfg, h, w, a, MarkedWorld(v, a.name), MarkedFaceOf(a, v));
    h := AbortOne(cfg, h, w, a, MarkedWorld(v, a.name), KnownMark, MarkedFaceOf(a, v));
    h := ClearOne(cfg, h, w, a, MarkedWorld(v, a.name), MarkedFaceOf(a, v));
  }

  /** The process dies between the removal of the mark and the uncordon: the node is in limbo, and the next
      process knows nothing of it. */
  lemma DieBeforeUncordon(cfg: Config, w: World, a: Node, b: Node) returns (h: History)
    requires QuietPair(cfg, w, a, b)
    ensures Truthful(h) && Justified(cfg, h) && h.Then? && h.event == Restarted && h.state.memory == BLANK
    ensures LeftAlone(h.past, a.name) && InLimbo(FaceIn(h.state.world, a.name))
    ensures a.name in h.state.world.nodes && forall now :: !NeedsRecovery(cfg, h.state.world.nodes[a.name], now)
  {
    h := RemoveTheMark(cfg, w, a, b);
    AlwaysTracked(cfg, h);
    h := Next(cfg, h, Restarted, h.state.world);
  }

  // ----- Nobody comes back for it

  /** Listed like this a node is in limbo. */
  predicate Unseen(x: Node) {
    x.unschedulable && POWERED_OFF !in x.annotations
  }

  ghost predicate ListsUnseen(nodes: seq<Node>, n: string) {
    && (forall x | x in nodes && x.name == n :: Unseen(x))
    && (exists x :: x in nodes && x.name == n)
  }

  /** Nothing that the autoscaler knows would lead it to the node. */
  ghost predicate Overlooked(m: Monitor, n: string) {
    && (m.listing.Some? ==> ListsUnseen(m.listing.value, n))
    && (m.work.roster.Some? ==> ListsUnseen(m.work.roster.value, n))
    && n !in m.work.eligible && n !in m.work.powered
    && m.plan.head != Longest(n) && m.plan.wanted != Some(n)
    && (m.loop.overdue.Some? ==> m.loop.overdue.value.name != n)
    && (Active(m.stage) ==> m.stage.name != n)
  }

  ghost predicate Forgotten(w: World, off: set<string>, m: Monitor, n: string) {
    InLimbo(FaceIn(w, n)) && n !in off && Overlooked(m, n)
  }

  lemma LimboIsUnseen(w: World, nodes: seq<Node>, n: string)
    requires WellFormed(w) && IsListing(nodes, w) && InLimbo(FaceIn(w, n))
    ensures ListsUnseen(nodes, n)
  {
    assert w.nodes[n] in nodes;
  }

  /** No write, power-on or shutdown is permitted. */
  lemma NotTouched(cfg: Config, m: Monitor, clock: Time, seen: World, call: Call, reply: Reply, n: string)
    requires Overlooked(m, n) && !cfg.forcePowerOn && CallAllowed(cfg, m, clock, seen, call, reply)
    ensures !Touches(Called(Background, call, reply), n)
  {
  }

  /** A write to n, a request to power it on or to shut it down. */
  predicate Touches(e: Event, n: string) {
    && e.Called?
    && match e.call
       case UpdateNode(node) => node.name == n && Applied(e.reply)
       case PatchNode(p, _) => p == n
       case PowerOn(p, _) => p == n
       case Shutdown(p) => p == n
       case _ => false
  }

  lemma ReadOverlooks(m: Monitor, call: Call, reply: Reply, n: string)
    requires Overlooked(m, n) && !((call.UpdateNode? || call.PatchNode?) && Applied(reply))
    requires call.PowerOn? ==> call.name != n
    requires call.ListNodes? && reply.Nodes? ==> ListsUnseen(reply.nodes, n)
    ensures Overlooked(AfterCall(m, call, reply), n)
  {
  }

  lemma UpdateOverlooks(m: Monitor, node: Node, n: string)
    requires Overlooked(m, n) && node.name != n
    ensures Overlooked(Rescheduled(m, node.name, node.unschedulable), n)
  {
  }

  /** Nothing new is found out about nodes other than p. */
  ghost predicate OnlyAbout(m: Monitor, k: Monitor, p: string) {
    && k.listing.None? && k.plan == Overtaken(m.plan) && k.loop.overdue == m.loop.overdue
    && k.work.roster == m.work.roster && k.work.powered == m.work.powered && k.work.eligible <= m.work.eligible
    && (Active(k.stage) ==> k.stage.name == p || (Active(m.stage) && k.stage.name == m.stage.name))
  }

  lemma PatchIsAbout(m: Monitor, p: string, patch: Patch, reply: Reply)
    ensures OnlyAbout(m, Annotated(m, p, patch, reply), p)
  {
  }

  lemma OthersOverlooked(m: Monitor, k: Monitor, p: string, n: string)
    requires Overlooked(m, n) && OnlyAbout(m, k, p) && p != n
    ensures Overlooked(k, n)
  {
  }

  lemma PatchOverlooks(m: Monitor, p: string, patch: Patch, reply: Reply, n: string)
    requires Overlooked(m, n) && p != n
    ensures Overlooked(Annotated(m, p, patch, reply), n)
  {
    PatchIsAbout(m, p, patch, reply);
    OthersOverlooked(m, Annotated(m, p, patch, reply), p, n);
  }

  lemma CallForgets(cfg: Config, h: History, m: Monitor, n: string)
    requires h.Then? && h.event.Called? && WellFormed(h.seen) && !cfg.forcePowerOn
    requires Forgotten(h.seen, h.past.state.memory.off, m, n)
    requires StepTruthful(h.past.state.memory, h.seen, h.event, h.state)
    requires CallAllowed(cfg, m, h.past.state.world.clock, h.seen, h.event.call, h.event.reply)
    ensures Forgotten(h.state.world, h.state.memory.off, AfterCall(m, h.event.call, h.event.reply), n)
    ensures FaceIn(h.state.world, n) == FaceIn(h.seen, n) && !Touches(h.event, n)
  {
    NotTouched(cfg, m, h.past.state.world.clock, h.seen, h.event.call, h.event.reply, n);
    if Write(h.event) {
      WriteFaces(cfg, h, m);
      match h.event.call
      case UpdateNode(node) => UpdateOverlooks(m, node, n);
      case PatchNode(p, patch) => PatchOverlooks(m, p, patch, h.event.reply, n);
    } else {
      assert h.state.world.nodes == h.seen.nodes;
      if h.event.call.ListNodes? && h.event.reply.Nodes? {
        LimboIsUnseen(h.seen, h.event.reply.nodes, n);
      }
      ReadOverlooks(m, h.event.call, h.event.reply, n);
    }
  }

  /** It is not the node off the longest, nor is it due for rotation, nor eligible for shutdown. */
  lemma NeverListed(cfg: Config, nodes: seq<Node>, memory: Memory, now: Time, n: string)
    requires ListsUnseen(nodes, n) && n !in memory.off
    ensures !LongestOff(cfg, nodes, memory, n) && n !in EligibleNames(cfg, nodes, memory, now)
    ensures forall x | x in nodes && Overduely(cfg, x, now) :: x.name != n
  {
  }

  lemma NotedForgets(cfg: Config, h: History, m: Monitor, n: string)
    requires h.Then? && h.event.Noted? && Forgotten(h.seen, h.past.state.memory.off, m, n)
    requires StepTruthful(h.past.state.memory, h.seen, h.event, h.state)
    requires Allowed(cfg, m, h.past.state, h.seen, h.event)
    ensures Forgotten(h.state.world, h.state.memory.off, After(cfg, m, h.past.state.memory, h.seen, h.event), n)
  {
  }

  /** Notes that say nothing new about any node. */
  predicate Telling(e: Event) {
    || e.Tick? || e.Waited? || e.Swept? || e.Deciding? || e.Counted? || e.Measured? || e.Weighed? || e.Verdict?
    || e.DrainStarts? || e.DrainEnds? || e.Alarm? || e.Rotated?
  }

  lemma TellingForgets(cfg: Config, h: History, m: Monitor, n: string)
    requires h.Then? && Telling(h.event)
    requires Forgotten(h.seen, h.past.state.memory.off, m, n)
    requires StepTruthful(h.past.state.memory, h.seen, h.event, h.state)
    requires Allowed(cfg, m, h.past.state, h.seen, h.event)
    ensures Forgotten(h.state.world, h.state.memory.off, After(cfg, m, h.past.state.memory, h.seen, h.event), n)
  {
  }

  lemma FindingForgets(cfg: Config, h: History, m: Monitor, n: string)
    requires h.Then? && !h.event.Called? && !StartsLoop(h.event) && !h.event.Noted? && !cfg.forcePowerOn
    requires !Telling(h.event)
    requires Forgotten(h.seen, h.past.state.memory.off, m, n)
    requires StepTruthful(h.past.state.memory, h.seen, h.event, h.state)
    requires Allowed(cfg, m, h.past.state, h.seen, h.event)
    ensures Forgotten(h.state.world, h.state.memory.off, After(cfg, m, h.past.state.memory, h.seen, h.event), n)
  {
    if m.listing.Some? {
      NeverListed(cfg, m.listing.value, h.past.state.memory,
                  if h.event.Filtered? || h.event.Overdue? then h.event.now else 0, n);
    }
  }

  lemma NoteForgets(cfg: Config, h: History, m: Monitor, n: string)
    requires h.Then? && !h.event.Called? && !cfg.forcePowerOn
    requires Forgotten(h.seen, h.past.state.memory.off, m, n)
    requires StepTruthful(h.past.state.memory, h.seen, h.event, h.state)
    requires Allowed(cfg, m, h.past.state, h.seen, h.event)
    ensures Forgotten(h.state.world, h.state.memory.off, After(cfg, m, h.past.state.memory, h.seen, h.event), n)
  {
    if h.event.Noted? {
      NotedForgets(cfg, h, m, n);
    } else if Telling(h.event) {
      TellingForgets(cfg, h, m, n);
    } else if !StartsLoop(h.event) {
      FindingForgets(cfg, h, m, n);
    }
  }

  lemma StepForgets(cfg: Config, h: History, m: Monitor, n: string)
    requires h.Then? && WellFormed(h.seen) && !cfg.forcePowerOn && Forgotten(h.seen, h.past.state.memory.off, m, n)
    requires StepTruthful(h.past.state.memory, h.seen, h.event, h.state)
    requires Allowed(cfg, m, h.past.state, h.seen, h.event)
    ensures Forgotten(h.state.world, h.state.memory.off, After(cfg, m, h.past.state.memory, h.seen, h.event), n)
    ensures FaceIn(h.state.world, n) == FaceIn(h.seen, n) && !Touches(h.event, n)
  {
    if h.event.Called? {
      CallForgets(cfg, h, m, n);
    } else {
      NoteForgets(cfg, h, m, n);
    }
  }

  /** h goes on from h0, through restarts if need be, while other parties leave n alone. */
  ghost predicate Untended(h: History, h0: History, n: string) {
    || h == h0
    || (h.Then? && Untended(h.past, h0, n) && FaceIn(h.past.state.world, n) == FaceIn(h.seen, n))
  }

  lemma StartForgets(cfg: Config, h: History, n: string)
    requires h.Then? && StartsLoop(h.event) && InLimbo(FaceIn(h.state.world, n)) && n !in h.state.memory.off
    ensures Forgotten(h.state.world, h.state.memory.off, Replay(cfg, h), n)
  {
  }

  lemma {:induction false} AlwaysForgotten(cfg: Config, h: History, h0: History, n: string)
    requires Truthful(h) && Justified(cfg, h) && Untended(h, h0, n) && !cfg.forcePowerOn
    requires h0.Then? && StartsLoop(h0.event) && InLimbo(FaceIn(h0.state.world, n)) && n !in h0.state.memory.off
    ensures Forgotten(h.state.world, h.state.memory.off, Replay(cfg, h), n)
    ensures FaceIn(h.state.world, n) == FaceIn(h0.state.world, n)
    ensures h != h0 ==> !Touches(h.event, n)
  {
    if h == h0 {
      StartForgets(cfg, h, n);
    } else {
      AlwaysForgotten(cfg, h.past, h0, n);
      StepForgets(cfg, h, Replay(cfg, h.past), n);
    }
  }

  /** A node in limbo at the start of a loop, and not remembered as off, stays there: unless power-on is
      forced or somebody else edits the node, the autoscaler never again writes to it, powers it on, or
      shuts it down, in this process or any later one. */
  lemma LimboIsForGood(cfg: Config, h: History, h0: History, n: string)
    requires Lawful(h) && Disciplined(cfg, h) && Untended(h, h0, n) && !cfg.forcePowerOn
    requires h0.Then? && StartsLoop(h0.event) && InLimbo(FaceIn(h0.state.world, n)) && n !in h0.state.memory.off
    ensures FaceIn(h.state.world, n) == FaceIn(h0.state.world, n) && n !in h.state.memory.off
    ensures h != h0 ==> !Touches(h.event, n)
  {
    Open(cfg, h);
    AlwaysForgotten(cfg, h, h0, n);
  }
}
