/** What a process that dies in the middle of a shutdown leaves behind, and what the next one makes of it. */
module CrashSafety {
  import opened Prelude
  import opened Clock
  import opened Cluster
  import opened Settings
  import opened Journal
  import opened ShutdownOrder
  import opened DrainSoundness
  import opened NodeLists
  import opened Recovery
  import opened Rollback
  import opened Rotation

  /** Cordoned and marked off at the given second. */
  predicate MarkedFace(f: Option<Face>, second: int) {
    f.Some? && f.value.unschedulable && f.value.mark == Some(Stamp(second))
  }

  /** From the cordon on, the node of the protocol is cordoned. */
  ghost predicate Stands(h: History, s: Stage) {
    Protocol(s) && LeftAlone(h, s.name) ==> var f := FaceIn(h.state.world, s.name); f.Some? && f.value.unschedulable
  }

  lemma UnwrittenStands(h: History, s: Stage)
    requires h.Then? && !StartsLoop(h.event) && h.state.world.nodes == h.seen.nodes && Stands(h.past, s)
    ensures Stands(h, s)
  {
  }

  /** After a write that ends no protocol its node is the one before, but for a cordon. */
  lemma WriteProtocol(cfg: Config, m: Monitor, clock: Time, seen: World, call: Call, reply: Reply)
    requires (call.UpdateNode? || call.PatchNode?) && Applied(reply) && CallAllowed(cfg, m, clock, seen, call, reply)
    ensures var k := AfterCall(m, call, reply);
            Protocol(k.stage) ==>
              || (call.UpdateNode? && call.node.unschedulable && call.node.name == k.stage.name)
              || (call.PatchNode? && call.name == k.stage.name && m.stage == Detached(k.stage.name))
  {
  }

  lemma WriteStands(cfg: Config, h: History, m: Monitor)
    requires h.Then? && Write(h.event) && WellFormed(h.seen) && Stands(h.past, m.stage)
    requires StepTruthful(h.past.state.memory, h.seen, h.event, h.state)
    requires CallAllowed(cfg, m, h.past.state.world.clock, h.seen, h.event.call, h.event.reply)
    ensures Stands(h, AfterCall(m, h.event.call, h.event.reply).stage)
  {
    WriteProtocol(cfg, m, h.past.state.world.clock, h.seen, h.event.call, h.event.reply);
    WriteFaces(cfg, h, m);
  }

  lemma ReadStands(h: History, m: Monitor)
    requires h.Then? && h.event.Called? && !Write(h.event) && Stands(h.past, m.stage)
    requires StepTruthful(h.past.state.memory, h.seen, h.event, h.state)
    ensures Stands(h, AfterCall(m, h.event.call, h.event.reply).stage)
  {
    UnwrittenStands(h, m.stage);
  }

  lemma NoteStands(cfg: Config, h: History, m: Monitor)
    requires h.Then? && !h.event.Called? && !StartsLoop(h.event) && Stands(h.past, m.stage)
    requires StepTruthful(h.past.state.memory, h.seen, h.event, h.state)
    ensures Stands(h, After(cfg, m, h.past.state.memory, h.seen, h.event).stage)
  {
    UnwrittenStands(h, m.stage);
  }

  lemma {:induction false} AlwaysStands(cfg: Config, h: History)
    requires Truthful(h) && Justified(cfg, h)
    ensures Stands(h, Replay(cfg, h).stage)
  {
    if h.Then? && !StartsLoop(h.event) {
      AlwaysStands(cfg, h.past);
      var m := Replay(cfg, h.past);
      if Write(h.event) {
        WriteStands(cfg, h, m);
      } else if h.event.Called? {
        ReadStands(h, m);
      } else {
        NoteStands(cfg, h, m);
      }
    }
  }

  // ----- From the mark to the end of the loop

  predicate StoresMark(e: Event, n: string) {
    Write(e) && e.call.PatchNode? && e.call.name == n && SetsMark(e.call.patch)
  }

  /** An uncordon of n, or the removal of its mark, is stored. */
  predicate TakesBack(e: Event, n: string) {
    && Write(e)
    && match e.call
       case UpdateNode(node) => node.name == n && !node.unschedulable
       case PatchNode(p, patch) => p == n && ClearsMark(patch)
       case _ => false
  }

  /** An off mark of n was stored in this loop. */
  ghost predicate MarkedInLoop(h: History, n: string) {
    h.Then? && !StartsLoop(h.event) && (StoresMark(h.event, n) || MarkedInLoop(h.past, n))
  }

  /** And since then neither an uncordon of n nor the removal of its mark was stored. */
  ghost predicate MarkStands(h: History, n: string) {
    h.Then? && !StartsLoop(h.event) && (StoresMark(h.event, n) || (!TakesBack(h.event, n) && MarkStands(h.past, n)))
  }

  /** Cordoned and marked off. */
  predicate Held(f: Option<Face>) {
    f.Some? && f.value.unschedulable && f.value.mark.Some?
  }

  ghost predicate HeldExactly(h: History, n: string) {
    LeftAlone(h, n) ==>
      && (MarkStands(h, n) ==> exists second :: MarkedFace(FaceIn(h.state.world, n), second))
      && (MarkedInLoop(h, n) && !MarkStands(h, n) ==> !Held(FaceIn(h.state.world, n)))
  }

  lemma UnwrittenHeld(h: History, n: string)
    requires h.Then? && HeldExactly(h.past, n) && !TakesBack(h.event, n) && !StoresMark(h.event, n)
    requires !StartsLoop(h.event) ==> FaceIn(h.state.world, n) == FaceIn(h.seen, n)
    ensures HeldExactly(h, n)
  {
  }

  /** A cordon finds the node untouched, so it cannot bring back what was taken back. */
  lemma UpdateHeld(cfg: Config, h: History, m: Monitor, n: string, node: Node)
    requires h.Then? && Write(h.event) && h.event.call == UpdateNode(node) && HeldExactly(h.past, n)
    requires Tracked(h.past, m) && FaceIn(h.seen, node.name).Some?
    requires forall x | x != node.name :: FaceIn(h.state.world, x) == FaceIn(h.seen, x)
    requires FaceIn(h.state.world, node.name)
             == Some(FaceIn(h.seen, node.name).value.(unschedulable := node.unschedulable))
    requires node.unschedulable ==> m.stage == Vetting(node.name, |Chain(cfg)|)
    ensures HeldExactly(h, n)
  {
    if node.name != n {
      UnwrittenHeld(h, n);
    }
  }

  lemma PatchHeld(h: History, m: Monitor, n: string, p: string, patch: Patch)
    requires h.Then? && Write(h.event) && h.event.call == PatchNode(p, patch) && HeldExactly(h.past, n)
    requires KnownPatch(m, p, patch, h.past.state.world.clock) && Stands(h.past, m.stage)
    requires forall x | x != p :: FaceIn(h.state.world, x) == FaceIn(h.seen, x)
    requires FaceIn(h.seen, p).Some? && FaceIn(h.state.world, p) == Some(PatchedFace(FaceIn(h.seen, p).value, patch))
    ensures HeldExactly(h, n)
  {
    if p != n {
      UnwrittenHeld(h, n);
    } else if LeftAlone(h, n) {
      if SetsMark(patch) {
        assert MarkedFace(FaceIn(h.state.world, n), Seconds(h.past.state.world.clock));
      } else if !ClearsMark(patch) {
        if MarkStands(h.past, n) {
          var second :| MarkedFace(FaceIn(h.past.state.world, n), second);
          assert MarkedFace(FaceIn(h.state.world, n), second);
        }
      }
    }
  }

  lemma WriteHeld(cfg: Config, h: History, m: Monitor, n: string)
    requires h.Then? && Write(h.event) && WellFormed(h.seen) && HeldExactly(h.past, n)
    requires Tracked(h.past, m) && Stands(h.past, m.stage)
    requires StepTruthful(h.past.state.memory, h.seen, h.event, h.state)
    requires CallAllowed(cfg, m, h.past.state.world.clock, h.seen, h.event.call, h.event.reply)
    ensures HeldExactly(h, n)
  {
    WriteFaces(cfg, h, m);
    match h.event.call
    case UpdateNode(node) => UpdateHeld(cfg, h, m, n, node);
    case PatchNode(p, patch) =>
      AllowedPatchKnown(cfg, m, h.past.state.world.clock, h.seen, p, patch, h.event.reply);
      PatchHeld(h, m, n, p, patch);
  }

  lemma {:induction false} AlwaysHeld(cfg: Config, h: History, n: string)
    requires Truthful(h) && Justified(cfg, h)
    ensures HeldExactly(h, n)
  {
    if h.Then? && !StartsLoop(h.event) {
      AlwaysHeld(cfg, h.past, n);
      if Write(h.event) {
        AlwaysTracked(cfg, h.past);
        AlwaysStands(cfg, h.past);
        WriteHeld(cfg, h, Replay(cfg, h.past), n);
      } else {
        assert h.state.world.nodes == h.seen.nodes;
        UnwrittenHeld(h, n);
      }
    }
  }

  /** h goes on from h0 without any write of the autoscaler, through restarts if need be, while other
      parties leave n alone. */
  ghost predicate Idles(h: History, h0: History, n: string) {
    || h == h0
    || (&& h.Then? && Idles(h.past, h0, n) && !Write(h.event)
        && FaceIn(h.past.state.world, n) == FaceIn(h.seen, n))
  }

  lemma {:induction false} FaceOutlives(h: History, h0: History, n: string)
    requires Truthful(h) && Idles(h, h0, n)
    ensures FaceIn(h.state.world, n) == FaceIn(h0.state.world, n)
  {
    if h != h0 {
      FaceOutlives(h.past, h0, n);
    }
  }

  /** A process that dies after it has stored the off mark of a node, at whatever point of its loop, leaves
      the node cordoned and marked for whoever looks at it next - exactly if neither an uncordon nor the
      removal of the mark was stored before it died. Then the mark is the time of the shutdown. */
  lemma CrashLeavesNodeMarked(cfg: Config, h0: History, h: History, n: string)
    requires Lawful(h0) && Disciplined(cfg, h0) && Undisturbed(h0, n) && MarkedInLoop(h0, n)
    requires Lawful(h) && Idles(h, h0, n)
    ensures Held(FaceIn(h.state.world, n)) <==> MarkStands(h0, n)
    ensures MarkStands(h0, n) ==> exists second :: MarkedFace(FaceIn(h.state.world, n), second)
  {
    assert Unsealed(0);
    AlwaysHeld(cfg, h0, n);
    FaceOutlives(h, h0, n);
  }

  /** The next process takes such a node back into service exactly if it is up and its mark is two minutes
      old; before that it leaves it alone. In any case it counts as powered off with nothing but its mark
      to tell, as a candidate for scale-up, and is neither active nor eligible for shutdown. */
  lemma AfterACrash(cfg: Config, nodes: seq<Node>, listing: seq<Node>, x: Node, second: int, now: Time,
                    names: seq<string>)
    requires Lists(nodes, ManagedOf(cfg, listing)) && x in listing && Managed(cfg, x)
    requires MarkedFace(Some(FaceOf(x)), second)
    requires OldestFirst(names, nodes, BLANK)
    ensures NeedsRecovery(cfg, x, now) <==> x.ready && Sub(now, second * 1_000_000_000) >= 120_000_000_000
    ensures x.name in names && OffSince(x, BLANK) == Some(Instant(second))
    ensures x !in ActiveOf(cfg, listing, BLANK) && x !in EligibleOf(cfg, listing, BLANK, now)
  {
    ManagedIsNeverIgnored(cfg, x);
    assert POWERED_OFF in x.annotations && x.annotations[POWERED_OFF] == Stamp(second);
    OffIsNamed(cfg, nodes, listing, BLANK, names, x);
  }
}
