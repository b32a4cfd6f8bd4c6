/** A shutdown that does not come about leaves its candidate as it was. */
module Rollback {
  import opened Prelude
  import opened Clock
  import opened Cluster
  import opened Settings
  import opened Journal
  import opened ShutdownOrder

  /** The rollback of n has left it schedulable, with its boot time as it was and its off mark absent or
      as it was; except that a mark that was stored without its reply arriving is still there. */
  ghost predicate PutBack(m: Monitor, w: World, n: string) {
    && m.stage == RollingBack(n) && m.loop.candidate.name == n
    && n in w.nodes && !w.nodes[n].unschedulable
    && var entry := FaceIn(m.loop.candidate.entry, n);
       && m.face.Some? == entry.Some?
       && (m.face.Some? ==> && m.face.value.booted == entry.value.booted
                            && if m.loop.candidate.markLost then m.face.value.mark.Some?
                               else m.face.value.mark in {None, entry.value.mark})
  }

  /** The candidate picked last in this loop, and the cluster at that moment. */
  ghost function PickedLast(h: History): Option<(string, World)> {
    match h
    case Start(_) => None
    case Then(past, seen, e, _) =>
      if StartsLoop(e) then None else if e.Chosen? then Some((e.name, seen)) else PickedLast(past)
  }

  /** Since n was picked, the last scheduling flag of it that was stored is a cordon. */
  ghost predicate LeftCordoned(h: History, n: string) {
    match h
    case Start(_) => false
    case Then(past, _, e, _) =>
      && !StartsLoop(e) && e != Chosen(n)
      && (if Write(e) && e.call.UpdateNode? && e.call.node.name == n then e.call.node.unschedulable
          else LeftCordoned(past, n))
  }

  /** Since n was picked an off mark was stored and acknowledged, and none was removed after that. */
  ghost predicate LeftMarked(h: History, n: string) {
    match h
    case Start(_) => false
    case Then(past, _, e, _) =>
      && !StartsLoop(e) && e != Chosen(n)
      && (if Write(e) && e.call.PatchNode? && e.call.name == n && POWERED_OFF in e.call.patch then
            SetsMark(e.call.patch) && e.reply.Done?
          else LeftMarked(past, n))
  }

  /** A scale-down of n is being rolled back. */
  ghost predicate InRollback(h: History, n: string) {
    && h.Then? && !StartsLoop(h.event) && !h.event.Filtered? && !h.event.Chosen?
    && (h.event == Aborting(n) || InRollback(h.past, n))
  }

  /** Since the candidate was picked an off mark was stored without its reply arriving. */
  ghost predicate MarkReplyLost(h: History) {
    match h
    case Start(_) => false
    case Then(past, _, e, _) =>
      && !StartsLoop(e) && !e.Chosen?
      && (|| (Write(e) && e.call.PatchNode? && SetsMark(e.call.patch) && e.reply.Refused?)
          || MarkReplyLost(past))
  }

  /** The monitor knows of a lost reply, which can only be that to the last write of the protocol. */
  ghost predicate LossTracked(h: History, m: Monitor) {
    && (m.loop.candidate.markLost <==> MarkReplyLost(h)) && !(m.loop.candidate.markLost && m.loop.candidate.markKnown)
    && (m.stage.Vetting? || m.stage.Cordoned? || m.stage.Emptied? || m.stage.Unmounted? || m.stage.Detached? ==>
          !m.loop.candidate.markLost)
  }

  lemma CallLossTracked(cfg: Config, h: History, m: Monitor)
    requires h.Then? && h.event.Called? && LossTracked(h.past, m)
    requires StepTruthful(h.past.state.memory, h.seen, h.event, h.state)
    requires CallAllowed(cfg, m, h.past.state.world.clock, h.seen, h.event.call, h.event.reply)
    ensures LossTracked(h, AfterCall(m, h.event.call, h.event.reply))
  {
  }

  lemma NoteLossTracked(cfg: Config, h: History, m: Monitor)
    requires h.Then? && !h.event.Called? && LossTracked(h.past, m)
    requires Allowed(cfg, m, h.past.state, h.seen, h.event)
    ensures LossTracked(h, After(cfg, m, h.past.state.memory, h.seen, h.event))
  {
  }

  lemma {:induction false} AlwaysLossTracked(cfg: Config, h: History)
    requires Truthful(h) && Justified(cfg, h)
    ensures LossTracked(h, Replay(cfg, h))
  {
    if h.Then? {
      AlwaysLossTracked(cfg, h.past);
      if h.event.Called? {
        CallLossTracked(cfg, h, Replay(cfg, h.past));
      } else {
        NoteLossTracked(cfg, h, Replay(cfg, h.past));
      }
    }
  }

  predicate Active(s: Stage) {
    s.Vetting? || s.Cordoned? || s.Emptied? || s.Unmounted? || s.Detached? || s.Marked? || s.Sent? || s.RollingBack?
  }

  /** In service, and never marked off. */
  predicate Untouched(f: Option<Face>) {
    f.Some? && !f.value.unschedulable && f.value.mark == None
  }

  /** As long as other parties leave a node alone, the monitor's account of it is accurate. */
  ghost predicate Tracked(h: History, m: Monitor) {
    && (m.listing.Some? ==>
          forall x | x in m.listing.value && LeftAlone(h, x.name) :: FaceIn(h.state.world, x.name) == Some(FaceOf(x)))
    && (m.stage.Idle? || m.stage.Vetting? ==>
          forall n | n in m.work.eligible && LeftAlone(h, n) :: Untouched(FaceIn(h.state.world, n)))
    && (m.stage.Vetting? ==> m.stage.name in m.work.eligible)
    && (Active(m.stage) ==> CandidateTracked(h, m, m.stage.name))
  }

  ghost predicate CandidateTracked(h: History, m: Monitor, n: string) {
    && m.loop.candidate.name == n
    && PickedLast(h) == Some((n, m.loop.candidate.entry))
    && (LeftAlone(h, n) ==> m.face == FaceIn(h.state.world, n) && Untouched(FaceIn(m.loop.candidate.entry, n)))
  }

  /** A step that neither writes a node nor picks one keeps what the account is about. */
  ghost predicate Kept(m: Monitor, k: Monitor) {
    && k.loop.candidate == m.loop.candidate && k.face == m.face && k.work.eligible == m.work.eligible
    && (Active(k.stage) ==> Active(m.stage) && m.stage.name == k.stage.name)
    && (k.stage.Vetting? ==> m.stage.Vetting?) && (k.stage.Idle? ==> m.stage.Idle? || m.stage.Vetting?)
  }

  lemma ReadKeeps(m: Monitor, call: Call, reply: Reply)
    requires !((call.UpdateNode? || call.PatchNode?) && Applied(reply))
    ensures var k := AfterCall(m, call, reply);
            Kept(m, k) && k.listing == if call.ListNodes? && reply.Nodes? then Some(reply.nodes) else m.listing
  {
  }

  lemma NoteKeeps(cfg: Config, m: Monitor, now: State, seen: World, e: Event)
    requires !e.Called? && !StartsLoop(e) && !e.Filtered? && !e.Chosen? && Allowed(cfg, m, now, seen, e)
    ensures Kept(m, After(cfg, m, now.memory, seen, e)) && After(cfg, m, now.memory, seen, e).listing == m.listing
  {
  }

  lemma KeptTracked(h: History, m: Monitor, k: Monitor)
    requires h.Then? && !StartsLoop(h.event) && !h.event.Chosen? && h.state.world.nodes == h.seen.nodes
    requires Tracked(h.past, m) && Kept(m, k)
    requires k.listing == m.listing || (k.listing.Some? && IsListing(k.listing.value, h.seen))
    ensures Tracked(h, k)
  {
    assert forall n :: FaceIn(h.state.world, n) == FaceIn(h.seen, n);
  }

  lemma ReadTracked(cfg: Config, h: History, m: Monitor)
    requires h.Then? && h.event.Called? && !Write(h.event) && Tracked(h.past, m)
    requires StepTruthful(h.past.state.memory, h.seen, h.event, h.state)
    ensures Tracked(h, AfterCall(m, h.event.call, h.event.reply))
  {
    ReadKeeps(m, h.event.call, h.event.reply);
    KeptTracked(h, m, AfterCall(m, h.event.call, h.event.reply));
  }

  /** A write changes the face of the node it names, as it says, and no other. */
  lemma WriteFaces(cfg: Config, h: History, m: Monitor)
    requires h.Then? && Write(h.event) && WellFormed(h.seen)
    requires StepTruthful(h.past.state.memory, h.seen, h.event, h.state)
    requires CallAllowed(cfg, m, h.past.state.world.clock, h.seen, h.event.call, h.event.reply)
    ensures match h.event.call
            case UpdateNode(node) =>
              && (forall n | n != node.name :: FaceIn(h.state.world, n) == FaceIn(h.seen, n))
              && FaceIn(h.seen, node.name).Some?
              && FaceIn(h.state.world, node.name)
                 == Some(FaceIn(h.seen, node.name).value.(unschedulable := node.unschedulable))
            case PatchNode(p, patch) =>
              && (forall n | n != p :: FaceIn(h.state.world, n) == FaceIn(h.seen, n))
              && FaceIn(h.seen, p).Some?
              && FaceIn(h.state.world, p) == Some(PatchedFace(FaceIn(h.seen, p).value, patch))
            case _ => true
  {
  }

  lemma UpdateTracked(cfg: Config, h: History, m: Monitor, node: Node)
    requires h.Then? && Write(h.event) && h.event.call == UpdateNode(node) && Tracked(h.past, m)
    requires forall n | n != node.name :: FaceIn(h.state.world, n) == FaceIn(h.seen, n)
    requires FaceIn(h.seen, node.name).Some?
    requires FaceIn(h.state.world, node.name)
             == Some(FaceIn(h.seen, node.name).value.(unschedulable := node.unschedulable))
    requires node.unschedulable ==> m.stage == Vetting(node.name, |Chain(cfg)|)
    ensures Tracked(h, Rescheduled(m, node.name, node.unschedulable))
  {
  }

  lemma PatchTracked(h: History, m: Monitor, p: string, patch: Patch)
    requires h.Then? && Write(h.event) && h.event.call == PatchNode(p, patch) && Tracked(h.past, m)
    requires forall n | n != p :: FaceIn(h.state.world, n) == FaceIn(h.seen, n)
    requires FaceIn(h.seen, p).Some?
    requires FaceIn(h.state.world, p) == Some(PatchedFace(FaceIn(h.seen, p).value, patch))
    ensures Tracked(h, Annotated(m, p, patch, h.event.reply))
  {
  }

  lemma WriteTracked(cfg: Config, h: History, m: Monitor)
    requires h.Then? && Write(h.event) && WellFormed(h.seen) && Tracked(h.past, m)
    requires StepTruthful(h.past.state.memory, h.seen, h.event, h.state)
    requires CallAllowed(cfg, m, h.past.state.world.clock, h.seen, h.event.call, h.event.reply)
    ensures Tracked(h, AfterCall(m, h.event.call, h.event.reply))
  {
    WriteFaces(cfg, h, m);
    match h.event.call
    case UpdateNode(node) => UpdateTracked(cfg, h, m, node);
    case PatchNode(p, patch) => PatchTracked(h, m, p, patch);
    case _ =>
  }

  lemma FilterTracked(cfg: Config, h: History, nodes: seq<Node>, now: Time)
    requires h.Then? && h.event == Filtered(now) && h.state.world == h.seen
    requires forall x | x in nodes && LeftAlone(h.past, x.name) :: FaceIn(h.past.state.world, x.name) == Some(FaceOf(x))
    ensures forall n | n in EligibleNames(cfg, nodes, h.past.state.memory, now) && LeftAlone(h, n) ::
              Untouched(FaceIn(h.state.world, n))
  {
  }

  lemma NoteTracked(cfg: Config, h: History, m: Monitor)
    requires h.Then? && !h.event.Called? && !StartsLoop(h.event) && Tracked(h.past, m)
    requires StepTruthful(h.past.state.memory, h.seen, h.event, h.state)
    requires Allowed(cfg, m, h.past.state, h.seen, h.event)
    ensures Tracked(h, After(cfg, m, h.past.state.memory, h.seen, h.event))
  {
    if h.event.Filtered? {
      FilterTracked(cfg, h, m.listing.value, h.event.now);
    } else if !h.event.Chosen? {
      NoteKeeps(cfg, m, h.past.state, h.seen, h.event);
      KeptTracked(h, m, After(cfg, m, h.past.state.memory, h.seen, h.event));
    }
  }

  lemma {:induction false} AlwaysTracked(cfg: Config, h: History)
    requires Truthful(h) && Justified(cfg, h)
    ensures Tracked(h, Replay(cfg, h))
  {
    if h.Then? && !StartsLoop(h.event) {
      AlwaysTracked(cfg, h.past);
      var m := Replay(cfg, h.past);
      if Write(h.event) {
        WriteTracked(cfg, h, m);
      } else if h.event.Called? {
        ReadTracked(cfg, h, m);
      } else {
        NoteTracked(cfg, h, m);
      }
    }
  }

  // ----- The account of the candidate's face, taken from the history

  /** The face of the candidate differs from that at its choice by what the history says of writes to it. */
  ghost predicate Accounted(h: History, m: Monitor) {
    Active(m.stage) && LeftAlone(h, m.stage.name) ==>
      FaceAccounted(h, m.face, FaceIn(m.loop.candidate.entry, m.stage.name), m.stage.name)
  }

  ghost predicate FaceAccounted(h: History, f: Option<Face>, entry: Option<Face>, n: string) {
    && f.Some? && entry.Some?
    && f.value.unschedulable == LeftCordoned(h, n)
    && f.value.booted == entry.value.booted
    && (f.value.mark.Some? <==> LeftMarked(h, n) || MarkReplyLost(h))
  }

  lemma KeptAccounted(h: History, m: Monitor, k: Monitor)
    requires h.Then? && !Write(h.event) && !StartsLoop(h.event) && !h.event.Chosen?
    requires Accounted(h.past, m) && Kept(m, k)
    ensures Accounted(h, k)
  {
  }

  lemma UnwrittenAccounted(cfg: Config, h: History, m: Monitor)
    requires h.Then? && !Write(h.event) && !StartsLoop(h.event) && !h.event.Chosen? && Accounted(h.past, m)
    requires Allowed(cfg, m, h.past.state, h.seen, h.event)
    ensures Accounted(h, After(cfg, m, h.past.state.memory, h.seen, h.event))
  {
    if h.event.Called? {
      ReadKeeps(m, h.event.call, h.event.reply);
      KeptAccounted(h, m, AfterCall(m, h.event.call, h.event.reply));
    } else if !h.event.Filtered? {
      NoteKeeps(cfg, m, h.past.state, h.seen, h.event);
      KeptAccounted(h, m, After(cfg, m, h.past.state.memory, h.seen, h.event));
    }
  }

  lemma ChoiceAccounted(cfg: Config, h: History, m: Monitor)
    requires h.Then? && h.event.Chosen? && Tracked(h, After(cfg, m, h.past.state.memory, h.seen, h.event))
    requires h.state.world == h.seen
    ensures Accounted(h, After(cfg, m, h.past.state.memory, h.seen, h.event))
  {
  }

  lemma UpdateAccounted(cfg: Config, h: History, m: Monitor, node: Node)
    requires h.Then? && Write(h.event) && h.event.call == UpdateNode(node) && Accounted(h.past, m)
    requires Active(m.stage) ==> m.loop.candidate.name == m.stage.name
    requires if node.unschedulable then m.stage == Vetting(node.name, |Chain(cfg)|)
             else m.stage.RollingBack? ==> node.name == m.stage.name
    ensures Accounted(h, Rescheduled(m, node.name, node.unschedulable))
  {
  }

  lemma PatchInRollback(cfg: Config, m: Monitor, clock: Time, seen: World, n: string, patch: Patch, reply: Reply)
    requires CallAllowed(cfg, m, clock, seen, PatchNode(n, patch), reply)
    ensures KnownPatch(m, n, patch, clock)
    ensures m.stage.RollingBack? ==> patch == CLEAR_PATCH && n == m.stage.name && m.loop.candidate.markKnown
  {
  }

  lemma PatchAccounted(cfg: Config, h: History, m: Monitor, n: string, patch: Patch)
    requires h.Then? && Write(h.event) && h.event.call == PatchNode(n, patch) && Accounted(h.past, m)
    requires LossTracked(h.past, m) && (Active(m.stage) ==> m.loop.candidate.name == m.stage.name)
    requires KnownPatch(m, n, patch, h.past.state.world.clock)
    requires m.stage.RollingBack? ==> patch == CLEAR_PATCH && n == m.stage.name && m.loop.candidate.markKnown
    requires h.event.reply.Done? || h.event.reply.Refused?
    ensures Accounted(h, Annotated(m, n, patch, h.event.reply))
  {
  }

  lemma {:induction false} AlwaysAccounted(cfg: Config, h: History)
    requires Truthful(h) && Justified(cfg, h)
    ensures Accounted(h, Replay(cfg, h))
  {
    if h.Then? && !StartsLoop(h.event) {
      AlwaysAccounted(cfg, h.past);
      AlwaysTracked(cfg, h.past);
      StepAccounted(cfg, h, Replay(cfg, h.past));
    }
  }

  lemma StepAccounted(cfg: Config, h: History, m: Monitor)
    requires Truthful(h) && Justified(cfg, h) && h.Then? && !StartsLoop(h.event) && m == Replay(cfg, h.past)
    requires Accounted(h.past, m) && Tracked(h.past, m)
    ensures Accounted(h, Replay(cfg, h))
  {
    if h.event.Chosen? {
      AlwaysTracked(cfg, h);
      ChoiceAccounted(cfg, h, m);
    } else if !Write(h.event) {
      UnwrittenAccounted(cfg, h, m);
    } else {
      AlwaysLossTracked(cfg, h.past);
      match h.event.call
      case UpdateNode(node) => UpdateAccounted(cfg, h, m, node);
      case PatchNode(n, patch) =>
        PatchInRollback(cfg, m, h.past.state.world.clock, h.seen, n, patch, h.event.reply);
        PatchAccounted(cfg, h, m, n, patch);
    }
  }

  lemma CallInRollback(cfg: Config, h: History, m: Monitor, n: string)
    requires h.Then? && h.event.Called? && (m.stage == RollingBack(n) <==> InRollback(h.past, n))
    requires CallAllowed(cfg, m, h.past.state.world.clock, h.seen, h.event.call, h.event.reply)
    ensures AfterCall(m, h.event.call, h.event.reply).stage == RollingBack(n) <==> InRollback(h, n)
  {
  }

  lemma NoteInRollback(cfg: Config, h: History, m: Monitor, n: string)
    requires h.Then? && !h.event.Called? && (m.stage == RollingBack(n) <==> InRollback(h.past, n))
    requires Allowed(cfg, m, h.past.state, h.seen, h.event)
    ensures After(cfg, m, h.past.state.memory, h.seen, h.event).stage == RollingBack(n) <==> InRollback(h, n)
  {
  }

  lemma {:induction false} RollbackStage(cfg: Config, h: History, n: string)
    requires Truthful(h) && Justified(cfg, h)
    ensures Replay(cfg, h).stage == RollingBack(n) <==> InRollback(h, n)
  {
    if h.Then? {
      RollbackStage(cfg, h.past, n);
      if h.event.Called? {
        CallInRollback(cfg, h, Replay(cfg, h.past), n);
      } else {
        NoteInRollback(cfg, h, Replay(cfg, h.past), n);
      }
    }
  }

  /** Left alone by other parties, a candidate whose shutdown is being rolled back has the scheduling flag,
      the off mark and the boot time it had when it was picked - exactly if its cordon has been undone, its
      mark has been removed, and no mark was stored whose reply got lost, of which the rollback cannot know. */
  lemma RollbackRestores(cfg: Config, h: History, n: string)
    requires Lawful(h) && Disciplined(cfg, h) && LeftAlone(h, n) && InRollback(h, n)
    ensures PickedLast(h).Some? && PickedLast(h).value.0 == n
    ensures FaceIn(h.state.world, n) == FaceIn(PickedLast(h).value.1, n)
            <==> !LeftCordoned(h, n) && !LeftMarked(h, n) && !MarkReplyLost(h)
  {
    Open(cfg, h);
    RollbackStage(cfg, h, n);
    AlwaysTracked(cfg, h);
    AlwaysAccounted(cfg, h);
  }

  /** Without an alarm the rollback has done all it could. */
  lemma PutBackRestores(cfg: Config, h: History, n: string)
    requires Lawful(h) && Disciplined(cfg, h) && Undisturbed(h, n)
    requires PutBack(Watch(cfg, h), h.state.world, n)
    ensures InRollback(h, n) && !LeftCordoned(h, n) && (LeftMarked(h, n) ==> MarkReplyLost(h))
    ensures FaceIn(h.state.world, n) == FaceIn(Watch(cfg, h).loop.candidate.entry, n) <==> !MarkReplyLost(h)
  {
    Open(cfg, h);
    assert LeftAlone(h, n) by {
      assert Unsealed(0);
    }
    RollbackStage(cfg, h, n);
    AlwaysTracked(cfg, h);
    AlwaysAccounted(cfg, h);
    AlwaysLossTracked(cfg, h);
    RollbackRestores(cfg, h, n);
  }
}
