/** The one way in which a rolled-back shutdown leaves a trace: a concrete run in which the off mark is
    stored, its reply gets lost, and the rollback does not know of it. */
module LostReply {
  import opened Prelude
  import opened Clock
  import opened Cluster
  import opened Settings
  import opened Journal
  import opened ShutdownOrder
  import opened MinimumService
  import opened Rollback
  import opened Recovery

  /** Two nodes in service, the minimum being one, and nothing running on them. */
  predicate QuietPair(cfg: Config, w: World, a: Node, b: Node) {
    Race(cfg, w, a, b) && w.attachments == {} && a.volumesInUse == {} && !a.unschedulable
  }

  function Flagged(w: World, n: string, flag: bool): World
    requires n in w.nodes
  {
    Put(w, w.nodes[n].(unschedulable := flag))
  }

  /** h goes on undisturbed with entry e, which leads to the given world. */
  lemma Next(cfg: Config, h0: History, e: Event, post: World) returns (h: History)
    requires Truthful(h0) && Justified(cfg, h0) && WellFormed(h0.state.world) && WellFormed(post)
    requires StepTruthful(h0.state.memory, h0.state.world, e, State(post, h0.state.memory))
    requires Allowed(cfg, Replay(cfg, h0), h0.state, h0.state.world, e)
    requires Informed(cfg, Replay(cfg, h0), NodesMet(h0), e)
    ensures Truthful(h) && Justified(cfg, h) && h.state == State(post, h0.state.memory)
    ensures h == Then(h0, h0.state.world, e, h.state)
    ensures Replay(cfg, h) == After(cfg, Replay(cfg, h0), h0.state.memory, h0.state.world, e)
    ensures !StartsLoop(e) ==> forall n :: LeftAlone(h0, n) ==> LeftAlone(h, n)
  {
    h := Then(h0, h0.state.world, e, State(post, h0.state.memory));
    assert Outside(h0.state.world, h0.state.world);
    OneMore(cfg, h0, Replay(cfg, h0), h0.state.world, e, post);
  }

  /** Whether the off mark is stored, with its reply or without. */
  datatype MarkState = NoMark | KnownMark | LostMark

  /** How far the run has got: the present world, the stage, and what is known of a. */
  ghost predicate At(cfg: Config, h: History, w: World, a: Node, post: World, stage: Stage, mark: MarkState,
                     face: Face)
  {
    AtWith(cfg, h, w, a, post, stage, mark, face, DrainAt(cfg, w, stage))
  }

  ghost predicate AtWith(cfg: Config, h: History, w: World, a: Node, post: World, stage: Stage, mark: MarkState,
                         face: Face, drain: DrainBound)
  {
    && Truthful(h) && Justified(cfg, h) && LeftAlone(h, a.name)
    && h.state == State(post, BLANK) && WellFormed(post)
    && var m := Replay(cfg, h);
       && m.stage == stage && m.face == Some(face)
       && m.loop == Fresh(Background, w).loop.(candidate := Candidate(a.name, w, mark.KnownMark?, mark.LostMark?),
                                               drain := drain, retracted := m.loop.retracted)
  }

  /** A drain is under way until the last volume is detached. */
  function DrainAt(cfg: Config, w: World, stage: Stage): DrainBound {
    if stage.Cordoned? || stage.Emptied? || stage.Unmounted? then DrainUntil(DrainEnd(cfg, w), true) else NoDrain
  }

  /** The context of a call in it. */
  function InDrain(cfg: Config, w: World): Context {
    Deadline(DrainEnd(cfg, w))
  }

  function Cordon(a: Node): Face {
    FaceOf(a).(unschedulable := true)
  }

  lemma CordonAccounted(m: Monitor, a: Node)
    requires m.face == Some(FaceOf(a)) && m.loop.candidate.name == a.name
    ensures var k := Rescheduled(m, a.name, true);
            k.stage == Cordoned(a.name) && k.loop == m.loop && k.face == Some(Cordon(a))
  {
  }

  lemma CordonOne(cfg: Config, w: World, a: Node, b: Node) returns (h: History)
    requires QuietPair(cfg, w, a, b)
    ensures At(cfg, h, w, a, Flagged(w, a.name, true), Cordoned(a.name), NoMark, Cordon(a))
  {
    var past := ScreenOne(cfg, w, a, b);
    CordonAllowed(cfg, Replay(cfg, past), past.state, w, a);
    CordonAccounted(Replay(cfg, past), a);
    h := Next(cfg, past, Called(InDrain(cfg, w), UpdateNode(a.(unschedulable := true)), Done),
              Flagged(w, a.name, true));
  }

  lemma PollOne(cfg: Config, h0: History, w: World, a: Node, v: World) returns (h: History)
    requires At(cfg, h0, w, a, v, Cordoned(a.name), NoMark, Cordon(a)) && v.pods == {} && v.clock == w.clock
    ensures At(cfg, h, w, a, v, Emptied(a.name), NoMark, Cordon(a))
  {
    h := Next(cfg, h0, Called(InDrain(cfg, w), ListPods(a.name), Pods([])), v);
  }

  lemma VolumesOne(cfg: Config, h0: History, w: World, a: Node, v: World) returns (h: History)
    requires At(cfg, h0, w, a, v, Emptied(a.name), NoMark, Cordon(a))
    requires a.name in v.nodes && v.nodes[a.name].volumesInUse == {} && v.clock == w.clock
    ensures At(cfg, h, w, a, v, Unmounted(a.name), NoMark, Cordon(a))
  {
    h := Next(cfg, h0, Called(InDrain(cfg, w), GetNode(a.name), One(v.nodes[a.name])), v);
  }

  lemma AttachmentsOne(cfg: Config, h0: History, w: World, a: Node, v: World) returns (h: History)
    requires At(cfg, h0, w, a, v, Unmounted(a.name), NoMark, Cordon(a)) && v.attachments == {} && v.clock == w.clock
    ensures AtWith(cfg, h, w, a, v, Detached(a.name), NoMark, Cordon(a), DrainUntil(DrainEnd(cfg, w), true))
  {
    DetachAccounted(cfg, Replay(cfg, h0), h0.state, a.name);
    h := Next(cfg, h0, Called(InDrain(cfg, w), ListAttachments, Attachments([])), v);
  }

  lemma EndOne(cfg: Config, h0: History, w: World, a: Node, v: World) returns (h: History)
    requires AtWith(cfg, h0, w, a, v, Detached(a.name), NoMark, Cordon(a), DrainUntil(DrainEnd(cfg, w), true))
    ensures At(cfg, h, w, a, v, Detached(a.name), NoMark, Cordon(a))
  {
    h := Next(cfg, h0, DrainEnds(a.name), v);
  }

  lemma DetachAccounted(cfg: Config, m: Monitor, now: State, n: string)
    requires m.stage == Unmounted(n) && m.loop.ctx == Background
    requires m.loop.drain == DrainUntil(DrainEnd(cfg, now.world), true)
    ensures Allowed(cfg, m, now, now.world,
                    Called(Deadline(DrainEnd(cfg, now.world)), ListAttachments, Attachments([])))
    ensures AfterCall(m, ListAttachments, Attachments([])) == m.(stage := Detached(n))
  {
  }

  /** The loop up to the end of the drain. */
  lemma DrainOne(cfg: Config, w: World, a: Node, b: Node) returns (h: History)
    requires QuietPair(cfg, w, a, b)
    ensures At(cfg, h, w, a, Flagged(w, a.name, true), Detached(a.name), NoMark, Cordon(a))
  {
    var v := Flagged(w, a.name, true);
    h := CordonOne(cfg, w, a, b);
    h := PollOne(cfg, h, w, a, v);
    h := VolumesOne(cfg, h, w, a, v);
    h := AttachmentsOne(cfg, h, w, a, v);
    h := EndOne(cfg, h, w, a, v);
  }

  function MarkedWorld(v: World, n: string): World
    requires n in v.nodes
  {
    Put(v, Patched(v.nodes[n], MarkPatch(v.clock)))
  }

  lemma MarkAllowed(cfg: Config, m: Monitor, now: State, n: string, reply: Reply)
    requires !cfg.dryRun && m.stage == Detached(n) && m.loop.overdue.None?
    requires m.loop.ctx == Background && m.loop.drain.NoDrain?
    ensures Allowed(cfg, m, now, now.world, Called(Background, PatchNode(n, MarkPatch(now.world.clock)), reply))
  {
  }

  /** What a mark leaves behind whose reply arrives or gets lost. */
  lemma MarkAccounted(m: Monitor, n: string, t: Time, reply: Reply)
    requires m.stage == Detached(n) && m.loop.candidate.name == n && m.face.Some?
    requires reply.Done? || reply.Refused?
    ensures var k := Annotated(m, n, MarkPatch(t), reply);
            && k.stage == Marked(n)
            && k.face == Some(m.face.value.(mark := Some(Stamp(Seconds(t)))))
            && k.loop == m.loop.(candidate := m.loop.candidate.(markKnown := reply.Done?, markLost := reply.Refused?))
  {
  }

  lemma MarkTruthful(memory: Memory, v: World, n: string, reply: Reply)
    requires n in v.nodes && Applied(reply) && (reply.Done? || reply.Refused?)
    ensures StepTruthful(memory, v, Called(Background, PatchNode(n, MarkPatch(v.clock)), reply),
                         State(MarkedWorld(v, n), memory))
  {
  }

  /** The mark is stored, and the reply arrives or gets lost. */
  lemma MarkOne(cfg: Config, h0: History, w: World, a: Node, v: World, reply: Reply) returns (h: History)
    requires At(cfg, h0, w, a, v, Detached(a.name), NoMark, Cordon(a)) && a.name in v.nodes && !cfg.dryRun
    requires reply == Done || reply == Refused(Failure, true)
    ensures At(cfg, h, w, a, MarkedWorld(v, a.name), Marked(a.name), if reply.Done? then KnownMark else LostMark,
               Cordon(a).(mark := Some(Stamp(Seconds(v.clock)))))
  {
    MarkAllowed(cfg, Replay(cfg, h0), h0.state, a.name, reply);
    MarkTruthful(h0.state.memory, v, a.name, reply);
    MarkAccounted(Replay(cfg, h0), a.name, v.clock, reply);
    h := Next(cfg, h0, Called(Background, PatchNode(a.name, MarkPatch(v.clock)), reply), MarkedWorld(v, a.name));
  }

  lemma AbortOne(cfg: Config, h0: History, w: World, a: Node, v: World, mark: MarkState, face: Face)
    returns (h: History)
    requires At(cfg, h0, w, a, v, Marked(a.name), mark, face)
    ensures At(cfg, h, w, a, v, RollingBack(a.name), mark, face)
  {
    h := Next(cfg, h0, Aborting(a.name), v);
  }

  lemma UncordonOne(cfg: Config, h0: History, w: World, a: Node, v: World, mark: MarkState, face: Face)
    returns (h: History)
    requires At(cfg, h0, w, a, v, RollingBack(a.name), mark, face) && !mark.KnownMark?
    requires a.name in v.nodes && !cfg.dryRun
    ensures At(cfg, h, w, a, Flagged(v, a.name, false), RollingBack(a.name), mark, face.(unschedulable := false))
  {
    ReleaseAllowed(cfg, Replay(cfg, h0), h0.state, v.nodes[a.name]);
    h := Next(cfg, h0, Called(Background, UpdateNode(v.nodes[a.name].(unschedulable := false)), Done),
              Flagged(v, a.name, false));
  }

  lemma ReleaseAllowed(cfg: Config, m: Monitor, now: State, x: Node)
    requires !cfg.dryRun && m.stage == RollingBack(x.name) && m.loop.ctx == Background && m.loop.drain.NoDrain?
    requires !m.loop.candidate.markKnown && m.loop.candidate.name == x.name && m.face.Some?
    requires x.name in now.world.nodes && now.world.nodes[x.name] == x
    ensures Allowed(cfg, m, now, now.world, Called(Background, UpdateNode(x.(unschedulable := false)), Done))
    ensures var k := Rescheduled(m, x.name, false);
            && k.stage == m.stage && k.loop == m.loop
            && k.face == Some(m.face.value.(unschedulable := false))
  {
  }

  /** The face of a with its mark stored. */
  function MarkedFaceOf(a: Node, v: World): Face {
    Cordon(a).(mark := Some(Stamp(Seconds(v.clock))))
  }

  lemma RollBackUnaware(cfg: Config, w: World, a: Node, b: Node) returns (h: History)
    requires QuietPair(cfg, w, a, b)
    ensures var v := Flagged(w, a.name, true);
            At(cfg, h, w, a, Flagged(MarkedWorld(v, a.name), a.name, false), RollingBack(a.name), LostMark,
               MarkedFaceOf(a, v).(unschedulable := false))
  {
    var v := Flagged(w, a.name, true);
    h := DrainOne(cfg, w, a, b);
    h := MarkOne(cfg, h, w, a, v, Refused(Failure, true));
    h := AbortOne(cfg, h, w, a, MarkedWorld(v, a.name), LostMark, MarkedFaceOf(a, v));
    h := UncordonOne(cfg, h, w, a, MarkedWorld(v, a.name), LostMark, MarkedFaceOf(a, v));
  }

  /** What the history says of a run that got there. */
  lemma TraceOf(cfg: Config, h: History, w: World, a: Node, v: World, face: Face)
    requires At(cfg, h, w, a, v, RollingBack(a.name), LostMark, face) && !face.unschedulable
    ensures InRollback(h, a.name) && !LeftCordoned(h, a.name) && MarkReplyLost(h)
    ensures FaceIn(h.state.world, a.name) == Some(face)
  {
    RollbackStage(cfg, h, a.name);
    AlwaysTracked(cfg, h);
    AlwaysAccounted(cfg, h);
    AlwaysLossTracked(cfg, h);
  }

  /** The whole run. At its end the rollback has undone the cordon, no alarm was raised, and yet the node is
      not what it was: it is schedulable and marked off. Recovery passes it over as well. */
  lemma LoseTheReply(cfg: Config, w: World, a: Node, b: Node) returns (h: History)
    requires QuietPair(cfg, w, a, b)
    ensures Truthful(h) && Justified(cfg, h) && LeftAlone(h, a.name) && !Replay(cfg, h).loop.alarmed
    ensures InRollback(h, a.name) && !LeftCordoned(h, a.name) && MarkReplyLost(h)
    ensures var f := FaceIn(h.state.world, a.name);
            f.Some? && !f.value.unschedulable && f.value.mark.Some? && f != FaceIn(w, a.name)
    ensures a.name in h.state.world.nodes && forall now :: !NeedsRecovery(cfg, h.state.world.nodes[a.name], now)
  {
    var v := Flagged(w, a.name, true);
    h := RollBackUnaware(cfg, w, a, b);
    TraceOf(cfg, h, w, a, Flagged(MarkedWorld(v, a.name), a.name, false), MarkedFaceOf(a, v).(unschedulable := false));
  }
}
