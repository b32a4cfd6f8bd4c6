/** A drained node really is drained, although its pods, its volumes in use and its attachments are read
    at three different times, provided that other parties leave a cordoned node and its drain alone. */
module DrainSoundness {
  import opened Prelude
  import opened Clock
  import opened Cluster
  import opened Settings
  import opened Journal
  import opened Findings
  import opened ShutdownOrder

  /** Schedulable work is kept off the node, nothing that could move is on it, and no storage is attached. */
  predicate Drained(w: World, n: string) {
    && n in w.nodes && w.nodes[n].unschedulable
    && NothingToDrain(w.pods, n)
    && w.nodes[n].volumesInUse == {}
    && NothingAttached(w.attachments, n)
  }

  predicate IsCordoned(w: World, n: string) {
    n in w.nodes && w.nodes[n].unschedulable
  }

  /** What the drain relies on: a cordoned node stays cordoned, and once no pod is left on it that could
      move, it gets no such pod, no volume and no attachment. Before that, anything may happen. */
  predicate Rely(pre: World, post: World, n: string) {
    IsCordoned(pre, n) ==>
      && IsCordoned(post, n)
      && (NothingToDrain(pre.pods, n) ==>
            && NothingToDrain(post.pods, n)
            && post.nodes[n].volumesInUse <= pre.nodes[n].volumesInUse
            && (forall a | a in post.attachments && a.node == n :: a in pre.attachments))
  }

  predicate Cordons(e: Event, n: string) {
    Write(e) && e.call.UpdateNode? && e.call.node.name == n && e.call.node.unschedulable
  }

  /** Outside moves have kept to Rely since the loop last cordoned n. */
  ghost predicate Calm(h: History, n: string) {
    match h
    case Start(_) => true
    case Then(past, seen, e, _) =>
      StartsLoop(e) || Cordons(e, n) || (Calm(past, n) && Rely(past.state.world, seen, n))
  }

  /** What is true of the cluster at a stage of the protocol. */
  predicate Holds(w: World, s: Stage) {
    match s
    case Cordoned(n) => IsCordoned(w, n)
    case Emptied(n) => IsCordoned(w, n) && NothingToDrain(w.pods, n)
    case Unmounted(n) => IsCordoned(w, n) && NothingToDrain(w.pods, n) && w.nodes[n].volumesInUse == {}
    case Detached(n) => Drained(w, n)
    case Marked(n) => Drained(w, n)
    case Sent(n) => Drained(w, n)
    case _ => true
  }

  predicate Protocol(s: Stage) {
    s.Cordoned? || s.Emptied? || s.Unmounted? || s.Detached? || s.Marked? || s.Sent?
  }

  lemma OutsideKeeps(pre: World, post: World, s: Stage)
    requires Holds(pre, s) && (Protocol(s) ==> Rely(pre, post, s.name))
    ensures Holds(post, s)
  {
  }

  lemma EvictionKeeps(pre: World, post: World, e: Event, memory: Memory, state: State, s: Stage)
    requires e.Called? && e.call.Evict? && StepTruthful(memory, pre, e, state) && post == state.world
    requires Holds(pre, s)
    ensures Holds(post, s)
  {
    if Applied(e.reply) {
      forall n | NothingToDrain(pre.pods, n) ensures NothingToDrain(post.pods, n) {
        forall p | p in post.pods && p.node == n ensures SkipDrain(p) {
          assert p in pre.pods || p.(terminating := false) in pre.pods;
        }
      }
    }
  }

  lemma ReadStep(cfg: Config, h: History, m: Monitor)
    requires h.Then? && h.event.Called? && !Write(h.event) && Holds(h.seen, m.stage)
    requires StepTruthful(h.past.state.memory, h.seen, h.event, h.state)
    ensures Holds(h.state.world, AfterCall(m, h.event.call, h.event.reply).stage)
  {
    if h.event.call.Evict? {
      EvictionKeeps(h.seen, h.state.world, h.event, h.past.state.memory, h.state, m.stage);
    }
  }

  lemma WriteStep(cfg: Config, h: History, m: Monitor)
    requires h.Then? && Write(h.event) && WellFormed(h.seen)
    requires Cordons(h.event, if h.event.call.UpdateNode? then h.event.call.node.name else "") || Holds(h.seen, m.stage)
    requires StepTruthful(h.past.state.memory, h.seen, h.event, h.state)
    requires CallAllowed(cfg, m, h.past.state.world.clock, h.seen, h.event.call, h.event.reply)
    ensures Holds(h.state.world, AfterCall(m, h.event.call, h.event.reply).stage)
  {
  }

  lemma NoteStep(cfg: Config, h: History, m: Monitor)
    requires h.Then? && !h.event.Called? && !StartsLoop(h.event) && Holds(h.seen, m.stage)
    requires StepTruthful(h.past.state.memory, h.seen, h.event, h.state)
    ensures Holds(h.state.world, After(cfg, m, h.past.state.memory, h.seen, h.event).stage)
  {
  }

  /** A stage of the protocol is entered by cordoning its node, or belongs to the node it had before. */
  lemma SameNode(cfg: Config, h: History, m: Monitor)
    requires h.Then? && !StartsLoop(h.event) && Allowed(cfg, m, h.past.state, h.seen, h.event)
    requires var k := After(cfg, m, h.past.state.memory, h.seen, h.event);
             Protocol(k.stage) && !Cordons(h.event, k.stage.name)
    ensures var k := After(cfg, m, h.past.state.memory, h.seen, h.event);
            Protocol(m.stage) && m.stage.name == k.stage.name
  {
    if h.event.Called? {
      SameNodeAfterCall(cfg, m, h.past.state.world.clock, h.seen, h.event);
    }
  }

  lemma SameNodeAfterCall(cfg: Config, m: Monitor, clock: Time, seen: World, e: Event)
    requires e.Called? && CallAllowed(cfg, m, clock, seen, e.call, e.reply)
    requires var k := AfterCall(m, e.call, e.reply); Protocol(k.stage) && !Cordons(e, k.stage.name)
    ensures Protocol(m.stage) && m.stage.name == AfterCall(m, e.call, e.reply).stage.name
  {
  }

  lemma {:induction false} StageHolds(cfg: Config, h: History)
    requires Truthful(h) && Justified(cfg, h)
    requires var s := Replay(cfg, h).stage; Protocol(s) ==> Calm(h, s.name)
    ensures Holds(h.state.world, Replay(cfg, h).stage)
  {
    if h.Then? && !StartsLoop(h.event) {
      var m := Replay(cfg, h.past);
      var s := Replay(cfg, h).stage;
      if Protocol(s) {
        if Cordons(h.event, s.name) {
          WriteStep(cfg, h, m);
        } else {
          SameNode(cfg, h, m);
          StageHolds(cfg, h.past);
          OutsideKeeps(h.past.state.world, h.seen, m.stage);
          ProtocolStep(cfg, h, m);
        }
      }
    }
  }

  lemma ProtocolStep(cfg: Config, h: History, m: Monitor)
    requires h.Then? && !StartsLoop(h.event) && Holds(h.seen, m.stage) && WellFormed(h.seen)
    requires StepTruthful(h.past.state.memory, h.seen, h.event, h.state)
    requires Allowed(cfg, m, h.past.state, h.seen, h.event)
    ensures Holds(h.state.world, After(cfg, m, h.past.state.memory, h.seen, h.event).stage)
  {
    if Write(h.event) {
      WriteStep(cfg, h, m);
    } else if h.event.Called? {
      ReadStep(cfg, h, m);
    } else {
      NoteStep(cfg, h, m);
    }
  }

  /** What is left on n are static pods and those of daemon sets. */
  predicate OnlyResidents(w: World, n: string) {
    forall p | p in w.pods && p.node == n :: Resident(p)
  }

  lemma DrainedToResidents(w: World, n: string)
    requires NothingToDrain(w.pods, n)
    ensures OnlyResidents(w, n)
  {
    forall p | p in w.pods && p.node == n ensures Resident(p) {
      BlockersMustStay(p);
    }
  }

  /** At the moment a host is asked to shut down its node is drained, cordoned and marked off. */
  lemma ShutdownHitsADrainedNode(cfg: Config, h: History, n: string)
    requires Truthful(h) && Justified(cfg, h)
    requires h.Then? && h.event.Called? && h.event.call == Shutdown(n) && Calm(h, n)
    ensures Drained(h.seen, n) && OnlyResidents(h.seen, n)
  {
    StageHolds(cfg, h.past);
    OutsideKeeps(h.past.state.world, h.seen, Marked(n));
    DrainedToResidents(h.seen, n);
  }

  /** A finished drain has drained the node. */
  lemma DetachedIsDrained(cfg: Config, h: History, n: string)
    requires Lawful(h) && Disciplined(cfg, h) && Watch(cfg, h).stage == Detached(n) && Calm(h, n)
    ensures Drained(h.state.world, n) && OnlyResidents(h.state.world, n)
  {
    Open(cfg, h);
    StageHolds(cfg, h);
    DrainedToResidents(h.state.world, n);
  }
}
