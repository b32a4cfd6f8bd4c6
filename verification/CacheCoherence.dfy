/** The remembered set of powered-off nodes against the marks on the nodes themselves. */
module CacheCoherence {
  import opened Prelude
  import opened Clock
  import opened Cluster
  import opened Settings
  import opened Journal
  import opened NodeLists
  import opened ShutdownOrder

  function MarkOf(node: Node): Option<Value> {
    Annotation(node, POWERED_OFF)
  }

  /** The same nodes, with the same labels and off marks. */
  predicate Unedited(pre: World, post: World) {
    && post.nodes.Keys == pre.nodes.Keys
    && forall n | n in pre.nodes ::
         post.nodes[n].labels == pre.nodes[n].labels && MarkOf(post.nodes[n]) == MarkOf(pre.nodes[n])
  }

  predicate SameReadiness(pre: World, post: World) {
    forall n | n in pre.nodes && n in post.nodes :: post.nodes[n].ready == pre.nodes[n].ready
  }

  /** In the present loop the memory has been reconciled with the nodes. */
  ghost predicate SweptInLoop(h: History) {
    h.Then? && !StartsLoop(h.event) && (h.event.Swept? || SweptInLoop(h.past))
  }

  predicate LosesReply(e: Event) {
    e.Called? && e.call.PatchNode? && e.reply.Refused? && e.reply.applied
  }

  /** The process has started without holding any node to be off; nobody else edits nodes; nodes come and
      go only between the reconciling of the memory in one loop and the start of the next; and no reply
      to a patch that was applied gets lost. */
  ghost predicate AllQuiet(h: History) {
    match h
    case Start(s) => s.memory.off == {}
    case Then(past, seen, e, _) =>
      && AllQuiet(past)
      && Unedited(past.state.world, seen)
      && (!SweptInLoop(past) ==> SameReadiness(past.state.world, seen))
      && !LosesReply(e)
  }

  ghost predicate NodeCoherent(cfg: Config, w: World, m: Monitor, n: string)
    requires n in w.nodes
  {
    || PoweredOffSince(w.nodes[n]).Some?
    || n in m.work.owed
    || (m.loop.known.None? && w.nodes[n].ready)
  }

  /** A managed node that is held to be off is marked off, or owed, or up and about to be swept. */
  ghost predicate OffCoherent(cfg: Config, w: World, off: set<string>, m: Monitor) {
    forall n | n in off && n in w.nodes && Managed(cfg, w.nodes[n]) :: NodeCoherent(cfg, w, m, n)
  }

  ghost predicate Named(nodes: seq<Node>, n: string) {
    exists x :: x in nodes && x.name == n
  }

  /** A listing still tells the labels and marks of all nodes, and until the sweep also which are up. */
  ghost predicate ListingCurrent(w: World, m: Monitor, nodes: seq<Node>) {
    && (forall x | x in nodes && x.name in w.nodes ::
          && w.nodes[x.name].labels == x.labels && MarkOf(w.nodes[x.name]) == MarkOf(x)
          && (m.loop.known.None? ==> w.nodes[x.name].ready == x.ready))
    && (forall n | n in w.nodes :: Named(nodes, n))
  }

  ghost predicate RosterCurrent(w: World, m: Monitor, nodes: seq<Node>) {
    && (m.loop.known.None? ==> forall x | x in nodes && x.name in w.nodes :: w.nodes[x.name].ready == x.ready)
    && (forall n | n in w.nodes :: Named(nodes, n))
  }

  predicate Unclaimed(s: Stage) {
    s.Vetting? || s.Cordoned? || s.Emptied? || s.Unmounted? || s.Detached? || s.Marked? || s.RollingBack?
  }

  ghost predicate StageCoherent(w: World, off: set<string>, m: Monitor) {
    && (m.stage.Idle? || m.stage.Vetting? ==> m.work.eligible !! off)
    && (Unclaimed(m.stage) ==> m.stage.name !in off)
    && (m.stage.Marked? || m.stage.Sent? ==>
          m.stage.name in w.nodes && PoweredOffSince(w.nodes[m.stage.name]).Some?)
  }

  ghost predicate Coherent(cfg: Config, h: History, w: World, off: set<string>, m: Monitor) {
    && (m.loop.known.Some? <==> SweptInLoop(h))
    && OffCoherent(cfg, w, off, m)
    && (m.listing.Some? ==> ListingCurrent(w, m, m.listing.value))
    && (m.work.roster.Some? ==> RosterCurrent(w, m, m.work.roster.value))
    && StageCoherent(w, off, m)
  }

  lemma SameMarkSameSince(a: Node, b: Node)
    requires MarkOf(a) == MarkOf(b)
    ensures PoweredOffSince(a) == PoweredOffSince(b)
  {
  }

  lemma OutsideCoherent(cfg: Config, h: History, pre: World, post: World, off: set<string>, m: Monitor)
    requires Coherent(cfg, h, pre, off, m) && Unedited(pre, post)
    requires m.loop.known.None? ==> SameReadiness(pre, post)
    ensures Coherent(cfg, h, post, off, m)
  {
    forall n | n in pre.nodes ensures PoweredOffSince(post.nodes[n]) == PoweredOffSince(pre.nodes[n]) {
      SameMarkSameSince(post.nodes[n], pre.nodes[n]);
    }
  }

  lemma FreshListing(w: World, m: Monitor, nodes: seq<Node>)
    requires WellFormed(w) && IsListing(nodes, w)
    ensures ListingCurrent(w, m, nodes) && RosterCurrent(w, m, nodes)
  {
    forall n | n in w.nodes ensures Named(nodes, n) {
      assert w.nodes[n] in nodes;
    }
  }

  lemma ListCoherent(cfg: Config, h: History, m: Monitor, nodes: seq<Node>)
    requires h.Then? && h.event.Called? && h.event.call.ListNodes? && h.event.reply == Nodes(nodes)
    requires WellFormed(h.seen) && IsListing(nodes, h.seen) && h.state.world == h.seen
    requires Coherent(cfg, h.past, h.seen, h.state.memory.off, m)
    ensures Coherent(cfg, h, h.state.world, h.state.memory.off, Listed(m, nodes))
  {
    FreshListing(h.seen, m, nodes);
  }

  lemma ReadCoherent(cfg: Config, h: History, m: Monitor)
    requires h.Then? && h.event.Called? && !Write(h.event) && WellFormed(h.seen)
    requires Coherent(cfg, h.past, h.seen, h.past.state.memory.off, m)
    requires StepTruthful(h.past.state.memory, h.seen, h.event, h.state)
    ensures Coherent(cfg, h, h.state.world, h.state.memory.off, AfterCall(m, h.event.call, h.event.reply))
  {
    if h.event.call.ListNodes? && h.event.reply.Nodes? {
      ListCoherent(cfg, h, m, h.event.reply.nodes);
    } else {
      assert h.state.world.nodes == h.seen.nodes;
      NoListing(cfg, h, m);
    }
  }

  lemma NoListing(cfg: Config, h: History, m: Monitor)
    requires h.Then? && h.event.Called? && !Write(h.event) && !(h.event.call.ListNodes? && h.event.reply.Nodes?)
    requires h.state.world.nodes == h.seen.nodes && h.state.memory == h.past.state.memory
    requires Coherent(cfg, h.past, h.seen, h.past.state.memory.off, m)
    ensures Coherent(cfg, h, h.state.world, h.state.memory.off, AfterCall(m, h.event.call, h.event.reply))
  {
    var k := AfterCall(m, h.event.call, h.event.reply);
    assert k.loop == m.loop.(drain := k.loop.drain) && k.listing == m.listing;
    assert k.work == m.work.(powered := k.work.powered, stamped := k.work.stamped);
  }

  lemma UpdateEdits(cfg: Config, h: History, m: Monitor, node: Node)
    requires h.Then? && Write(h.event) && h.event.call == UpdateNode(node) && WellFormed(h.seen)
    requires StepTruthful(h.past.state.memory, h.seen, h.event, h.state)
    requires CallAllowed(cfg, m, h.past.state.world.clock, h.seen, h.event.call, h.event.reply)
    ensures Unedited(h.seen, h.state.world) && SameReadiness(h.seen, h.state.world)
  {
  }

  lemma UpdateCoherent(cfg: Config, h: History, m: Monitor, node: Node)
    requires h.Then? && Write(h.event) && h.event.call == UpdateNode(node)
    requires Coherent(cfg, h.past, h.seen, h.past.state.memory.off, m) && h.state.memory == h.past.state.memory
    requires Unedited(h.seen, h.state.world) && SameReadiness(h.seen, h.state.world)
    requires node.unschedulable ==> m.stage == Vetting(node.name, |Chain(cfg)|)
    ensures Coherent(cfg, h, h.state.world, h.state.memory.off, Rescheduled(m, node.name, node.unschedulable))
  {
    OutsideCoherent(cfg, h.past, h.seen, h.state.world, h.past.state.memory.off, m);
  }

  /** A patch edits nothing but the mark of the node it names. */
  ghost predicate Edits(pre: World, post: World, n: string, patch: Patch) {
    && post.nodes.Keys == pre.nodes.Keys && n in pre.nodes
    && (forall x | x in pre.nodes ::
          && post.nodes[x].labels == pre.nodes[x].labels && post.nodes[x].ready == pre.nodes[x].ready
          && MarkOf(post.nodes[x])
             == if x == n then PatchedValue(MarkOf(pre.nodes[x]), patch, POWERED_OFF) else MarkOf(pre.nodes[x]))
  }

  lemma PatchEdits(h: History, n: string, patch: Patch)
    requires h.Then? && Write(h.event) && h.event.call == PatchNode(n, patch) && WellFormed(h.seen)
    requires StepTruthful(h.past.state.memory, h.seen, h.event, h.state)
    ensures Edits(h.seen, h.state.world, n, patch)
  {
  }

  /** The patches there are, and of a removed mark why it may be removed: in a rollback only from the
      candidate, and otherwise with a boot time only from a node that was up when the loop listed nodes. */
  ghost predicate PatchReason(m: Monitor, n: string, patch: Patch, clock: Time) {
    || (patch == MarkPatch(clock) && m.stage == Detached(n))
    || patch == BootPatch(clock)
    || (patch == CLEAR_PATCH && (m.stage.RollingBack? ==> n == m.stage.name))
    || (patch == RecoveryPatch(clock) && UpOnRoster(m, n))
  }

  ghost predicate UpOnRoster(m: Monitor, n: string) {
    m.loop.known.None? && m.work.roster.Some? && exists x :: x in m.work.roster.value && x.name == n && x.ready
  }

  lemma AllowedPatchReason(cfg: Config, m: Monitor, clock: Time, seen: World, n: string, patch: Patch, reply: Reply)
    requires CallAllowed(cfg, m, clock, seen, PatchNode(n, patch), reply)
    ensures PatchReason(m, n, patch, clock)
  {
  }

  /** Whether the patched node is still coherent. */
  lemma PatchedNodeCoherent(cfg: Config, h: History, m: Monitor, n: string, patch: Patch)
    requires h.Then? && Write(h.event) && h.event.call == PatchNode(n, patch) && !LosesReply(h.event)
    requires Coherent(cfg, h.past, h.seen, h.past.state.memory.off, m) && Edits(h.seen, h.state.world, n, patch)
    requires PatchReason(m, n, patch, h.past.state.world.clock) && (h.event.reply.Done? || h.event.reply.Refused?)
    requires n in h.past.state.memory.off && Managed(cfg, h.state.world.nodes[n])
    ensures NodeCoherent(cfg, h.state.world, Annotated(m, n, patch, h.event.reply), n)
  {
    if POWERED_OFF !in patch {
      SameMarkSameSince(h.state.world.nodes[n], h.seen.nodes[n]);
    }
  }

  lemma MarkStage(h: History, m: Monitor, n: string, patch: Patch)
    requires h.Then? && Write(h.event) && h.event.call == PatchNode(n, patch) && SetsMark(patch)
    requires StageCoherent(h.seen, h.past.state.memory.off, m) && Edits(h.seen, h.state.world, n, patch)
    requires m.stage == Detached(n) && patch[POWERED_OFF].value.Stamp?
    ensures StageCoherent(h.state.world, h.past.state.memory.off, Annotated(m, n, patch, h.event.reply))
  {
  }

  lemma OtherStage(w: World, v: World, off: set<string>, m: Monitor, n: string, patch: Patch, reply: Reply)
    requires StageCoherent(w, off, m) && !SetsMark(patch)
    ensures StageCoherent(v, off, Annotated(m, n, patch, reply))
  {
  }

  lemma PatchStage(cfg: Config, h: History, m: Monitor, n: string, patch: Patch)
    requires h.Then? && Write(h.event) && h.event.call == PatchNode(n, patch)
    requires StageCoherent(h.seen, h.past.state.memory.off, m) && Edits(h.seen, h.state.world, n, patch)
    requires PatchReason(m, n, patch, h.past.state.world.clock)
    ensures StageCoherent(h.state.world, h.past.state.memory.off, Annotated(m, n, patch, h.event.reply))
  {
    if SetsMark(patch) {
      MarkStage(h, m, n, patch);
    } else {
      OtherStage(h.seen, h.state.world, h.past.state.memory.off, m, n, patch, h.event.reply);
    }
  }

  lemma PatchCoherent(cfg: Config, h: History, m: Monitor, n: string, patch: Patch)
    requires h.Then? && Write(h.event) && h.event.call == PatchNode(n, patch) && !LosesReply(h.event)
    requires Coherent(cfg, h.past, h.seen, h.past.state.memory.off, m) && Edits(h.seen, h.state.world, n, patch)
    requires PatchReason(m, n, patch, h.past.state.world.clock) && (h.event.reply.Done? || h.event.reply.Refused?)
    requires h.state.memory == h.past.state.memory
    ensures Coherent(cfg, h, h.state.world, h.state.memory.off, Annotated(m, n, patch, h.event.reply))
  {
    PatchStage(cfg, h, m, n, patch);
    var k := Annotated(m, n, patch, h.event.reply);
    assert k.loop.known == m.loop.known && k.work.roster == m.work.roster && k.listing.None?
           && m.work.owed <= k.work.owed;
    forall x | x in h.state.memory.off && x in h.state.world.nodes && Managed(cfg, h.state.world.nodes[x])
      ensures NodeCoherent(cfg, h.state.world, k, x) {
      if x == n {
        PatchedNodeCoherent(cfg, h, m, n, patch);
      } else {
        SameMarkSameSince(h.state.world.nodes[x], h.seen.nodes[x]);
      }
    }
  }

  lemma FilterCoherent(cfg: Config, nodes: seq<Node>, memory: Memory, now: Time)
    ensures EligibleNames(cfg, nodes, memory, now) !! memory.off
  {
  }

  /** After the sweep every managed node that is still held to be off is marked off, or owed. */
  lemma SweepCoherent(cfg: Config, h: History, m: Monitor)
    requires h.Then? && h.event.Swept? && h.state == State(h.seen, h.past.state.memory)
    requires Coherent(cfg, h.past, h.seen, h.past.state.memory.off, m)
    requires m.listing.Some? && Reconciled(cfg, m.listing.value, h.past.state.memory)
    ensures Coherent(cfg, h, h.state.world, h.state.memory.off, m.(loop := m.loop.(known := m.listing)))
  {
    var k := m.(loop := m.loop.(known := m.listing));
    var w := h.state.world;
    forall n | n in h.state.memory.off && n in w.nodes && Managed(cfg, w.nodes[n])
      ensures NodeCoherent(cfg, w, k, n) {
      assert Named(m.listing.value, n);
      var x :| x in m.listing.value && x.name == n;
      SameMarkSameSince(x, w.nodes[n]);
    }
  }

  lemma NotedCoherent(cfg: Config, h: History, m: Monitor, op: MemoryOp)
    requires h.Then? && h.event == Noted(op) && h.state == State(h.seen, Remember(h.past.state.memory, op))
    requires Coherent(cfg, h.past, h.seen, h.past.state.memory.off, m)
    requires Allowed(cfg, m, h.past.state, h.seen, h.event)
    ensures Coherent(cfg, h, h.state.world, h.state.memory.off, After(cfg, m, h.past.state.memory, h.seen, h.event))
  {
  }

  /** What is known about nodes is the same, or forgotten. */
  ghost predicate SameKnowledge(m: Monitor, k: Monitor) {
    && k.loop.known == m.loop.known && k.work.roster == m.work.roster && k.work.owed == m.work.owed
    && (k.listing == m.listing || k.listing.None?)
  }

  lemma OtherKeeps(cfg: Config, m: Monitor, memory: Memory, seen: World, e: Event)
    requires !e.Called? && !StartsLoop(e) && !e.Noted? && !e.Swept?
    ensures SameKnowledge(m, After(cfg, m, memory, seen, e))
  {
  }

  lemma OtherNoteStage(cfg: Config, m: Monitor, now: State, seen: World, e: Event, w: World)
    requires !e.Called? && !StartsLoop(e) && !e.Noted? && !e.Swept? && Allowed(cfg, m, now, seen, e)
    requires StageCoherent(w, now.memory.off, m)
    ensures StageCoherent(w, now.memory.off, After(cfg, m, now.memory, seen, e))
  {
    if e.Filtered? {
      FilterCoherent(cfg, m.listing.value, now.memory, e.now);
    }
  }

  lemma KnowledgeCoherent(cfg: Config, h: History, m: Monitor, k: Monitor)
    requires h.Then? && !h.event.Swept? && !StartsLoop(h.event) && h.state == State(h.seen, h.past.state.memory)
    requires Coherent(cfg, h.past, h.seen, h.past.state.memory.off, m)
    requires SameKnowledge(m, k) && StageCoherent(h.seen, h.past.state.memory.off, k)
    ensures Coherent(cfg, h, h.state.world, h.state.memory.off, k)
  {
  }

  lemma OtherCoherent(cfg: Config, h: History, m: Monitor)
    requires h.Then? && !h.event.Called? && !StartsLoop(h.event) && !h.event.Noted? && !h.event.Swept?
    requires h.state == State(h.seen, h.past.state.memory)
    requires Coherent(cfg, h.past, h.seen, h.past.state.memory.off, m)
    requires Allowed(cfg, m, h.past.state, h.seen, h.event)
    ensures Coherent(cfg, h, h.state.world, h.state.memory.off, After(cfg, m, h.past.state.memory, h.seen, h.event))
  {
    OtherKeeps(cfg, m, h.past.state.memory, h.seen, h.event);
    OtherNoteStage(cfg, m, h.past.state, h.seen, h.event, h.seen);
    KnowledgeCoherent(cfg, h, m, After(cfg, m, h.past.state.memory, h.seen, h.event));
  }

  lemma StartCoherent(cfg: Config, h: History, m: Monitor)
    requires h.Then? && StartsLoop(h.event) && !cfg.forcePowerOn
    requires StepTruthful(h.past.state.memory, h.seen, h.event, h.state)
    requires Coherent(cfg, h.past, h.seen, h.past.state.memory.off, m)
    requires Allowed(cfg, m, h.past.state, h.seen, h.event)
    ensures Coherent(cfg, h, h.state.world, h.state.memory.off, After(cfg, m, h.past.state.memory, h.seen, h.event))
  {
  }

  lemma {:induction false} AlwaysCoherent(cfg: Config, h: History)
    requires Truthful(h) && Justified(cfg, h) && AllQuiet(h) && !cfg.forcePowerOn
    ensures Coherent(cfg, h, h.state.world, h.state.memory.off, Replay(cfg, h))
  {
    if h.Then? {
      AlwaysCoherent(cfg, h.past);
      var m := Replay(cfg, h.past);
      OutsideCoherent(cfg, h.past, h.past.state.world, h.seen, h.past.state.memory.off, m);
      StepCoherent(cfg, h, m);
    }
  }

  lemma StepCoherent(cfg: Config, h: History, m: Monitor)
    requires h.Then? && !cfg.forcePowerOn && WellFormed(h.seen) && !LosesReply(h.event)
    requires Coherent(cfg, h.past, h.seen, h.past.state.memory.off, m)
    requires StepTruthful(h.past.state.memory, h.seen, h.event, h.state)
    requires Allowed(cfg, m, h.past.state, h.seen, h.event)
    ensures Coherent(cfg, h, h.state.world, h.state.memory.off, After(cfg, m, h.past.state.memory, h.seen, h.event))
  {
    if StartsLoop(h.event) {
      StartCoherent(cfg, h, m);
    } else if Write(h.event) {
      WriteCoherent(cfg, h, m);
    } else if h.event.Called? {
      ReadCoherent(cfg, h, m);
    } else {
      NoteCoherent(cfg, h, m);
    }
  }

  lemma NoteCoherent(cfg: Config, h: History, m: Monitor)
    requires h.Then? && !h.event.Called? && !StartsLoop(h.event)
    requires Coherent(cfg, h.past, h.seen, h.past.state.memory.off, m)
    requires StepTruthful(h.past.state.memory, h.seen, h.event, h.state)
    requires Allowed(cfg, m, h.past.state, h.seen, h.event)
    ensures Coherent(cfg, h, h.state.world, h.state.memory.off, After(cfg, m, h.past.state.memory, h.seen, h.event))
  {
    match h.event
    case Noted(op) => NotedCoherent(cfg, h, m, op);
    case Swept => SweepCoherent(cfg, h, m);
    case _ => OtherCoherent(cfg, h, m);
  }

  lemma WriteCoherent(cfg: Config, h: History, m: Monitor)
    requires h.Then? && Write(h.event) && WellFormed(h.seen) && !LosesReply(h.event)
    requires Coherent(cfg, h.past, h.seen, h.past.state.memory.off, m)
    requires StepTruthful(h.past.state.memory, h.seen, h.event, h.state)
    requires CallAllowed(cfg, m, h.past.state.world.clock, h.seen, h.event.call, h.event.reply)
    ensures Coherent(cfg, h, h.state.world, h.state.memory.off, AfterCall(m, h.event.call, h.event.reply))
  {
    match h.event.call
    case UpdateNode(node) =>
      UpdateEdits(cfg, h, m, node);
      UpdateCoherent(cfg, h, m, node);
    case PatchNode(n, patch) =>
      PatchEdits(h, n, patch);
      AllowedPatchReason(cfg, m, h.past.state.world.clock, h.seen, n, patch, h.event.reply);
      PatchCoherent(cfg, h, m, n, patch);
    case _ =>
  }

  /** Whenever scale-up is decided, every managed node that the memory holds to be off is marked off. */
  lemma OffImpliesMarked(cfg: Config, h: History, n: string)
    requires Truthful(h) && Justified(cfg, h) && AllQuiet(h) && !cfg.forcePowerOn && !cfg.dryRun
    requires h.Then? && h.event.Deciding?
    requires n in h.state.memory.off && n in h.state.world.nodes && Managed(cfg, h.state.world.nodes[n])
    ensures PoweredOffSince(h.state.world.nodes[n]).Some?
  {
    AlwaysCoherent(cfg, h.past);
    OutsideCoherent(cfg, h.past, h.past.state.world, h.seen, h.past.state.memory.off, Replay(cfg, h.past));
  }

  lemma {:induction false} ItemsWithoutMemory(nodes: seq<Node>, m: Memory)
    requires forall x | x in nodes && x.name in m.off :: PoweredOffSince(x).Some?
    ensures Items(nodes, m) == Items(nodes, BLANK)
  {
    if nodes != [] {
      var init, last := nodes[..|nodes| - 1], nodes[|nodes| - 1];
      assert nodes == init + [last];
      ItemsWithoutMemory(init, m);
      assert last in nodes;
    }
  }

  /** So a restart at that point, which empties the memory, changes nothing for scale-up: the lists of
      powered-off nodes that it may work with are the same. */
  lemma RestartKeepsScaleUpList(cfg: Config, h: History, w: World, listing: seq<Node>, nodes: seq<Node>,
                                names: seq<string>)
    requires Truthful(h) && Justified(cfg, h) && AllQuiet(h) && !cfg.forcePowerOn && !cfg.dryRun
    requires h.Then? && h.event.Deciding?
    requires Unedited(h.state.world, w) && IsListing(listing, w) && Lists(nodes, ManagedOf(cfg, listing))
    ensures OldestFirst(names, nodes, h.state.memory) <==> OldestFirst(names, nodes, BLANK)
  {
    forall x | x in nodes && x.name in h.state.memory.off ensures PoweredOffSince(x).Some? {
      assert x in Elements(nodes);
      OffImpliesMarked(cfg, h, x.name);
      SameMarkSameSince(x, h.state.world.nodes[x.name]);
    }
    ItemsWithoutMemory(nodes, h.state.memory);
  }

  // ----- With less assumed

  /** Since the last listing nobody else edited nodes or changed which of them are up. */
  ghost predicate QuietSinceListing(h: History) {
    match h
    case Start(_) => true
    case Then(past, seen, e, _) =>
      || (e.Called? && e.call.ListNodes? && e.reply.Nodes?)
      || (QuietSinceListing(past) && Unedited(past.state.world, seen) && SameReadiness(past.state.world, seen))
  }

  ghost predicate Tells(w: World, nodes: seq<Node>) {
    && (forall n | n in w.nodes :: Named(nodes, n))
    && (forall x | x in nodes && x.name in w.nodes ::
          && w.nodes[x.name].labels == x.labels && MarkOf(w.nodes[x.name]) == MarkOf(x)
          && w.nodes[x.name].ready == x.ready)
  }

  lemma ListingTells(nodes: seq<Node>, w: World)
    requires WellFormed(w) && IsListing(nodes, w)
    ensures Tells(w, nodes)
  {
    forall n | n in w.nodes ensures Named(nodes, n) {
      assert w.nodes[n] in nodes;
    }
  }

  lemma ListingAfterStep(cfg: Config, h: History, m: Monitor)
    requires h.Then? && StepTruthful(h.past.state.memory, h.seen, h.event, h.state)
    ensures var k := After(cfg, m, h.past.state.memory, h.seen, h.event);
            || k.listing.None?
            || (h.event.Called? && h.event.call.ListNodes? && h.event.reply == Nodes(k.listing.value)
                && IsListing(k.listing.value, h.seen) && h.state.world == h.seen)
            || (k.listing == m.listing && h.state.world.nodes == h.seen.nodes)
  {
  }

  lemma {:induction false} CurrentListing(cfg: Config, h: History)
    requires Truthful(h) && QuietSinceListing(h) && Replay(cfg, h).listing.Some?
    ensures Tells(h.state.world, Replay(cfg, h).listing.value)
  {
    if h.Then? {
      ListingAfterStep(cfg, h, Replay(cfg, h.past));
      if h.event.Called? && h.event.call.ListNodes? && h.event.reply.Nodes? {
        ListingTells(Replay(cfg, h).listing.value, h.seen);
      } else {
        CurrentListing(cfg, h.past);
      }
    }
  }

  /** Even if nodes were edited before, and replies lost: when scale-up is decided, a managed node that the
      memory holds to be off is marked off or it is not up. */
  lemma OffImpliesMarkedOrDown(cfg: Config, h: History, n: string)
    requires Lawful(h) && Disciplined(cfg, h) && QuietSinceListing(h) && !cfg.dryRun
    requires h.Then? && h.event.Deciding?
    requires n in h.state.memory.off && n in h.state.world.nodes && Managed(cfg, h.state.world.nodes[n])
    ensures PoweredOffSince(h.state.world.nodes[n]).Some? || !h.state.world.nodes[n].ready
  {
    Open(cfg, h);
    CurrentListing(cfg, h);
    var nodes := Replay(cfg, h.past).listing.value;
    assert Named(nodes, n);
    var x :| x in nodes && x.name == n;
    SameMarkSameSince(x, h.state.world.nodes[n]);
  }
}
