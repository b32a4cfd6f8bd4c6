/** Rotation does not starve a node that is due for it. */
module RotationFairness {
  import opened Prelude
  import opened Clock
  import opened Cluster
  import opened Settings
  import opened Journal
  import opened ShutdownOrder
  import opened CacheCoherence

  predicate OffBy(cfg: Config, node: Node, t: Time) {
    && Managed(cfg, node) && !RotationExempt(cfg, node)
    && PoweredOffSince(node).Some? && PoweredOffSince(node).value <= t
  }

  /** The nodes that rotation may take, marked off no later than t. Their number is the rank of a node
      marked at t. */
  ghost function Ahead(cfg: Config, w: World, t: Time): set<string> {
    set n | n in w.nodes && OffBy(cfg, w.nodes[n], t)
  }

  /** x is a node that rotation may take, marked off at t. */
  ghost predicate Waiting(cfg: Config, w: World, x: string, t: Time) {
    && x in w.nodes && Managed(cfg, w.nodes[x]) && !RotationExempt(cfg, w.nodes[x])
    && PoweredOffSince(w.nodes[x]) == Some(t)
  }

  /** h goes on from h0, through restarts if need be; x waits all the time; and nobody else edits nodes. */
  ghost predicate Waits(cfg: Config, h: History, h0: History, x: string, t: Time) {
    && Waiting(cfg, h.state.world, x, t)
    && (h == h0 || (h.Then? && Waits(cfg, h.past, h0, x, t) && Unedited(h.past.state.world, h.seen)))
  }

  /** Successful rotations after h0. */
  ghost function Rotations(h: History, h0: History): nat {
    if h == h0 || h.Start? then 0
    else Rotations(h.past, h0) + if h.event.Rotated? then 1 else 0
  }

  /** The off mark of the node found overdue is gone, and its rotation not counted yet. */
  ghost function Uncounted(m: Monitor): nat {
    if m.loop.overdue.Some? && m.loop.overdue.value.name in m.work.cleared then 1 else 0
  }

  ghost predicate MarksTold(w: World, nodes: seq<Node>) {
    && (forall n | n in w.nodes :: Named(nodes, n))
    && (forall x | x in nodes ::
          x.name in w.nodes && w.nodes[x.name].labels == x.labels && MarkOf(w.nodes[x.name]) == MarkOf(x))
  }

  ghost predicate OverdueAhead(cfg: Config, w: World, m: Monitor, t: Time) {
    m.loop.overdue.Some? && m.loop.overdue.value.name !in m.work.cleared ==>
      m.loop.overdue.value.name in Ahead(cfg, w, t)
  }

  ghost predicate Fair(cfg: Config, w: World, m: Monitor, t: Time, from: Time, rank: nat, rotations: nat) {
    && from <= m.loop.begun <= w.clock
    && (m.listing.Some? ==> MarksTold(w, m.listing.value))
    && OverdueAhead(cfg, w, m, t)
    && |Ahead(cfg, w, t)| + rotations + Uncounted(m) <= rank
  }

  lemma UneditedKeepsAhead(cfg: Config, pre: World, post: World, t: Time)
    requires Unedited(pre, post)
    ensures Ahead(cfg, post, t) == Ahead(cfg, pre, t)
  {
    forall n | n in pre.nodes ensures PoweredOffSince(post.nodes[n]) == PoweredOffSince(pre.nodes[n]) {
      SameMarkSameSince(post.nodes[n], pre.nodes[n]);
    }
  }

  lemma UneditedFair(cfg: Config, pre: World, post: World, m: Monitor, t: Time, from: Time, rank: nat, rotations: nat)
    requires Fair(cfg, pre, m, t, from, rank, rotations) && Unedited(pre, post) && pre.clock <= post.clock
    ensures Fair(cfg, post, m, t, from, rank, rotations)
  {
    UneditedKeepsAhead(cfg, pre, post, t);
  }

  lemma ListingFair(w: World, nodes: seq<Node>)
    requires WellFormed(w) && IsListing(nodes, w)
    ensures MarksTold(w, nodes)
  {
    ListingTells(nodes, w);
  }

  lemma ReadLeaves(m: Monitor, call: Call, reply: Reply)
    requires !((call.UpdateNode? || call.PatchNode?) && Applied(reply))
    ensures var k := AfterCall(m, call, reply);
            && k.loop.begun == m.loop.begun && k.loop.overdue == m.loop.overdue && k.work.cleared == m.work.cleared
            && k.listing == if call.ListNodes? && reply.Nodes? then Some(reply.nodes) else m.listing
  {
  }

  lemma ReadFair(cfg: Config, h: History, m: Monitor, t: Time, from: Time, rank: nat, rotations: nat)
    requires h.Then? && h.event.Called? && !Write(h.event) && WellFormed(h.seen)
    requires Fair(cfg, h.seen, m, t, from, rank, rotations)
    requires StepTruthful(h.past.state.memory, h.seen, h.event, h.state)
    ensures Fair(cfg, h.state.world, AfterCall(m, h.event.call, h.event.reply), t, from, rank, rotations)
  {
    assert h.state.world.nodes == h.seen.nodes && h.state.world.clock == h.seen.clock;
    assert Ahead(cfg, h.state.world, t) == Ahead(cfg, h.seen, t);
    ReadLeaves(m, h.event.call, h.event.reply);
    if h.event.call.ListNodes? && h.event.reply.Nodes? {
      ListingFair(h.seen, h.event.reply.nodes);
    }
  }

  lemma UpdateFair(cfg: Config, h: History, m: Monitor, node: Node, t: Time, from: Time, rank: nat, rotations: nat)
    requires h.Then? && Write(h.event) && h.event.call == UpdateNode(node) && WellFormed(h.seen)
    requires Fair(cfg, h.seen, m, t, from, rank, rotations)
    requires StepTruthful(h.past.state.memory, h.seen, h.event, h.state)
    requires CallAllowed(cfg, m, h.past.state.world.clock, h.seen, h.event.call, h.event.reply)
    ensures Fair(cfg, h.state.world, Rescheduled(m, node.name, node.unschedulable), t, from, rank, rotations)
  {
    UpdateEdits(cfg, h, m, node);
    UneditedFair(cfg, h.seen, h.state.world, m, t, from, rank, rotations);
  }

  /** A stored mark is later than t, so it adds nobody; a removed one takes its node away. */
  lemma PatchAhead(cfg: Config, h: History, m: Monitor, n: string, patch: Patch, t: Time, from: Time)
    requires h.Then? && Write(h.event) && h.event.call == PatchNode(n, patch)
    requires Edits(h.seen, h.state.world, n, patch) && KnownPatch(m, n, patch, h.past.state.world.clock)
    requires t < Instant(Seconds(from)) && from <= h.past.state.world.clock
    ensures Ahead(cfg, h.state.world, t)
            == if POWERED_OFF in patch then Ahead(cfg, h.seen, t) - {n} else Ahead(cfg, h.seen, t)
  {
    forall x | x in h.seen.nodes && (x != n || POWERED_OFF !in patch)
      ensures PoweredOffSince(h.state.world.nodes[x]) == PoweredOffSince(h.seen.nodes[x]) {
      SameMarkSameSince(h.state.world.nodes[x], h.seen.nodes[x]);
    }
  }

  lemma PatchFair(cfg: Config, h: History, m: Monitor, n: string, patch: Patch, t: Time, from: Time,
                  rank: nat, rotations: nat)
    requires h.Then? && Write(h.event) && h.event.call == PatchNode(n, patch)
    requires Edits(h.seen, h.state.world, n, patch) && h.state.world.clock == h.seen.clock
    requires Fair(cfg, h.seen, m, t, from, rank, rotations) && KnownPatch(m, n, patch, h.past.state.world.clock)
    requires t < Instant(Seconds(from)) && from <= h.past.state.world.clock
    ensures Fair(cfg, h.state.world, Annotated(m, n, patch, h.event.reply), t, from, rank, rotations)
  {
    PatchAhead(cfg, h, m, n, patch, t, from);
    PatchLeaves(m, n, patch, h.event.reply);
    KnownMarks(m, n, patch, h.past.state.world.clock);
  }

  lemma PatchLeaves(m: Monitor, n: string, patch: Patch, reply: Reply)
    ensures var k := Annotated(m, n, patch, reply);
            && k.listing.None? && k.loop.overdue == m.loop.overdue && k.loop.begun == m.loop.begun
            && k.work.cleared == if ClearsMark(patch) then m.work.cleared + {n} else m.work.cleared
  {
  }

  /** A patch of the mark sets it for a drained node when nothing is due, or removes it. */
  lemma KnownMarks(m: Monitor, n: string, patch: Patch, clock: Time)
    requires KnownPatch(m, n, patch, clock)
    ensures POWERED_OFF in patch && !ClearsMark(patch) ==> m.loop.overdue.None?
  {
  }

  lemma SameOverdue(cfg: Config, a: Node, b: Node, now: Time)
    requires a.labels == b.labels && MarkOf(a) == MarkOf(b)
    ensures PoweredOffSince(a) == PoweredOffSince(b) && (Overduely(cfg, a, now) <==> Overduely(cfg, b, now))
    ensures Managed(cfg, a) == Managed(cfg, b) && RotationExempt(cfg, a) == RotationExempt(cfg, b)
  {
    SameMarkSameSince(a, b);
  }

  /** The node found overdue was marked no later than one that was overdue before the loop began. */
  lemma FoundAhead(cfg: Config, w: World, nodes: seq<Node>, x: string, v: Node, t: Time, from: Time, now: Time)
    requires MarksTold(w, nodes) && OldestOverdue(cfg, nodes, v, now)
    requires Waiting(cfg, w, x, t) && from <= now && Sub(from, t) >= cfg.maxPoweredOff
    ensures v.name in Ahead(cfg, w, t)
  {
    assert Named(nodes, x);
    var z :| z in nodes && z.name == x;
    SameOverdue(cfg, w.nodes[x], z, now);
    assert Overduely(cfg, z, now);
    SameOverdue(cfg, w.nodes[v.name], v, now);
  }

  lemma OverdueFair(cfg: Config, h: History, m: Monitor, x: string, t: Time, from: Time, rank: nat, rotations: nat)
    requires h.Then? && h.event.Overdue? && h.state.world == h.seen
    requires Fair(cfg, h.seen, m, t, from, rank, rotations) && Waiting(cfg, h.seen, x, t)
    requires Allowed(cfg, m, h.past.state, h.seen, h.event) && Sub(from, t) >= cfg.maxPoweredOff
    ensures Fair(cfg, h.state.world, After(cfg, m, h.past.state.memory, h.seen, h.event), t, from, rank, rotations)
  {
    FoundAhead(cfg, h.seen, m.listing.value, x, h.event.node, t, from, h.event.now);
  }

  lemma NoteFair(cfg: Config, h: History, m: Monitor, t: Time, from: Time, rank: nat, rotations: nat)
    requires h.Then? && !h.event.Called? && !h.event.Overdue? && h.state.world == h.seen
    requires Fair(cfg, h.seen, m, t, from, rank, rotations) && from <= h.seen.clock
    requires Allowed(cfg, m, h.past.state, h.seen, h.event)
    ensures Fair(cfg, h.state.world, After(cfg, m, h.past.state.memory, h.seen, h.event), t, from, rank,
                 rotations + if h.event.Rotated? then 1 else 0)
  {
  }

  lemma WriteFair(cfg: Config, h: History, m: Monitor, t: Time, from: Time, rank: nat, rotations: nat)
    requires h.Then? && Write(h.event) && WellFormed(h.seen)
    requires Fair(cfg, h.seen, m, t, from, rank, rotations)
    requires StepTruthful(h.past.state.memory, h.seen, h.event, h.state)
    requires CallAllowed(cfg, m, h.past.state.world.clock, h.seen, h.event.call, h.event.reply)
    requires t < Instant(Seconds(from)) && from <= h.past.state.world.clock
    ensures Fair(cfg, h.state.world, AfterCall(m, h.event.call, h.event.reply), t, from, rank, rotations)
  {
    ClockStands(h.past.state.memory, h.seen, h.event, h.state);
    match h.event.call
    case UpdateNode(node) => UpdateFair(cfg, h, m, node, t, from, rank, rotations);
    case PatchNode(n, patch) =>
      PatchEdits(h, n, patch);
      AllowedPatchKnown(cfg, m, h.past.state.world.clock, h.seen, n, patch, h.event.reply);
      PatchFair(cfg, h, m, n, patch, t, from, rank, rotations);
    case _ =>
  }

  lemma StepFair(cfg: Config, h: History, m: Monitor, x: string, t: Time, from: Time, rank: nat, rotations: nat)
    requires h.Then? && WellFormed(h.seen) && Fair(cfg, h.seen, m, t, from, rank, rotations)
    requires StepTruthful(h.past.state.memory, h.seen, h.event, h.state)
    requires Allowed(cfg, m, h.past.state, h.seen, h.event)
    requires Waiting(cfg, h.seen, x, t) && Sub(from, t) >= cfg.maxPoweredOff
    requires t < Instant(Seconds(from)) && from <= h.past.state.world.clock <= h.seen.clock
    ensures Fair(cfg, h.state.world, After(cfg, m, h.past.state.memory, h.seen, h.event), t, from, rank,
                 rotations + if h.event.Rotated? then 1 else 0)
  {
    if Write(h.event) {
      WriteFair(cfg, h, m, t, from, rank, rotations);
    } else if h.event.Called? {
      ReadFair(cfg, h, m, t, from, rank, rotations);
    } else if h.event.Overdue? {
      OverdueFair(cfg, h, m, x, t, from, rank, rotations);
    } else {
      NoteFair(cfg, h, m, t, from, rank, rotations);
    }
  }

  lemma {:induction false} AlwaysFair(cfg: Config, h: History, h0: History, x: string, t: Time)
    requires Truthful(h) && Justified(cfg, h) && Waits(cfg, h, h0, x, t)
    requires h0.Then? && h0.event.Begin?
    requires var from := h0.state.world.clock; Sub(from, t) >= cfg.maxPoweredOff && t < Instant(Seconds(from))
    ensures Fair(cfg, h.state.world, Replay(cfg, h), t, h0.state.world.clock,
                 |Ahead(cfg, h0.state.world, t)|, Rotations(h, h0))
    ensures h0.state.world.clock <= h.state.world.clock
  {
    if h != h0 {
      AlwaysFair(cfg, h.past, h0, x, t);
      var m, from, rank := Replay(cfg, h.past), h0.state.world.clock, |Ahead(cfg, h0.state.world, t)|;
      UneditedFair(cfg, h.past.state.world, h.seen, m, t, from, rank, Rotations(h.past, h0));
      SameMarkSameSince(h.seen.nodes[x], h.past.state.world.nodes[x]);
      ClockStands(h.past.state.memory, h.seen, h.event, h.state);
      StepFair(cfg, h, m, x, t, from, rank, Rotations(h.past, h0));
    }
  }

  /** From the beginning of a loop in which x is overdue, and marked in an earlier second: as long as x
      is not powered on its rank does not grow, and every successful rotation lowers it. */
  lemma RankFalls(cfg: Config, h: History, h0: History, x: string, t: Time)
    requires Lawful(h) && Disciplined(cfg, h) && Waits(cfg, h, h0, x, t)
    requires h0.Then? && h0.event.Begin?
    requires var from := h0.state.world.clock; Sub(from, t) >= cfg.maxPoweredOff && t < Instant(Seconds(from))
    ensures |Ahead(cfg, h.state.world, t)| + Rotations(h, h0) <= |Ahead(cfg, h0.state.world, t)|
  {
    Open(cfg, h);
    AlwaysFair(cfg, h, h0, x, t);
  }

  /** So while x waits there are fewer rotations than its rank was: x is powered on within that many. */
  lemma RotationDoesNotStarve(cfg: Config, h: History, h0: History, x: string, t: Time)
    requires Truthful(h) && Justified(cfg, h) && Waits(cfg, h, h0, x, t)
    requires h0.Then? && h0.event.Begin?
    requires var from := h0.state.world.clock; Sub(from, t) >= cfg.maxPoweredOff && t < Instant(Seconds(from))
    ensures Rotations(h, h0) < |Ahead(cfg, h0.state.world, t)|
  {
    Open(cfg, h);
    RankFalls(cfg, h, h0, x, t);
    assert x in Ahead(cfg, h.state.world, t);
  }

  /** A limit of a second or more already says that an overdue node was marked in an earlier second. */
  lemma OverdueIsOld(cfg: Config, now: Time, second: int)
    requires cfg.maxPoweredOff >= SECOND && Sub(now, Instant(second)) >= cfg.maxPoweredOff
    ensures Instant(second) < Instant(Seconds(now))
  {
  }
}
