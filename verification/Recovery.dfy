/** Taking nodes back into service that are up although they are marked powered off. */
module Recovery {
  import opened Prelude
  import opened Clock
  import opened Cluster
  import opened Settings
  import opened Journal
  import opened ApiServer
  import opened Scheduling
  import opened NodeLists
  import opened Power

  datatype Outcome = Skipped | Recovered | GaveUp

  /** What dealing with n leaves of what is known about the loop. */
  ghost predicate Dealt(m: Monitor, k: Monitor, n: string) {
    && k.loop == m.loop.(recovered := k.loop.recovered)
    && m.loop.recovered <= k.loop.recovered <= m.loop.recovered + {n}
    && k.work.roster == m.work.roster && k.work.operations == m.work.operations && k.work.owed == m.work.owed
    && k.stage == Idle && SamePlan(m, k)
  }

  /** The node is one of the first listing, managed, and nothing was decided yet. */
  ghost predicate OnRoster(cfg: Config, m: Monitor, node: Node) {
    && m.stage == Idle && m.loop.known.None? && m.work.roster.Some?
    && node in m.work.roster.value && Managed(cfg, node)
  }

  /** Uncordons the node, and only when that is stored replaces its off mark by a boot time in one patch. */
  method RecoverNode(cfg: Config, api: Api, ctx: Context, n: string) returns (ok: bool)
    requires Orderly(cfg, api) && !cfg.dryRun && Watch(cfg, api.history).stage == Idle
    requires MayCall(Watch(cfg, api.history), ctx)
    requires InNeed(cfg, Watch(cfg, api.history), n, api.world.clock)
    modifies api`world, api`history
    ensures Orderly(cfg, api) && api.history.state.memory == old(api.history.state.memory)
    ensures api.world.clock >= old(api.world.clock)
    ensures Dealt(old(Watch(cfg, api.history)), Watch(cfg, api.history), n)
    ensures ok && Undisturbed(api.history, n) ==>
              FreshlyBooted(FaceIn(api.world, n), old(api.world.clock), api.world.clock)
    ensures if ok then n in Watch(cfg, api.history).loop.recovered && n in Watch(cfg, api.history).work.released
            else DeniedOn(old(api.history), api.history, n)
    ensures OthersKept(old(api.history), api.history, n) && Grown(old(api.history), api.history)
  {
    ghost var m, start, before := Watch(cfg, api.history), api.world.clock, api.history;
    ok := SetScheduling(cfg, api, ctx, n, false, false);
    if ok {
      StillInNeed(cfg, m, n, start, api.world.clock);
      ghost var stamp, released := 0, api.history;
      ok, stamp := ApplyRecoveryPatch(cfg, api, ctx, n);
      if ok {
        BackAfterRecovery(before, released, api.history, n, stamp);
      }
    }
  }

  /** First the scheduling flag, then the annotations: the node is back. */
  lemma BackAfterRecovery(before: History, released: History, h: History, n: string, now: Time)
    requires FlagOnly(before, released, n) && n in released.state.world.nodes
    requires !released.state.world.nodes[n].unschedulable
    requires FacePatched(released, h, n, RecoveryPatch(now), true)
    requires before.state.world.clock <= now <= h.state.world.clock
    ensures Undisturbed(h, n) ==>
              FreshlyBooted(FaceIn(h.state.world, n), before.state.world.clock, h.state.world.clock)
  {
  }

  lemma RecoveryIsDealt(m: Monitor, n: string, t: Time, reply: Reply)
    requires m.stage == Idle
    ensures var k := Annotated(m, n, RecoveryPatch(t), reply);
            Dealt(m, k, n) && n in k.loop.recovered && k.work.released == m.work.released
  {
  }

  method ApplyRecoveryPatch(cfg: Config, api: Api, ctx: Context, n: string) returns (ok: bool, ghost now: Time)
    requires Orderly(cfg, api) && !cfg.dryRun
    requires var m := Watch(cfg, api.history);
             m.stage == Idle && MayCall(m, ctx) && InNeed(cfg, m, n, api.world.clock) && n in m.work.released
    modifies api`world, api`history
    ensures Orderly(cfg, api) && api.history.state.memory == old(api.history.state.memory)
    ensures old(api.world.clock) <= now <= api.world.clock
    ensures Dealt(old(Watch(cfg, api.history)), Watch(cfg, api.history), n)
    ensures Watch(cfg, api.history).work.released == old(Watch(cfg, api.history)).work.released
    ensures if ok then
              && FacePatched(old(api.history), api.history, n, RecoveryPatch(now), true) && n in api.world.nodes
              && n in Watch(cfg, api.history).loop.recovered
            else DeniedOn(old(api.history), api.history, n)
    ensures OthersKept(old(api.history), api.history, n) && Grown(old(api.history), api.history)
  {
    ghost var m, start := Watch(cfg, api.history), api.world.clock;
    var time := ReadClock(cfg, api);
    now := time;
    StillInNeed(cfg, m, n, start, time);
    var reply := ApplyPatch(cfg, api, ctx, n, RecoveryPatch(time));
    RecoveryIsDealt(m, n, time, reply);
    ok := reply.Done?;
  }

  /** Deals with one listed node. */
  method ConsiderNode(cfg: Config, api: Api, ctx: Context, node: Node) returns (outcome: Outcome)
    requires Orderly(cfg, api) && OnRoster(cfg, Watch(cfg, api.history), node)
    requires MayCall(Watch(cfg, api.history), ctx)
    modifies api`world, api`history
    ensures Orderly(cfg, api) && api.history.state.memory == old(api.history.state.memory)
    ensures api.world.clock >= old(api.world.clock)
    ensures Dealt(old(Watch(cfg, api.history)), Watch(cfg, api.history), node.name)
    ensures outcome == Recovered ==> node.name in Watch(cfg, api.history).loop.recovered
    ensures outcome == Skipped ==> FacesKept(old(api.history), api.history)
    ensures OthersKept(old(api.history), api.history, node.name) && Grown(old(api.history), api.history)
    ensures outcome == Recovered && Undisturbed(api.history, node.name) ==>
              FreshlyBooted(FaceIn(api.world, node.name), old(api.world.clock), api.world.clock)
    ensures outcome == Skipped ==> cfg.dryRun || !NeedsRecovery(cfg, node, old(api.world.clock))
    ensures outcome != Skipped ==> !cfg.dryRun && NeedsRecovery(cfg, node, api.world.clock)
    ensures outcome == GaveUp ==> DeniedOn(old(api.history), api.history, node.name)
  {
    if !node.ready || POWERED_OFF !in node.annotations || IgnoredByLabels(node, cfg.ignoreLabels)
       || !node.unschedulable {
      return Skipped;
    }
    var since := PoweredOffSince(node);
    if since.Some? {
      var now := ReadClock(cfg, api);
      if Sub(now, since.value) < GRACE {
        return Skipped;
      }
    }
    if cfg.dryRun {
      return Skipped;
    }
    var ok := RecoverNode(cfg, api, ctx, node.name);
    outcome := if ok then Recovered else GaveUp;
  }

  /** What a pass over the listed nodes achieves. */
  ghost predicate PassDone(cfg: Config, nodes: seq<Node>, recovered: set<string>, gaveUp: set<string>,
                           from: Time, to: Time)
  {
    && (forall x | x in nodes && NeedsRecovery(cfg, x, from) :: cfg.dryRun || x.name in recovered + gaveUp)
    && (forall x | x in nodes && x.name in recovered + gaveUp :: !cfg.dryRun && NeedsRecovery(cfg, x, to))
  }

  /** The recovered nodes are back in service. */
  ghost predicate AllBack(h: History, recovered: set<string>, from: Time) {
    forall n | n in recovered && Undisturbed(h, n) ::
      FreshlyBooted(FaceIn(h.state.world, n), from, h.state.world.clock)
  }

  /** Unless the outside world interfered, the faces of all nodes but these are what they were. */
  ghost predicate KeptExcept(before: History, h: History, names: set<string>) {
    forall x :: x !in names && Undisturbed(h, x) ==>
      Undisturbed(before, x) && FaceIn(h.state.world, x) == FaceIn(before.state.world, x)
  }

  lemma StillBack(before: History, h: History, recovered: set<string>, from: Time, n: string)
    requires AllBack(before, recovered, from) && OthersKept(before, h, n)
    requires before.state.world.clock <= h.state.world.clock && n !in recovered
    ensures AllBack(h, recovered, from)
  {
  }

  lemma StillKept(h0: History, before: History, h: History, names: set<string>, n: string, touched: bool)
    requires KeptExcept(h0, before, names) && OthersKept(before, h, n) && (!touched ==> FacesKept(before, h))
    ensures KeptExcept(h0, h, if touched then names + {n} else names)
  {
  }

  /** What a pass, begun at h0, has achieved for the first i nodes. */
  ghost predicate PassState(cfg: Config, h0: History, h: History, nodes: seq<Node>, i: nat,
                            recovered: set<string>, gaveUp: set<string>)
    requires i <= |nodes|
  {
    var from := h0.state.world.clock;
    && from <= h.state.world.clock
    && (forall n | n in recovered + gaveUp :: exists j :: 0 <= j < i && nodes[j].name == n)
    && PassDone(cfg, nodes[..i], recovered, gaveUp, from, h.state.world.clock)
    && PassKept(cfg, h0, h, recovered, gaveUp)
  }

  /** The effects of a pass so far. */
  ghost predicate PassKept(cfg: Config, h0: History, h: History, recovered: set<string>, gaveUp: set<string>) {
    && AllBack(h, recovered, h0.state.world.clock)
    && recovered <= Watch(cfg, h).loop.recovered && gaveUp <= Refusals(h)
    && KeptExcept(h0, h, recovered + gaveUp)
  }

  lemma PassContinues(cfg: Config, nodes: seq<Node>, i: nat, recovered: set<string>, gaveUp: set<string>,
                      from: Time, before: Time, to: Time, outcome: Outcome)
    requires i < |nodes| && DistinctNames(nodes) && from <= before <= to
    requires forall n | n in recovered + gaveUp :: exists j :: 0 <= j < i && nodes[j].name == n
    requires PassDone(cfg, nodes[..i], recovered, gaveUp, from, before)
    requires outcome == Skipped ==> cfg.dryRun || !NeedsRecovery(cfg, nodes[i], before)
    requires outcome != Skipped ==> !cfg.dryRun && NeedsRecovery(cfg, nodes[i], to)
    ensures nodes[i].name !in recovered + gaveUp
    ensures PassDone(cfg, nodes[..i + 1],
                     if outcome == Recovered then recovered + {nodes[i].name} else recovered,
                     if outcome == GaveUp then gaveUp + {nodes[i].name} else gaveUp, from, to)
    ensures forall n | n in recovered + gaveUp + {nodes[i].name} :: exists j :: 0 <= j < i + 1 && nodes[j].name == n
  {
    forall x | x in nodes[..i + 1] ensures x in nodes[..i] || x == nodes[i] {
    }
    forall n | n in recovered + gaveUp + {nodes[i].name} ensures exists j :: 0 <= j < i + 1 && nodes[j].name == n {
      if n == nodes[i].name {
        assert nodes[i].name == n;
      }
    }
  }

  /** A pass goes on in the same loop, which has decided nothing yet. */
  ghost predicate InPass(m: Monitor, k: Monitor, listing: seq<Node>) {
    && k.loop == m.loop.(recovered := k.loop.recovered)
    && k.work.operations == m.work.operations && k.work.owed == m.work.owed
    && k.stage == Idle && k.work.roster == Some(listing) && k.loop.known.None? && SamePlan(m, k)
  }

  /** The next node of a pass. */
  method PassStep(cfg: Config, api: Api, ctx: Context, nodes: seq<Node>, i: nat,
                  ghost recovered0: set<string>, ghost gaveUp0: set<string>, ghost h0: History,
                  ghost m: Monitor, ghost listing: seq<Node>)
    returns (ghost recovered: set<string>, ghost gaveUp: set<string>)
    requires Orderly(cfg, api) && InPass(m, Watch(cfg, api.history), listing) && MayCall(m, ctx) && m.stage == Idle
    requires i < |nodes| && Lists(nodes, ManagedOf(cfg, listing))
    requires PassState(cfg, h0, api.history, nodes, i, recovered0, gaveUp0)
    modifies api`world, api`history
    ensures Orderly(cfg, api) && api.history.state.memory == old(api.history.state.memory)
    ensures InPass(m, Watch(cfg, api.history), listing)
    ensures PassState(cfg, h0, api.history, nodes, i + 1, recovered, gaveUp)
  {
    ghost var before := api.history;
    assert nodes[i] in Elements(nodes);
    var outcome := ConsiderNode(cfg, api, ctx, nodes[i]);
    recovered, gaveUp := recovered0, gaveUp0;
    match outcome {
      case Skipped =>
      case Recovered => recovered := recovered + {nodes[i].name};
      case GaveUp => gaveUp := gaveUp + {nodes[i].name};
    }
    PassContinues(cfg, nodes, i, recovered0, gaveUp0, h0.state.world.clock, before.state.world.clock,
                  api.world.clock, outcome);
    PassKeeps(cfg, h0, before, api.history, nodes[i].name, recovered0, gaveUp0, outcome);
  }

  /** What dealing with n leaves, by its outcome. */
  ghost predicate Outcomes(cfg: Config, before: History, h: History, n: string, outcome: Outcome) {
    && before.state.world.clock <= h.state.world.clock
    && OthersKept(before, h, n) && Grown(before, h)
    && Watch(cfg, before).loop.recovered <= Watch(cfg, h).loop.recovered
    && (outcome == Skipped ==> FacesKept(before, h))
    && (outcome == Recovered ==>
          && n in Watch(cfg, h).loop.recovered
          && (Undisturbed(h, n) ==>
                FreshlyBooted(FaceIn(h.state.world, n), before.state.world.clock, h.state.world.clock)))
    && (outcome == GaveUp ==> DeniedOn(before, h, n))
  }

  lemma PassKeeps(cfg: Config, h0: History, before: History, h: History, n: string,
                  recovered: set<string>, gaveUp: set<string>, outcome: Outcome)
    requires PassKept(cfg, h0, before, recovered, gaveUp) && h0.state.world.clock <= before.state.world.clock
    requires Outcomes(cfg, before, h, n, outcome) && n !in recovered + gaveUp
    ensures PassKept(cfg, h0, h, if outcome == Recovered then recovered + {n} else recovered,
                     if outcome == GaveUp then gaveUp + {n} else gaveUp)
  {
    StillBack(before, h, recovered, h0.state.world.clock, n);
    StillKept(h0, before, h, recovered + gaveUp, n, outcome != Skipped);
    assert recovered + gaveUp + {n} == recovered + {n} + gaveUp == recovered + (gaveUp + {n});
  }

  /** What a pass that began at h0 has achieved at h. The listing is the first one of the loop. Every managed
      node that it shows in need is recovered or was given up because a call on it was refused; a recovered
      one is back in service with a boot time from this pass; and no other node was touched. */
  ghost predicate PassResult(cfg: Config, h0: History, h: History, listing: seq<Node>,
                             recovered: set<string>, gaveUp: set<string>)
  {
    var from, to := h0.state.world.clock, h.state.world.clock;
    && Watch(cfg, h).work.roster == Some(listing)
    && (forall x | x in listing && Managed(cfg, x) && NeedsRecovery(cfg, x, from) ::
          cfg.dryRun || x.name in recovered + gaveUp)
    && (forall n | n in recovered + gaveUp ::
          !cfg.dryRun && exists x :: x in listing && x.name == n && Managed(cfg, x) && NeedsRecovery(cfg, x, to))
    && PassKept(cfg, h0, h, recovered, gaveUp)
  }

  lemma PassOver(cfg: Config, h0: History, h: History, nodes: seq<Node>, listing: seq<Node>,
                 recovered: set<string>, gaveUp: set<string>)
    requires Lists(nodes, ManagedOf(cfg, listing)) && Watch(cfg, h).work.roster == Some(listing)
    requires PassState(cfg, h0, h, nodes, |nodes|, recovered, gaveUp)
    ensures PassResult(cfg, h0, h, listing, recovered, gaveUp)
  {
    assert nodes[..|nodes|] == nodes;
    assert forall x :: x in nodes <==> x in Elements(nodes);
    forall n | n in recovered + gaveUp
      ensures exists x :: x in listing && x.name == n && Managed(cfg, x) && NeedsRecovery(cfg, x, h.state.world.clock) {
      var j :| 0 <= j < |nodes| && nodes[j].name == n;
      assert nodes[j] in nodes;
    }
  }

  /** The second half of crash safety: a node listed up, cordoned, and marked off two minutes before the pass
      began, on which no call was refused, is back in service at its end. */
  lemma MarkedNodeComesBack(cfg: Config, h0: History, h: History, listing: seq<Node>,
                            recovered: set<string>, gaveUp: set<string>, x: Node, second: int)
    requires PassResult(cfg, h0, h, listing, recovered, gaveUp) && !cfg.dryRun
    requires x in listing && Managed(cfg, x) && x.ready
    requires FaceOf(x).unschedulable && FaceOf(x).mark == Some(Stamp(second))
    requires Sub(h0.state.world.clock, second * 1_000_000_000) >= 120_000_000_000
    requires (x.name !in Refusals(h) || Faults(h) == 0) && Undisturbed(h, x.name)
    ensures FreshlyBooted(FaceIn(h.state.world, x.name), h0.state.world.clock, h.state.world.clock)
  {
    ManagedIsNeverIgnored(cfg, x);
    NoFaultsNoNames(cfg, h);
    assert POWERED_OFF in x.annotations && x.annotations[POWERED_OFF] == Stamp(second);
    assert NeedsRecovery(cfg, x, h0.state.world.clock);
  }

  /** One pass over the managed nodes, as listed at its start; a node that cannot be recovered does
      not stop it. */
  method RecoverUnexpectedlyBootedNodes(cfg: Config, api: Api, ctx: Context)
    returns (ok: bool, ghost recovered: set<string>, ghost gaveUp: set<string>)
    requires Orderly(cfg, api) && MayCall(Watch(cfg, api.history), ctx)
    requires var m := Watch(cfg, api.history); m.stage == Idle && m.work.roster.None? && m.loop.known.None?
    modifies api`world, api`history
    ensures Orderly(cfg, api) && api.history.state.memory == old(api.history.state.memory)
    ensures api.world.clock >= old(api.world.clock)
    ensures var m, k := old(Watch(cfg, api.history)), Watch(cfg, api.history);
            && k.loop == m.loop.(recovered := k.loop.recovered)
            && k.work.operations == m.work.operations && k.work.owed == m.work.owed && k.stage == Idle && SamePlan(m, k)
    ensures if ok then
              && Watch(cfg, api.history).work.roster.Some?
              && PassResult(cfg, old(api.history), api.history, Watch(cfg, api.history).work.roster.value,
                            recovered, gaveUp)
            else Unanswered(old(api.history), api.history)
  {
    recovered, gaveUp := {}, {};
    ghost var m, h0 := Watch(cfg, api.history), api.history;
    var listed := ListManagedNodes(cfg, api, ctx);
    if listed.None? {
      return false, {}, {};
    }
    ghost var listing := Watch(cfg, api.history).listing.value;
    var nodes := listed.value;
    for i := 0 to |nodes|
      invariant Orderly(cfg, api) && api.history.state.memory == old(api.history.state.memory)
      invariant InPass(m, Watch(cfg, api.history), listing)
      invariant PassState(cfg, h0, api.history, nodes, i, recovered, gaveUp)
    {
      recovered, gaveUp := PassStep(cfg, api, ctx, nodes, i, recovered, gaveUp, h0, m, listing);
    }
    PassOver(cfg, h0, api.history, nodes, listing, recovered, gaveUp);
    ok := true;
  }
}
