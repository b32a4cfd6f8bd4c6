/** Reading what the gates decide on - nodes, pods, metrics and loads - and deciding on it. */
module Gauges {
  import opened Prelude
  import opened Clock
  import opened Cluster
  import opened Settings
  import opened Journal
  import opened ApiServer
  import opened Scheduling
  import opened LoadGates
  import Resources
  import Statistics

  /** Nothing but readings were made. */
  ghost predicate Gauged(m: Monitor, k: Monitor) {
    && k == m.(readings := k.readings, listing := k.listing, work := k.work)
    && k.work == m.work.(roster := k.work.roster) && (m.work.roster.Some? ==> k.work.roster == m.work.roster)
  }

  /** The readings at hand. */
  function Figures(m: Monitor): Snapshot {
    Snapshot(if m.listing.Some? then m.listing.value else [], m.readings.loads)
  }

  /** Both have the same load for n, or none. */
  predicate SameLoad(a: map<string, real>, b: map<string, real>, n: string) {
    (n in a <==> n in b) && (n in a ==> a[n] == b[n])
  }

  /** Calls that read. */
  predicate Reads(call: Call) {
    call.ListNodes? || call.ListAllPods? || call.ListUsage? || call.FetchLoad?
  }

  lemma ReadPermitted(cfg: Config, h: History, ctx: Context, call: Call, reply: Reply)
    requires h.Then? && h.event == Called(ctx, call, reply) && Reads(call) && Disciplined(cfg, h.past)
    requires MayCall(Watch(cfg, h.past), ctx)
    requires StepTruthful(h.past.state.memory, h.seen, h.event, h.state)
    ensures Disciplined(cfg, h) && Watch(cfg, h) == AfterCall(Watch(cfg, h.past), call, reply)
    ensures Gauged(Watch(cfg, h.past), Watch(cfg, h))
    ensures Grown(h.past, h) && (reply.Refused? ==> Unanswered(h.past, h))
  {
    Permit(cfg, h);
    Refusal(cfg, h);
  }

  /** Asks a node for its load. */
  method FetchLoad(cfg: Config, api: Api, ctx: Context, n: string) returns (load: Option<real>)
    requires Orderly(cfg, api) && MayCall(Watch(cfg, api.history), ctx)
    modifies api`world, api`history
    ensures Orderly(cfg, api) && api.history.state.memory == old(api.history.state.memory)
    ensures api.world.clock >= old(api.world.clock)
    ensures Watch(cfg, api.history) == Answered(old(Watch(cfg, api.history)), n, load)
    ensures Grown(old(api.history), api.history) && (load.None? ==> Unanswered(old(api.history), api.history))
  {
    var reply := api.FetchLoad(ctx, n);
    ReadPermitted(cfg, api.history, ctx, Call.FetchLoad(n), reply);
    load := if reply.Refused? then None else Some(reply.load);
  }

  lemma {:induction false} LoadsFrame(names: seq<string>, a: map<string, real>, b: map<string, real>)
    requires forall n | n in names :: SameLoad(a, b, n)
    ensures LoadsOf(names, a) == LoadsOf(names, b)
  {
    if names != [] {
      LoadsFrame(names[..|names| - 1], a, b);
      assert names[|names| - 1] in names;
    }
  }

  /** The loads of these nodes were answered, and nothing else was read. */
  ghost predicate Fetched(m: Monitor, k: Monitor, names: seq<string>, results: Option<seq<real>>) {
    && k == m.(readings := m.readings.(loads := k.readings.loads))
    && (results.Some? ==> LoadsOf(names, k.readings.loads) == results)
    && (forall n | n !in names :: SameLoad(k.readings.loads, m.readings.loads, n))
  }

  /** One load more. */
  function Answered(m: Monitor, n: string, load: Option<real>): Monitor {
    m.(readings := m.readings.(loads := if load.Some? then m.readings.loads[n := load.value]
                                        else m.readings.loads - {n}))
  }

  lemma FetchedOneMore(m: Monitor, k: Monitor, names: seq<string>, i: nat, results: seq<real>, load: Option<real>)
    requires i < |names| && Distinct(names) && Fetched(m, k, names[..i], Some(results))
    ensures load.Some? ==> Fetched(m, Answered(k, names[i], load), names[..i + 1], Some(results + [load.value]))
    ensures load.None? ==> Fetched(m, Answered(k, names[i], load), names, None)
  {
    assert names[..i + 1] == names[..i] + [names[i]] && names[i] !in names[..i];
    assert forall n | n !in names :: n !in names[..i];
    if load.Some? {
      LoadsFrame(names[..i], k.readings.loads, Answered(k, names[i], load).readings.loads);
    }
  }

  /** The loads of the nodes, or nothing as soon as one of them does not answer. */
  method FetchClusterLoads(cfg: Config, api: Api, ctx: Context, names: seq<string>) returns (loads: Option<seq<real>>)
    requires Orderly(cfg, api) && MayCall(Watch(cfg, api.history), ctx) && Distinct(names)
    modifies api`world, api`history
    ensures Orderly(cfg, api) && api.history.state.memory == old(api.history.state.memory)
    ensures api.world.clock >= old(api.world.clock)
    ensures Fetched(old(Watch(cfg, api.history)), Watch(cfg, api.history), names, loads)
    ensures Grown(old(api.history), api.history) && (loads.None? ==> Unanswered(old(api.history), api.history))
  {
    var results: seq<real> := [];
    ghost var m := Watch(cfg, api.history);
    for i := 0 to |names|
      invariant Orderly(cfg, api) && api.history.state.memory == old(api.history.state.memory)
      invariant api.world.clock >= old(api.world.clock) && Grown(old(api.history), api.history)
      invariant MayCall(Watch(cfg, api.history), ctx)
      invariant Fetched(m, Watch(cfg, api.history), names[..i], Some(results))
    {
      ghost var k := Watch(cfg, api.history);
      var load := FetchLoad(cfg, api, ctx, names[i]);
      FetchedOneMore(m, k, names, i, results, load);
      if load.None? {
        return None;
      }
      results := results + [load.value];
    }
    assert names[..|names|] == names;
    loads := Some(results);
  }

  lemma {:induction false} CountedOnce(nodes: seq<Node>, ignore: map<string, string>, exclude: string)
    requires forall i, j | 0 <= i < j < |nodes| :: nodes[i].name != nodes[j].name
    ensures Distinct(CountedNames(nodes, ignore, exclude)) && exclude !in CountedNames(nodes, ignore, exclude)
    ensures forall n | n in CountedNames(nodes, ignore, exclude) :: exists x :: x in nodes && x.name == n
  {
    if nodes != [] {
      var init, last := nodes[..|nodes| - 1], nodes[|nodes| - 1];
      CountedOnce(init, ignore, exclude);
      assert nodes == init + [last];
      var before := CountedNames(init, ignore, exclude);
      forall n | n in before ensures n != last.name {
        var x :| x in init && x.name == n;
      }
      assert Distinct(before + [last.name]) by {
        assert forall i | 0 <= i < |before| :: before[i] in before;
      }
    }
  }

  /** The loads of the listed nodes that count. */
  method GetEligibleClusterLoads(cfg: Config, api: Api, ctx: Context, ignore: map<string, string>, exclude: string)
    returns (loads: Option<seq<real>>)
    requires Orderly(cfg, api) && MayCall(Watch(cfg, api.history), ctx)
    modifies api`world, api`history
    ensures Orderly(cfg, api) && api.history.state.memory == old(api.history.state.memory)
    ensures api.world.clock >= old(api.world.clock)
    ensures var m, k := old(Watch(cfg, api.history)), Watch(cfg, api.history);
            && Gauged(m, k) && SameLoad(k.readings.loads, m.readings.loads, exclude)
            && (loads.Some? ==>
                  && k.listing.Some?
                  && LoadsOf(CountedNames(k.listing.value, ignore, exclude), k.readings.loads) == loads)
    ensures Grown(old(api.history), api.history) && (loads.None? ==> Unanswered(old(api.history), api.history))
  {
    var reply := api.ListNodes(ctx);
    ReadPermitted(cfg, api.history, ctx, Call.ListNodes, reply);
    if reply.Refused? {
      return None;
    }
    var names := SelectCounted(reply.nodes, ignore, exclude);
    CountedOnce(reply.nodes, ignore, exclude);
    loads := FetchClusterLoads(cfg, api, ctx, names);
  }

  method SelectCounted(nodes: seq<Node>, ignore: map<string, string>, exclude: string) returns (names: seq<string>)
    ensures names == CountedNames(nodes, ignore, exclude)
  {
    names := [];
    for i := 0 to |nodes|
      invariant names == CountedNames(nodes[..i], ignore, exclude)
    {
      var n := nodes[i];
      assert nodes[..i + 1][..i] == nodes[..i];
      if POWERED_OFF in n.annotations {
        continue;
      }
      if n.name != exclude && !IgnoredByLabels(n, ignore) {
        names := names + [n.name];
      }
    }
    assert nodes[..|nodes|] == nodes;
  }

  /** The override, or the aggregate of the loads read; nothing if they cannot be read or nobody counts. */
  method GetClusterAggregateLoad(cfg: Config, api: Api, ctx: Context, ignore: map<string, string>, exclude: string,
                                 override: Option<real>, mode: EvalMode) returns (load: Option<real>)
    requires Orderly(cfg, api) && MayCall(Watch(cfg, api.history), ctx)
    modifies api`world, api`history
    ensures Orderly(cfg, api) && api.history.state.memory == old(api.history.state.memory)
    ensures api.world.clock >= old(api.world.clock)
    ensures var m, k := old(Watch(cfg, api.history)), Watch(cfg, api.history);
            && Gauged(m, k) && SameLoad(k.readings.loads, m.readings.loads, exclude)
            && (|| (load.None? && Unanswered(old(api.history), api.history))
                || (load == ClusterLoad(Figures(k), ignore, exclude, override, mode)
                    && (override.None? ==> k.listing.Some?)))
    ensures Grown(old(api.history), api.history)
  {
    if override.Some? {
      return override;
    }
    var loads := GetEligibleClusterLoads(cfg, api, ctx, ignore, exclude);
    if loads.None? || |loads.value| == 0 {
      return None;
    }
    var aggregate := Statistics.EvaluateAggregate(loads.value, mode);
    load := Some(aggregate);
  }

  // ----- The gates of scale-down

  /** A gate decides on figures read for it, or cannot read them. */
  ghost predicate Decided(cfg: Config, m: Monitor, before: History, h: History, n: string, e: Evidence,
                          verdict: Result<bool, ()>)
  {
    || (Unanswered(before, h) && verdict != Ok(true))
    || (EvidenceRead(cfg, m, e, n) && verdict == Ok(Approves(cfg, e, n)))
  }

  /** The load of the node itself: the override, or what the node answers. */
  method GetNormalizedLoadForNode(cfg: Config, api: Api, ctx: Context, n: string) returns (load: Option<real>)
    requires Orderly(cfg, api) && MayCall(Watch(cfg, api.history), ctx)
    modifies api`world, api`history
    ensures Orderly(cfg, api) && api.history.state.memory == old(api.history.state.memory)
    ensures api.world.clock >= old(api.world.clock)
    ensures var m, k := old(Watch(cfg, api.history)), Watch(cfg, api.history);
            && Gauged(m, k) && k.listing == m.listing
            && (load.Some? ==> NodeLoad(cfg, Figures(k), n) == load)
            && (load.None? ==> Unanswered(old(api.history), api.history))
    ensures Grown(old(api.history), api.history)
  {
    if cfg.nodeLoadOverride.Some? {
      return cfg.nodeLoadOverride;
    }
    load := FetchLoad(cfg, api, ctx, n);
  }

  lemma OwnLoadFrame(cfg: Config, a: Monitor, b: Monitor, n: string)
    requires SameLoad(a.readings.loads, b.readings.loads, n)
    ensures NodeLoad(cfg, Figures(a), n) == NodeLoad(cfg, Figures(b), n)
  {
  }

  /** The scale-down gate puts the exclusions together itself; the load it gets is the one rotation would
      get. */
  method LoadWithoutCandidate(cfg: Config, api: Api, ctx: Context, n: string) returns (load: Option<real>)
    requires Orderly(cfg, api) && MayCall(Watch(cfg, api.history), ctx)
    modifies api`world, api`history
    ensures Orderly(cfg, api) && api.history.state.memory == old(api.history.state.memory)
    ensures api.world.clock >= old(api.world.clock)
    ensures var m, k := old(Watch(cfg, api.history)), Watch(cfg, api.history);
            && Gauged(m, k) && SameLoad(k.readings.loads, m.readings.loads, n)
            && (|| (load.None? && Unanswered(old(api.history), api.history))
                || (load == LoadWithout(cfg, Figures(k), n)
                    && (cfg.clusterLoadDownOverride.None? ==> k.listing.Some?)))
    ensures Grown(old(api.history), api.history)
  {
    var exclude := map[];
    if cfg.disabledLabel != "" {
      exclude := exclude[cfg.disabledLabel := "true"];
    }
    exclude := exclude + cfg.excludeFromAggregate;
    assert exclude == AggregateExclusions(cfg);
    load := GetClusterAggregateLoad(cfg, api, ctx, exclude, n, cfg.clusterLoadDownOverride, cfg.evalMode);
  }

  /** The load gate: an idle node, without which the cluster is not too busy. */
  method ShouldScaleDown(cfg: Config, api: Api, ctx: Context, n: string) returns (verdict: Result<bool, ()>)
    requires Orderly(cfg, api) && MayCall(Watch(cfg, api.history), ctx)
    modifies api`world, api`history
    ensures Orderly(cfg, api) && api.history.state.memory == old(api.history.state.memory)
    ensures api.world.clock >= old(api.world.clock)
    ensures var m, k := old(Watch(cfg, api.history)), Watch(cfg, api.history);
            && Gauged(m, k)
            && (|| (Unanswered(old(api.history), api.history) && verdict != Ok(true))
                || (&& verdict == DownVerdict(cfg, Figures(k), n) && verdict.Ok?
                    && LoadsRead(k, Figures(k), NodesMatter(cfg, Figures(k), n))))
    ensures Grown(old(api.history), api.history)
  {
    var load := GetNormalizedLoadForNode(cfg, api, ctx, n);
    if load.None? {
      return Err(());
    }
    ghost var own := Watch(cfg, api.history);
    if load.value >= cfg.nodeThreshold {
      return Ok(false);
    }
    var aggregate := LoadWithoutCandidate(cfg, api, ctx, n);
    OwnLoadFrame(cfg, Watch(cfg, api.history), own, n);
    if aggregate.None? {
      return Ok(false);
    }
    if aggregate.value >= cfg.scaleDownThreshold {
      return Ok(false);
    }
    return Ok(true);
  }

  /** The resource gate: what runs must fit on the nodes that remain. */
  method ResourceGate(cfg: Config, api: Api, ctx: Context, n: string)
    returns (verdict: Result<bool, ()>, ghost e: Evidence)
    requires Orderly(cfg, api) && MayCall(Watch(cfg, api.history), ctx)
    modifies api`world, api`history
    ensures Orderly(cfg, api) && api.history.state.memory == old(api.history.state.memory)
    ensures api.world.clock >= old(api.world.clock)
    ensures Gauged(old(Watch(cfg, api.history)), Watch(cfg, api.history))
    ensures e.ResourceFigures? && Decided(cfg, Watch(cfg, api.history), old(api.history), api.history, n, e, verdict)
    ensures Grown(old(api.history), api.history)
  {
    e := ResourceFigures([], [], map[]);
    var figures := ReadResources(cfg, api, ctx);
    if figures.None? {
      return Err(()), e;
    }
    var (nodes, pods, usage) := figures.value;
    e := ResourceFigures(nodes, pods, usage);
    var ok := Resources.ShouldScaleDown(
      Resources.Snapshot(CapacitiesOf(nodes), RequestsOf(pods), usage), BuffersOf(cfg), n);
    verdict := Ok(ok);
  }

  /** All nodes, all pods, and the metrics. */
  method ReadResources(cfg: Config, api: Api, ctx: Context)
    returns (figures: Option<(seq<Node>, seq<Pod>, map<string, Resources.Amount>)>)
    requires Orderly(cfg, api) && MayCall(Watch(cfg, api.history), ctx)
    modifies api`world, api`history
    ensures Orderly(cfg, api) && api.history.state.memory == old(api.history.state.memory)
    ensures api.world.clock >= old(api.world.clock)
    ensures var m, k := old(Watch(cfg, api.history)), Watch(cfg, api.history);
            && Gauged(m, k)
            && (match figures
                case None => Unanswered(old(api.history), api.history)
                case Some(f) =>
                  && k.listing == Some(f.0) && k.readings.census == Some(f.1) && k.readings.usage == Some(f.2))
    ensures Grown(old(api.history), api.history)
  {
    var nodes := api.ListNodes(ctx);
    ReadPermitted(cfg, api.history, ctx, Call.ListNodes, nodes);
    if nodes.Refused? {
      return None;
    }
    var pods := api.ListAllPods(ctx);
    ReadPermitted(cfg, api.history, ctx, Call.ListAllPods, pods);
    if pods.Refused? {
      return None;
    }
    var usage := api.ListUsage(ctx);
    ReadPermitted(cfg, api.history, ctx, Call.ListUsage, usage);
    if usage.Refused? {
      return None;
    }
    figures := Some((nodes.nodes, pods.pods, usage.usage));
  }

  // ----- The search of rotation

  datatype Weight = Unread | Busy | Tight | Fit

  /** Reads the loads for one candidate: its own, and the cluster's without it. */
  method Survey(cfg: Config, api: Api, ctx: Context, n: string) returns (weight: Weight)
    requires Orderly(cfg, api) && MayCall(Watch(cfg, api.history), ctx)
    modifies api`world, api`history
    ensures Orderly(cfg, api) && api.history.state.memory == old(api.history.state.memory)
    ensures api.world.clock >= old(api.world.clock)
    ensures var m, k := old(Watch(cfg, api.history)), Watch(cfg, api.history);
            && Gauged(m, k)
            && ((weight.Unread? && Unanswered(old(api.history), api.history)) || Weighs(cfg, k, n, weight))
    ensures Grown(old(api.history), api.history)
  {
    var load := GetNormalizedLoadForNode(cfg, api, ctx, n);
    if load.None? {
      return Unread;
    }
    ghost var own := Watch(cfg, api.history);
    if load.value >= cfg.nodeThreshold {
      return Busy;
    }
    var rules := BuildAggregateExclusions(cfg);
    var aggregate := GetClusterAggregateLoad(cfg, api, ctx, rules, n, cfg.clusterLoadDownOverride, cfg.evalMode);
    OwnLoadFrame(cfg, Watch(cfg, api.history), own, n);
    if aggregate.None? {
      return Unread;
    }
    return if aggregate.value >= cfg.scaleDownThreshold then Tight else Fit;
  }

  /** The readings at hand give n this weight. */
  ghost predicate Weighs(cfg: Config, m: Monitor, n: string, w: Weight) {
    && LoadsRead(m, Figures(m), NodesMatter(cfg, Figures(m), n))
    && (w.Fit? <==> DownVerdict(cfg, Figures(m), n) == Ok(true))
    && (w.Tight? <==> EndsSearch(cfg, Figures(m), n))
  }

  /** Looks at one candidate. */
  method Weigh(cfg: Config, api: Api, ctx: Context, n: string) returns (weight: Weight)
    requires Orderly(cfg, api) && MayCall(Watch(cfg, api.history), ctx)
    modifies api`world, api`history
    ensures Orderly(cfg, api) && api.history.state.memory == old(api.history.state.memory)
    ensures api.world.clock >= old(api.world.clock)
    ensures var m, k := old(Watch(cfg, api.history)), Watch(cfg, api.history);
            && Searched(m, k)
            && (|| (weight.Unread? && k.plan == m.plan && Faults(api.history) > old(Faults(api.history)))
                || Weighing(cfg, k.plan.weighed, m.plan.weighed, n, weight))
    ensures Grown(old(api.history), api.history)
  {
    weight := Survey(cfg, api, ctx, n);
    ghost var weighs := Weighs(cfg, Watch(cfg, api.history), n, weight);
    if weighs {
      NoteWeighed(cfg, api, n);
    }
  }

  /** Nothing but the readings and what they say of candidates has changed. */
  ghost predicate Searched(m: Monitor, k: Monitor) {
    && k == m.(readings := k.readings, listing := k.listing, work := k.work, plan := m.plan.(weighed := k.plan.weighed))
    && k.work == m.work.(roster := k.work.roster) && (m.work.roster.Some? ==> k.work.roster == m.work.roster)
  }

  /** n was weighed, with this result. */
  ghost predicate Weighing(cfg: Config, now: map<string, Snapshot>, before: map<string, Snapshot>, n: string,
                           w: Weight)
  {
    && n in now && now == before[n := now[n]]
    && (w.Fit? <==> DownVerdict(cfg, now[n], n) == Ok(true))
    && (w.Tight? <==> EndsSearch(cfg, now[n], n))
  }

  ghost method NoteWeighed(cfg: Config, api: Api, n: string)
    requires Orderly(cfg, api)
    requires var m := Watch(cfg, api.history); LoadsRead(m, Figures(m), NodesMatter(cfg, Figures(m), n))
    modifies api`history
    ensures Orderly(cfg, api) && api.history.state.memory == old(api.history.state.memory)
    ensures var m := old(Watch(cfg, api.history));
            Watch(cfg, api.history) == m.(plan := m.plan.(weighed := m.plan.weighed[n := Figures(m)]))
    ensures Grown(old(api.history), api.history) && Faults(api.history) == old(Faults(api.history))
  {
    api.Note(Weighed(n, Figures(Watch(cfg, api.history))));
    Permit(cfg, api.history);
    Refusal(cfg, api.history);
  }

  /** What the search has seen of the first i candidates. */
  ghost predicate SearchedUpTo(cfg: Config, weighed: map<string, Snapshot>, eligible: seq<string>, i: nat, all: bool)
    requires i <= |eligible|
  {
    && (forall j | 0 <= j < i :: Passed(cfg, weighed, eligible[j]))
    && (all ==> forall j | 0 <= j < i :: eligible[j] in weighed)
    && (forall n | n in weighed :: n in eligible[..i])
  }

  /** The search ended without a result, having looked at every candidate or met one that ends it. */
  ghost predicate SearchFailed(cfg: Config, weighed: map<string, Snapshot>, eligible: seq<string>, all: bool) {
    exists i: nat :: i <= |eligible| && FailedAt(cfg, weighed, eligible, i, all)
  }

  ghost predicate FailedAt(cfg: Config, weighed: map<string, Snapshot>, eligible: seq<string>, i: nat, all: bool)
    requires i <= |eligible|
  {
    && (forall j | 0 <= j < i :: Passed(cfg, weighed, eligible[j]) && (all ==> eligible[j] in weighed))
    && (i < |eligible| ==> eligible[i] in weighed && EndsSearch(cfg, weighed[eligible[i]], eligible[i]))
  }

  lemma SearchedStill(m: Monitor, k: Monitor, l: Monitor)
    requires Searched(m, k) && Searched(k, l)
    ensures Searched(m, l)
  {
  }

  /** The next candidate. */
  method WeighNext(cfg: Config, api: Api, ctx: Context, eligible: seq<string>, i: nat, ghost from: nat,
                   ghost m: Monitor)
    returns (weight: Weight)
    requires Orderly(cfg, api) && MayCall(Watch(cfg, api.history), ctx) && Searched(m, Watch(cfg, api.history))
    requires i < |eligible| && Distinct(eligible) && from <= Faults(api.history)
    requires SearchedUpTo(cfg, Watch(cfg, api.history).plan.weighed, eligible, i, Faults(api.history) == from)
    modifies api`world, api`history
    ensures Orderly(cfg, api) && api.history.state.memory == old(api.history.state.memory)
    ensures api.world.clock >= old(api.world.clock)
    ensures Searched(m, Watch(cfg, api.history)) && MayCall(Watch(cfg, api.history), ctx)
    ensures SearchStep(cfg, Watch(cfg, api.history).plan.weighed, eligible, i, weight, Faults(api.history) == from)
    ensures Grown(old(api.history), api.history)
  {
    ghost var k := Watch(cfg, api.history);
    weight := Weigh(cfg, api, ctx, eligible[i]);
    SearchedStill(m, k, Watch(cfg, api.history));
    SearchOn(cfg, k.plan.weighed, Watch(cfg, api.history).plan.weighed, eligible, i, weight,
             Faults(api.history) == from);
  }

  ghost predicate SearchStep(cfg: Config, weighed: map<string, Snapshot>, eligible: seq<string>, i: nat, w: Weight,
                             all: bool)
    requires i < |eligible|
  {
    match w
    case Fit => FirstSafe(cfg, weighed, eligible, i)
    case Tight => FailedAt(cfg, weighed, eligible, i, all)
    case _ => SearchedUpTo(cfg, weighed, eligible, i + 1, all)
  }

  /** What was seen before still holds. */
  lemma SearchKept(cfg: Config, before: map<string, Snapshot>, now: map<string, Snapshot>, eligible: seq<string>,
                   i: nat, all: bool)
    requires i < |eligible| && Distinct(eligible) && SearchedUpTo(cfg, before, eligible, i, all)
    requires now == before || (eligible[i] in now && now == before[eligible[i] := now[eligible[i]]])
    ensures forall j | 0 <= j < i :: Passed(cfg, now, eligible[j]) && (all ==> eligible[j] in now)
    ensures forall n | n in now :: n in eligible[..i + 1]
  {
    assert eligible[..i + 1] == eligible[..i] + [eligible[i]];
    forall j | 0 <= j < i
      ensures eligible[j] != eligible[i] && Passed(cfg, now, eligible[j]) && (all ==> eligible[j] in now) {
      assert Passed(cfg, before, eligible[j]);
    }
  }

  lemma SearchOn(cfg: Config, before: map<string, Snapshot>, now: map<string, Snapshot>, eligible: seq<string>,
                 i: nat, weight: Weight, all: bool)
    requires i < |eligible| && Distinct(eligible) && SearchedUpTo(cfg, before, eligible, i, all)
    requires Weighing(cfg, now, before, eligible[i], weight) || (weight.Unread? && now == before && !all)
    ensures SearchStep(cfg, now, eligible, i, weight, all)
  {
    SearchKept(cfg, before, now, eligible, i, all);
    if eligible[i] !in before && now == before {
      assert Passed(cfg, now, eligible[i]);
    } else if now == before {
      AlreadySeen(eligible, i, before);
    }
  }

  lemma AlreadySeen(eligible: seq<string>, i: nat, before: map<string, Snapshot>)
    requires i < |eligible| && Distinct(eligible) && forall n | n in before :: n in eligible[..i]
    ensures eligible[i] !in before
  {
  }

  /** Picks a node that could be retired, the first that passes the scale-down gate on the loads read for
      it. If every call of the search was answered, none is passed over without a look. */
  method PickRotationPoweroffCandidate(cfg: Config, api: Api, ctx: Context, eligible: seq<string>)
    returns (pick: Option<string>)
    requires Orderly(cfg, api) && MayCall(Watch(cfg, api.history), ctx) && Distinct(eligible)
    requires Watch(cfg, api.history).plan.weighed == map[]
    modifies api`world, api`history
    ensures Orderly(cfg, api) && api.history.state.memory == old(api.history.state.memory)
    ensures api.world.clock >= old(api.world.clock)
    ensures Searched(old(Watch(cfg, api.history)), Watch(cfg, api.history))
    ensures !cfg.loadAverage ==> pick == if eligible == [] then None else Some(eligible[0])
    ensures cfg.loadAverage ==>
              SearchEnded(cfg, Watch(cfg, api.history).plan.weighed, eligible, pick,
                          Faults(api.history) == old(Faults(api.history)))
    ensures Grown(old(api.history), api.history)
  {
    if !cfg.loadAverage {
      return if |eligible| == 0 then None else Some(eligible[0]);
    }
    pick := SearchCandidate(cfg, api, ctx, eligible);
  }

  /** The first candidate that passes, or none. */
  ghost predicate SearchEnded(cfg: Config, weighed: map<string, Snapshot>, eligible: seq<string>, pick: Option<string>,
                              all: bool)
  {
    match pick
    case None => SearchFailed(cfg, weighed, eligible, all)
    case Some(n) => exists i: nat :: FirstSafe(cfg, weighed, eligible, i) && n == eligible[i]
  }

  lemma SearchEnds(cfg: Config, weighed: map<string, Snapshot>, eligible: seq<string>, i: nat, w: Weight, all: bool)
    requires i < |eligible| && SearchStep(cfg, weighed, eligible, i, w, all)
    ensures w.Fit? ==> SearchEnded(cfg, weighed, eligible, Some(eligible[i]), all)
    ensures w.Tight? ==> SearchEnded(cfg, weighed, eligible, None, all)
  {
  }

  lemma SearchOver(cfg: Config, weighed: map<string, Snapshot>, eligible: seq<string>, all: bool)
    requires SearchedUpTo(cfg, weighed, eligible, |eligible|, all)
    ensures SearchEnded(cfg, weighed, eligible, None, all)
  {
    assert FailedAt(cfg, weighed, eligible, |eligible|, all);
  }

  method SearchCandidate(cfg: Config, api: Api, ctx: Context, eligible: seq<string>) returns (pick: Option<string>)
    requires Orderly(cfg, api) && MayCall(Watch(cfg, api.history), ctx) && Distinct(eligible)
    requires Watch(cfg, api.history).plan.weighed == map[]
    modifies api`world, api`history
    ensures Orderly(cfg, api) && api.history.state.memory == old(api.history.state.memory)
    ensures api.world.clock >= old(api.world.clock)
    ensures Searched(old(Watch(cfg, api.history)), Watch(cfg, api.history))
    ensures SearchEnded(cfg, Watch(cfg, api.history).plan.weighed, eligible, pick,
                        Faults(api.history) == old(Faults(api.history)))
    ensures Grown(old(api.history), api.history)
  {
    ghost var m, from := Watch(cfg, api.history), Faults(api.history);
    for i := 0 to |eligible|
      invariant Orderly(cfg, api) && api.history.state.memory == old(api.history.state.memory)
      invariant api.world.clock >= old(api.world.clock) && Grown(old(api.history), api.history)
      invariant Searched(m, Watch(cfg, api.history)) && MayCall(Watch(cfg, api.history), ctx)
      invariant SearchedUpTo(cfg, Watch(cfg, api.history).plan.weighed, eligible, i, Faults(api.history) == from)
    {
      var weight := WeighNext(cfg, api, ctx, eligible, i, from, m);
      SearchEnds(cfg, Watch(cfg, api.history).plan.weighed, eligible, i, weight, Faults(api.history) == from);
      if weight.Fit? {
        return Some(eligible[i]);
      }
      if weight.Tight? {
        return None;
      }
    }
    SearchOver(cfg, Watch(cfg, api.history).plan.weighed, eligible, Faults(api.history) == from);
    return None;
  }
}
