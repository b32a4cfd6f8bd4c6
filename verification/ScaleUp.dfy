/** The scale-up strategies. */
module ScaleUp {
  import opened Prelude
  import opened Clock
  import opened Cluster
  import opened Settings
  import opened Journal
  import opened ApiServer
  import opened Scheduling
  import opened Tracker
  import opened NodeLists
  import opened Gauges
  import LoadGates

  lemma {:induction false} ItemsAre(nodes: seq<Node>, m: Memory, i: Item)
    ensures i in Items(nodes, m)
            <==> exists x :: x in nodes && OffSince(x, m).Some? && i == Item(x.name, OffSince(x, m).value)
  {
    if nodes != [] {
      var last := |nodes| - 1;
      ItemsAre(nodes[..last], m, i);
      assert nodes == nodes[..last] + [nodes[last]];
    }
  }

  /** The head of the list of powered-off nodes has been off the longest. */
  lemma HeadIsLongestOff(cfg: Config, names: seq<string>, nodes: seq<Node>, listing: seq<Node>, m: Memory)
    requires names != [] && OldestFirst(names, nodes, m) && Lists(nodes, ManagedOf(cfg, listing))
    ensures LongestOff(cfg, listing, m, names[0])
  {
    var items :| multiset(items) == multiset(Items(nodes, m)) && AscendingSince(items) && NamesOf(names, items);
    assert items[0] in multiset(items);
    ItemsAre(nodes, m, items[0]);
    var x :| x in nodes && OffSince(x, m).Some? && items[0] == Item(x.name, OffSince(x, m).value);
    assert x in Elements(nodes);
    forall y | y in listing && Managed(cfg, y) && OffSince(y, m).Some?
      ensures OffSince(x, m).value <= OffSince(y, m).value
    {
      assert y in Elements(nodes);
      var j := Item(y.name, OffSince(y, m).value);
      ItemsAre(nodes, m, j);
      assert j in multiset(items);
    }
  }

  lemma EmptyMeansNone(cfg: Config, names: seq<string>, nodes: seq<Node>, listing: seq<Node>, m: Memory)
    requires names == [] && OldestFirst(names, nodes, m) && Lists(nodes, ManagedOf(cfg, listing))
    ensures forall x | x in listing && Managed(cfg, x) :: OffSince(x, m).None?
  {
    var items :| multiset(items) == multiset(Items(nodes, m)) && AscendingSince(items) && NamesOf(names, items);
    forall x | x in listing && Managed(cfg, x) ensures OffSince(x, m).None? {
      assert x in Elements(nodes);
      if OffSince(x, m).Some? {
        ItemsAre(nodes, m, Item(x.name, OffSince(x, m).value));
      }
    }
  }

  /** Nothing but readings were made for the decision. */
  ghost predicate Looked(m: Monitor, k: Monitor) {
    && k == m.(readings := k.readings, listing := k.listing, work := k.work, plan := k.plan)
    && k.work == m.work.(roster := k.work.roster) && (m.work.roster.Some? ==> k.work.roster == m.work.roster)
    && k.plan == m.plan.(active := k.plan.active, head := k.plan.head, nobody := k.plan.nobody,
                         measured := k.plan.measured)
    && (m.plan.nobody ==> k.plan.nobody)
  }

  /** The state in which scale-up is decided on. */
  ghost predicate Deliberating(cfg: Config, api: Api, tracker: NodeStateTracker, ctx: Context)
    reads api, tracker
  {
    Steady(cfg, api, tracker) && Watch(cfg, api.history).plan.current && MayCall(Watch(cfg, api.history), ctx)
  }

  ghost method NoteHead(cfg: Config, api: Api, head: Head)
    requires Orderly(cfg, api)
    requires var m := Watch(cfg, api.history);
             m.plan.current && m.listing.Some? && HeadIs(cfg, m.listing.value, api.history.state.memory, head)
    modifies api`history
    ensures Orderly(cfg, api) && api.history.state.memory == old(api.history.state.memory)
    ensures var m := old(Watch(cfg, api.history));
            Watch(cfg, api.history) == m.(plan := m.plan.(head := head, nobody := m.plan.nobody || head.Nobody?))
    ensures Grown(old(api.history), api.history)
  {
    api.Note(Headed(head));
    Permit(cfg, api.history);
    Refusal(cfg, api.history);
  }

  ghost method NoteActive(cfg: Config, api: Api, active: nat)
    requires Orderly(cfg, api)
    requires var m := Watch(cfg, api.history);
             m.plan.current && m.listing.Some?
             && active == |ActiveOf(cfg, m.listing.value, api.history.state.memory)|
    modifies api`history
    ensures Orderly(cfg, api) && api.history.state.memory == old(api.history.state.memory)
    ensures var m := old(Watch(cfg, api.history));
            Watch(cfg, api.history) == m.(plan := m.plan.(active := Some(active)))
    ensures Grown(old(api.history), api.history)
  {
    api.Note(Event.Counted(active));
    Permit(cfg, api.history);
    Refusal(cfg, api.history);
  }

  ghost method NoteMeasured(cfg: Config, api: Api)
    requires Orderly(cfg, api)
    requires var m := Watch(cfg, api.history);
             m.plan.current && LoadsRead(m, Figures(m), cfg.clusterLoadUpOverride.None?)
    modifies api`history
    ensures Orderly(cfg, api) && api.history.state.memory == old(api.history.state.memory)
    ensures var m := old(Watch(cfg, api.history));
            Watch(cfg, api.history) == m.(plan := m.plan.(measured := Some(Figures(m))))
    ensures Grown(old(api.history), api.history)
  {
    api.Note(Measured(Figures(Watch(cfg, api.history))));
    Permit(cfg, api.history);
    Refusal(cfg, api.history);
  }

  /** Names of powered-off nodes, the longest off first; none if they cannot be listed. */
  method ShutdownNodeNames(cfg: Config, api: Api, tracker: NodeStateTracker, ctx: Context) returns (names: seq<string>)
    requires Deliberating(cfg, api, tracker, ctx)
    modifies api`world, api`history
    ensures Deliberating(cfg, api, tracker, ctx) && api.world.clock >= old(api.world.clock)
    ensures var m, k := old(Watch(cfg, api.history)), Watch(cfg, api.history);
            && Looked(m, k) && k.plan == m.plan.(head := k.plan.head, nobody := k.plan.nobody)
            && (names != [] ==> k.plan.head == Longest(names[0]))
            && (names == [] ==> (k.plan.head == Nobody && k.plan.nobody) || Unanswered(old(api.history), api.history))
    ensures Grown(old(api.history), api.history)
  {
    var listed := ListManagedNodes(cfg, api, ctx);
    if listed.None? {
      return [];
    }
    names := NamesOldestFirst(tracker, listed.value);
    HeadOf(cfg, names, listed.value, Watch(cfg, api.history).listing.value, tracker.View());
    NoteHead(cfg, api, if names == [] then Nobody else Longest(names[0]));
  }

  lemma HeadOf(cfg: Config, names: seq<string>, nodes: seq<Node>, listing: seq<Node>, m: Memory)
    requires OldestFirst(names, nodes, m) && Lists(nodes, ManagedOf(cfg, listing))
    ensures HeadIs(cfg, listing, m, if names == [] then Nobody else Longest(names[0]))
  {
    if names == [] {
      EmptyMeansNone(cfg, names, nodes, listing, m);
    } else {
      HeadIsLongestOff(cfg, names, nodes, listing, m);
    }
  }

  /** The active nodes, counted. */
  method ListActiveNodes(cfg: Config, api: Api, tracker: NodeStateTracker, ctx: Context) returns (count: Option<nat>)
    requires Deliberating(cfg, api, tracker, ctx)
    modifies api`world, api`history
    ensures Deliberating(cfg, api, tracker, ctx) && api.world.clock >= old(api.world.clock)
    ensures var m, k := old(Watch(cfg, api.history)), Watch(cfg, api.history);
            && Looked(m, k) && k.plan == m.plan.(active := k.plan.active)
            && (match count
                case None => Unanswered(old(api.history), api.history)
                case Some(a) => k.plan.active == count)
    ensures Grown(old(api.history), api.history)
  {
    var listed := ListManagedNodes(cfg, api, ctx);
    if listed.None? {
      return None;
    }
    var nodes := ListActive(cfg, tracker, listed.value, Watch(cfg, api.history).listing.value);
    DistinctNodes(nodes);
    NoteActive(cfg, api, |nodes|);
    count := Some(|nodes|);
  }

  lemma DistinctNodes(nodes: seq<Node>)
    requires DistinctNames(nodes)
    ensures |Elements(nodes)| == |nodes|
  {
    DistinctLength(nodes);
  }

  /** Too few active nodes ask for the longest powered-off node. */
  method MinNodeCountScaleUp(cfg: Config, api: Api, tracker: NodeStateTracker, ctx: Context)
    returns (choice: Result<Option<string>, ()>)
    requires Deliberating(cfg, api, tracker, ctx)
    modifies api`world, api`history
    ensures Deliberating(cfg, api, tracker, ctx) && api.world.clock >= old(api.world.clock)
    ensures Looked(old(Watch(cfg, api.history)), Watch(cfg, api.history))
    ensures var p := Watch(cfg, api.history).plan;
            && p.measured == old(Watch(cfg, api.history)).plan.measured
            && (match choice
                case Err(_) => Unanswered(old(api.history), api.history)
                case Ok(None) => EnoughActive(cfg, p) || NoneToTake(p, old(api.history), api.history)
                case Ok(Some(n)) => TooFewActive(cfg, p) && p.head == Longest(n))
    ensures Grown(old(api.history), api.history)
  {
    var active := ListActiveNodes(cfg, api, tracker, ctx);
    if active.None? {
      return Err(());
    }
    if active.value >= cfg.minNodes {
      return Ok(None);
    }
    var names := ShutdownNodeNames(cfg, api, tracker, ctx);
    choice := Ok(if |names| == 0 then None else Some(names[0]));
  }

  ghost predicate EnoughActive(cfg: Config, p: Plan) {
    p.active.Some? && p.active.value >= cfg.minNodes
  }

  ghost predicate TooFewActive(cfg: Config, p: Plan) {
    p.active.Some? && p.active.value < cfg.minNodes
  }

  /** No node is off, or the nodes could not be listed. */
  ghost predicate NoneToTake(p: Plan, before: History, h: History) {
    (p.head == Nobody && p.nobody) || Faults(before) < Faults(h)
  }

  ghost predicate MeasuredLow(cfg: Config, p: Plan) {
    p.measured.Some? && LoadGates.LoadLow(cfg, p.measured.value)
  }

  ghost predicate MeasuredHigh(cfg: Config, p: Plan) {
    p.measured.Some? && !LoadGates.LoadLow(cfg, p.measured.value)
  }

  /** The cluster-wide load, unless it cannot be read or nobody counts. */
  method MeasureLoad(cfg: Config, api: Api, tracker: NodeStateTracker, ctx: Context) returns (load: Option<real>)
    requires Deliberating(cfg, api, tracker, ctx)
    modifies api`world, api`history
    ensures Deliberating(cfg, api, tracker, ctx) && api.world.clock >= old(api.world.clock)
    ensures var m, k := old(Watch(cfg, api.history)), Watch(cfg, api.history);
            && Looked(m, k) && k.plan == m.plan.(measured := k.plan.measured)
            && (match load
                case None => MeasuredLow(cfg, k.plan) || Unanswered(old(api.history), api.history)
                case Some(x) =>
                  if x < cfg.scaleUpThreshold then MeasuredLow(cfg, k.plan) else MeasuredHigh(cfg, k.plan))
    ensures Grown(old(api.history), api.history)
  {
    var rules := LoadGates.BuildAggregateExclusions(cfg);
    ghost var known := true;
    if cfg.clusterLoadUpOverride.Some? {
      load := cfg.clusterLoadUpOverride;
    } else {
      load := GetClusterAggregateLoad(cfg, api, ctx, rules, "", None, cfg.evalMode);
      ghost var k := Watch(cfg, api.history);
      known := load == LoadGates.ClusterLoad(Figures(k), rules, "", None, cfg.evalMode) && k.listing.Some?;
    }
    if known {
      NoteMeasured(cfg, api);
    }
  }

  /** A busy cluster asks for the longest powered-off node. */
  method LoadAverageScaleUp(cfg: Config, api: Api, tracker: NodeStateTracker, ctx: Context)
    returns (choice: Option<string>)
    requires Deliberating(cfg, api, tracker, ctx)
    modifies api`world, api`history
    ensures Deliberating(cfg, api, tracker, ctx) && api.world.clock >= old(api.world.clock)
    ensures Looked(old(Watch(cfg, api.history)), Watch(cfg, api.history))
    ensures var p := Watch(cfg, api.history).plan;
            && p.active == old(Watch(cfg, api.history)).plan.active
            && (match choice
                case None => MeasuredLow(cfg, p) || NoneToTake(p, old(api.history), api.history)
                case Some(n) => MeasuredHigh(cfg, p) && p.head == Longest(n))
    ensures Grown(old(api.history), api.history)
  {
    var names := ShutdownNodeNames(cfg, api, tracker, ctx);
    if |names| == 0 {
      return None;
    }
    var load := MeasureLoad(cfg, api, tracker, ctx);
    if load.None? || load.value < cfg.scaleUpThreshold {
      return None;
    }
    choice := Some(names[0]);
  }

  /** What it means that no node is asked for: the strategies that were asked, up to the first error,
      have no reason to, or nothing to ask for. */
  ghost predicate Declined(cfg: Config, p: Plan, before: History, h: History) {
    || Faults(before) < Faults(h)
    || p.head == Nobody
    || ((EnoughActive(cfg, p) || p.nobody) && (cfg.loadAverage ==> MeasuredLow(cfg, p)))
  }

  /** The first strategy that wants to scale up decides; an error ends the search. */
  method ShouldScaleUp(cfg: Config, api: Api, tracker: NodeStateTracker, ctx: Context)
    returns (choice: Option<string>)
    requires Deliberating(cfg, api, tracker, ctx)
    modifies api`world, api`history
    ensures Deliberating(cfg, api, tracker, ctx) && api.world.clock >= old(api.world.clock)
    ensures Looked(old(Watch(cfg, api.history)), Watch(cfg, api.history))
    ensures var p := Watch(cfg, api.history).plan;
            match choice
            case None => Declined(cfg, p, old(api.history), api.history)
            case Some(n) => MoreNeeded(cfg, p) && p.head == Longest(n)
    ensures Grown(old(api.history), api.history)
  {
    var first := MinNodeCountScaleUp(cfg, api, tracker, ctx);
    if first.Err? {
      return None;
    }
    if first.value.Some? || !cfg.loadAverage {
      return first.value;
    }
    choice := LoadAverageScaleUp(cfg, api, tracker, ctx);
  }
}
