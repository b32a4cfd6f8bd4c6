/** What the load-average gates of scale-down, scale-up and rotation make of the loads they read. A
    snapshot holds the nodes listed and the loads that were answered. */
module LoadGates {
  import opened Prelude
  import opened Cluster
  import opened Settings
  import Statistics

  datatype Snapshot = Snapshot(nodes: seq<Node>, loads: map<string, real>)

  /** Label rules left out of cluster-wide load: disabled nodes and the configured ones, which win. */
  function AggregateExclusions(cfg: Config): map<string, string> {
    (if cfg.disabledLabel != "" then map[cfg.disabledLabel := "true"] else map[]) + cfg.excludeFromAggregate
  }

  predicate Counted(node: Node, ignore: map<string, string>, exclude: string) {
    POWERED_OFF !in node.annotations && node.name != exclude && !IgnoredByLabels(node, ignore)
  }

  function CountedNames(nodes: seq<Node>, ignore: map<string, string>, exclude: string): seq<string> {
    if nodes == [] then []
    else
      var last := nodes[|nodes| - 1];
      CountedNames(nodes[..|nodes| - 1], ignore, exclude)
      + (if Counted(last, ignore, exclude) then [last.name] else [])
  }

  /** The loads of all the names, or nothing if one of them is missing. */
  function LoadsOf(names: seq<string>, loads: map<string, real>): Option<seq<real>> {
    if names == [] then Some([])
    else
      var last := names[|names| - 1];
      match LoadsOf(names[..|names| - 1], loads)
      case None => None
      case Some(before) => if last in loads then Some(before + [loads[last]]) else None
  }

  function ClusterLoad(s: Snapshot, ignore: map<string, string>, exclude: string,
                       override: Option<real>, mode: EvalMode): Option<real> {
    match override
    case Some(x) => Some(x)
    case None =>
      match LoadsOf(CountedNames(s.nodes, ignore, exclude), s.loads)
      case None => None
      case Some(loads) => if loads == [] then None else Some(Statistics.Aggregate(loads, mode))
  }

  /** The load of one node: the override if there is one, else what the node answers. */
  function NodeLoad(cfg: Config, s: Snapshot, n: string): Option<real> {
    match cfg.nodeLoadOverride
    case Some(x) => Some(x)
    case None => if n in s.loads then Some(s.loads[n]) else None
  }

  /** The cluster-wide load without a candidate for removal. */
  function LoadWithout(cfg: Config, s: Snapshot, n: string): Option<real> {
    ClusterLoad(s, AggregateExclusions(cfg), n, cfg.clusterLoadDownOverride, cfg.evalMode)
  }

  /** The scale-down gate. An error means that the node's own load could not be read. */
  function DownVerdict(cfg: Config, s: Snapshot, n: string): Result<bool, ()> {
    match NodeLoad(cfg, s, n)
    case None => Err(())
    case Some(load) =>
      if load >= cfg.nodeThreshold then Ok(false)
      else match LoadWithout(cfg, s, n)
        case None => Ok(false)
        case Some(aggregate) => Ok(aggregate < cfg.scaleDownThreshold)
  }

  /** The exclusions as rotation and scale-up put them together. */
  method BuildAggregateExclusions(cfg: Config) returns (rules: map<string, string>)
    ensures forall k :: k in rules <==> k in cfg.excludeFromAggregate || (k == cfg.disabledLabel && k != "")
    ensures forall k | k in cfg.excludeFromAggregate :: rules[k] == cfg.excludeFromAggregate[k]
    ensures forall k | k in rules && k !in cfg.excludeFromAggregate :: rules[k] == "true"
    ensures rules == AggregateExclusions(cfg)
  {
    rules := map[];
    if cfg.disabledLabel != "" {
      rules := rules[cfg.disabledLabel := "true"];
    }
    rules := rules + cfg.excludeFromAggregate;
  }

  /** The load strategy does not ask for more nodes. */
  predicate LoadLow(cfg: Config, s: Snapshot) {
    var load := ClusterLoad(s, AggregateExclusions(cfg), "", cfg.clusterLoadUpOverride, cfg.evalMode);
    load.None? || load.value < cfg.scaleUpThreshold
  }

  // ----- Rotation

  predicate LowLoad(cfg: Config, s: Snapshot, n: string) {
    var load := NodeLoad(cfg, s, n);
    load.Some? && load.value < cfg.nodeThreshold
  }

  /** An idle candidate without which the cluster would still be too busy: the search ends there. */
  predicate EndsSearch(cfg: Config, s: Snapshot, n: string) {
    var aggregate := LoadWithout(cfg, s, n);
    LowLoad(cfg, s, n) && aggregate.Some? && aggregate.value >= cfg.scaleDownThreshold
  }

  /** The candidate the rotation search settles on, with the loads read for each candidate; one whose
      loads cannot be read is passed over. */
  ghost predicate FirstSafe(cfg: Config, weighed: map<string, Snapshot>, eligible: seq<string>, i: nat) {
    && i < |eligible| && eligible[i] in weighed
    && DownVerdict(cfg, weighed[eligible[i]], eligible[i]) == Ok(true)
    && (forall j | 0 <= j < i :: Passed(cfg, weighed, eligible[j]))
  }

  /** The search goes on past this candidate. */
  predicate Passed(cfg: Config, weighed: map<string, Snapshot>, n: string) {
    n in weighed ==> DownVerdict(cfg, weighed[n], n) != Ok(true) && !EndsSearch(cfg, weighed[n], n)
  }

  /** The early end of the search loses candidates: here the second one passes the gate alone. */
  lemma EarlyEndMissesACandidate(cfg: Config, a: Node, b: Node)
    requires cfg.loadAverage && cfg.nodeLoadOverride.None? && cfg.clusterLoadDownOverride.None?
    requires cfg.nodeThreshold == 1.0 && cfg.scaleDownThreshold == 0.5 && cfg.evalMode == Average
    requires a.name == "a" && Counted(a, AggregateExclusions(cfg), "")
    requires b.name == "b" && Counted(b, AggregateExclusions(cfg), "")
    ensures var s := Snapshot([a, b], map["a" := 0.25, "b" := 0.75]);
            && DownVerdict(cfg, s, "b") == Ok(true)
            && forall i: nat :: !FirstSafe(cfg, map["a" := s, "b" := s], ["a", "b"], i)
  {
    var s := Snapshot([a, b], map["a" := 0.25, "b" := 0.75]);
    PairWithoutOne(cfg, a, b, s.loads, "b", "a");
    PairWithoutOne(cfg, a, b, s.loads, "a", "b");
    assert EndsSearch(cfg, s, "a");
    var weighed := map["a" := s, "b" := s];
    forall i: nat ensures !FirstSafe(cfg, weighed, ["a", "b"], i) {
      assert ["a", "b"][0] == "a" && !Passed(cfg, weighed, "a");
    }
  }

  lemma PairWithoutOne(cfg: Config, a: Node, b: Node, loads: map<string, real>, without: string, left: string)
    requires cfg.clusterLoadDownOverride.None? && cfg.evalMode == Average
    requires Counted(a, AggregateExclusions(cfg), "") && Counted(b, AggregateExclusions(cfg), "")
    requires (a.name == left && b.name == without) || (a.name == without && b.name == left)
    requires left != without && left in loads
    ensures LoadWithout(cfg, Snapshot([a, b], loads), without) == Some(loads[left])
  {
    var ignore := AggregateExclusions(cfg);
    assert [a, b][..1] == [a];
    assert CountedNames([a], ignore, without) == if a.name == left then [left] else [] by {
      assert [a][..0] == [];
    }
    assert CountedNames([a, b], ignore, without) == [left];
    SingleLoad(left, loads);
  }

  lemma SingleLoad(n: string, loads: map<string, real>)
    requires n in loads
    ensures LoadsOf([n], loads) == Some([loads[n]])
    ensures Statistics.Aggregate([loads[n]], Average) == loads[n]
  {
    var names, values := [n], [loads[n]];
    assert names[..|names| - 1] == [];
    assert LoadsOf(names[..|names| - 1], loads) == Some([]);
    assert [] + [loads[n]] == values;
    assert values[..|values| - 1] == [];
    assert Statistics.Sum(values) == 0.0 + loads[n];
  }

  // ----- What approval says about nodes

  /** The loads that count for the cluster without n: those of the listed nodes that are not marked off and
      not excluded. */
  function LoadsWithout(cfg: Config, s: Snapshot, n: string): Option<seq<real>> {
    LoadsOf(CountedNames(s.nodes, AggregateExclusions(cfg), n), s.loads)
  }

  /** Without overrides the gate approves under the mean exactly if the node's own load is below its threshold,
      at least one load counts, and all that count together are below the cluster's threshold times their
      number. */
  lemma ApprovalUnderAverage(cfg: Config, s: Snapshot, n: string)
    requires cfg.evalMode == Average && cfg.nodeLoadOverride.None? && cfg.clusterLoadDownOverride.None?
    ensures var loads := LoadsWithout(cfg, s, n);
            DownVerdict(cfg, s, n) == Ok(true) <==>
              && n in s.loads && s.loads[n] < cfg.nodeThreshold && loads.Some? && loads.value != []
              && Statistics.Sum(loads.value) < cfg.scaleDownThreshold * |loads.value| as real
  {
    var loads := LoadsWithout(cfg, s, n);
    if loads.Some? && loads.value != [] {
      Statistics.AverageBelow(loads.value, cfg.scaleDownThreshold);
    }
  }

  /** And scale-up holds the cluster to be busy exactly if at least one load counts and all that count together
      reach the threshold times their number. */
  lemma BusyUnderAverage(cfg: Config, s: Snapshot)
    requires cfg.evalMode == Average && cfg.clusterLoadUpOverride.None?
    ensures var loads := LoadsWithout(cfg, s, "");
            !LoadLow(cfg, s) <==>
              && loads.Some? && loads.value != []
              && Statistics.Sum(loads.value) >= cfg.scaleUpThreshold * |loads.value| as real
  {
    var loads := LoadsWithout(cfg, s, "");
    if loads.Some? && loads.value != [] {
      Statistics.AverageBelow(loads.value, cfg.scaleUpThreshold);
    }
  }

  /** The fractional rank of the percentile of a mode, among n loads. */
  function QuantileRank(mode: EvalMode, n: nat): real
    requires n > 0 && mode != Average
  {
    match mode
    case Median => 0.5 * (n - 1) as real
    case P75 => 0.75 * (n - 1) as real
    case P90 => 0.9 * (n - 1) as real
  }

  function RankOf(mode: EvalMode, n: nat): int
    requires n > 0 && mode != Average
  {
    QuantileRank(mode, n).Floor
  }

  lemma RankInside(mode: EvalMode, n: nat)
    requires mode != Average && n > 1
    ensures 0 <= RankOf(mode, n) < n - 1
  {
  }

  /** Under a percentile the aggregate is interpolated between the loads at the two ranks next to its own. */
  lemma AggregateInterpolates(mode: EvalMode, loads: seq<real>) returns (a: real, b: real)
    requires mode != Average && |loads| > 1
    ensures 0 <= RankOf(mode, |loads|) < |loads| - 1
    ensures Statistics.IsAtRank(loads, a, RankOf(mode, |loads|))
    ensures Statistics.IsAtRank(loads, b, RankOf(mode, |loads|) + 1)
    ensures Statistics.Aggregate(loads, mode)
            == Statistics.Blend(a, b, QuantileRank(mode, |loads|) - RankOf(mode, |loads|) as real)
  {
    RankInside(mode, |loads|);
    var position, rank := QuantileRank(mode, |loads|), RankOf(mode, |loads|);
    match mode
    case Median => a, b := Statistics.PercentileInterpolates(loads, 0.5, position, rank);
    case P75 => a, b := Statistics.PercentileInterpolates(loads, 0.75, position, rank);
    case P90 => a, b := Statistics.PercentileInterpolates(loads, 0.9, position, rank);
  }

  /** An approval under a percentile is a statement about how many other nodes are idle: without overrides the
      gate approves only if the node is idle and more loads than the rank of the percentile are below the
      threshold, and it does approve an idle node as soon as one load more is, or all are. */
  lemma ApprovalCountsIdleNodes(cfg: Config, s: Snapshot, n: string)
    requires cfg.evalMode != Average && cfg.nodeLoadOverride.None? && cfg.clusterLoadDownOverride.None?
    ensures var loads := LoadsWithout(cfg, s, n);
            && (DownVerdict(cfg, s, n) == Ok(true) ==>
                  && n in s.loads && s.loads[n] < cfg.nodeThreshold && loads.Some? && loads.value != []
                  && Statistics.CountBelow(loads.value, cfg.scaleDownThreshold)
                     > RankOf(cfg.evalMode, |loads.value|))
            && (n in s.loads && s.loads[n] < cfg.nodeThreshold && loads.Some? && loads.value != []
                && Statistics.CountBelow(loads.value, cfg.scaleDownThreshold)
                   >= Min(RankOf(cfg.evalMode, |loads.value|) + 2, |loads.value|) ==>
                  DownVerdict(cfg, s, n) == Ok(true))
  {
    var loads := LoadsWithout(cfg, s, n);
    if loads.Some? && loads.value != [] {
      PercentileBelow(cfg.evalMode, loads.value, cfg.scaleDownThreshold);
    }
  }

  lemma PercentileBelow(mode: EvalMode, loads: seq<real>, t: real)
    requires mode != Average && loads != []
    ensures Statistics.Aggregate(loads, mode) < t ==> Statistics.CountBelow(loads, t) > RankOf(mode, |loads|)
    ensures Statistics.CountBelow(loads, t) >= Min(RankOf(mode, |loads|) + 2, |loads|) ==>
              Statistics.Aggregate(loads, mode) < t
  {
    match mode
    case Median => Statistics.PercentileCounts(loads, 0.5, t);
    case P75 => Statistics.PercentileCounts(loads, 0.75, t);
    case P90 => Statistics.PercentileCounts(loads, 0.9, t);
  }

  /** And scale-up seen from above: under a percentile a busy cluster has a load at or above the threshold, and
      as many as the percentile leaves above its rank. */
  lemma BusyCountsLoads(cfg: Config, s: Snapshot)
    requires cfg.evalMode != Average && cfg.clusterLoadUpOverride.None?
    ensures var loads := LoadsWithout(cfg, s, "");
            && (!LoadLow(cfg, s) ==>
                  && loads.Some? && loads.value != []
                  && Statistics.CountBelow(loads.value, cfg.scaleUpThreshold)
                     < Min(RankOf(cfg.evalMode, |loads.value|) + 2, |loads.value|))
            && (loads.Some? && loads.value != []
                && Statistics.CountBelow(loads.value, cfg.scaleUpThreshold) <= RankOf(cfg.evalMode, |loads.value|) ==>
                  !LoadLow(cfg, s))
  {
    var loads := LoadsWithout(cfg, s, "");
    if loads.Some? && loads.value != [] {
      PercentileBelow(cfg.evalMode, loads.value, cfg.scaleUpThreshold);
    }
  }
}
