/** The rules about single nodes and about the loads that count, put together from labels, annotations and
    settings directly. The theorems on why a host is shut down or powered on speak of these; the lemmas show
    that they are the rules the loop applies. */
module PlainTerms {
  import opened Prelude
  import opened Clock
  import opened Cluster
  import opened Settings
  import opened Journal
  import opened Findings
  import LoadGates
  import NodeLists
  import Statistics

  predicate HasLabel(x: Node, key: string, value: string) {
    key in x.labels && x.labels[key] == value
  }

  predicate IsManaged(cfg: Config, x: Node) {
    && HasLabel(x, cfg.managedLabel, "true") && !HasLabel(x, cfg.disabledLabel, "true")
    && forall k | k in cfg.ignoreLabels :: k !in x.labels
  }

  predicate HasMark(x: Node) {
    "cba.dev/was-powered-off" in x.annotations
  }

  /** When the node was marked off; the beginning of time, if that cannot be told. */
  function MarkTime(x: Node): Option<Time> {
    if !HasMark(x) then None
    else match x.annotations["cba.dev/was-powered-off"]
      case Stamp(s) => Some(s * 1_000_000_000)
      case Text(t) => if t == "" then None else Some(0)
  }

  /** Since when the node is off, by its mark or else by memory, which does not tell since when. */
  function OffTime(x: Node, off: set<string>): Option<Time> {
    if MarkTime(x).Some? then MarkTime(x) else if x.name in off then Some(0) else None
  }

  /** Managed, up, open for work, and neither marked nor remembered as off. */
  predicate Serving(cfg: Config, x: Node, off: set<string>) {
    IsManaged(cfg, x) && x.ready && !x.unschedulable && !HasMark(x) && x.name !in off
  }

  /** Managed, open for work, not marked or remembered as off, and outside all its cooldowns. */
  predicate Available(cfg: Config, x: Node, m: Memory, now: Time) {
    && IsManaged(cfg, x) && !x.unschedulable && !HasMark(x) && x.name !in m.off
    && (x.name in m.shutdownAt ==> Sub(now, m.shutdownAt[x.name]) >= cfg.cooldown)
    && (x.name in m.bootedAt ==> Sub(now, m.bootedAt[x.name]) >= cfg.bootCooldown)
    && ("cba.dev/booted-at" in x.annotations && x.annotations["cba.dev/booted-at"].Stamp? ==>
          Sub(now, x.annotations["cba.dev/booted-at"].seconds * 1_000_000_000) >= cfg.bootCooldown)
  }

  /** Managed, not excused, and marked off for too long. */
  predicate Due(cfg: Config, x: Node, now: Time) {
    && IsManaged(cfg, x)
    && (cfg.exemptLabel == "" || cfg.exemptLabel !in x.labels || x.labels[cfg.exemptLabel] == "")
    && MarkTime(x).Some? && Sub(now, MarkTime(x).value) >= cfg.maxPoweredOff
  }

  lemma ManagedPlainly(cfg: Config, x: Node)
    ensures Managed(cfg, x) <==> IsManaged(cfg, x)
  {
  }

  lemma MarkPlainly(x: Node, m: Memory)
    ensures PoweredOffSince(x) == MarkTime(x) && OffSince(x, m) == OffTime(x, m.off)
  {
  }

  lemma ActivePlainly(cfg: Config, x: Node, m: Memory)
    ensures Managed(cfg, x) && IsActive(cfg, x, m) <==> Serving(cfg, x, m.off)
  {
  }

  lemma EligiblePlainly(cfg: Config, x: Node, m: Memory, now: Time)
    ensures Managed(cfg, x) && ShutdownEligible(cfg, x, m, now) <==> Available(cfg, x, m, now)
  {
  }

  lemma OverduePlainly(cfg: Config, x: Node, now: Time)
    ensures Overduely(cfg, x, now) <==> Due(cfg, x, now)
  {
    MarkPlainly(x, BLANK);
  }

  // ----- Of a listing

  ghost function ServingNodes(cfg: Config, nodes: seq<Node>, off: set<string>): set<Node> {
    set x | x in nodes && Serving(cfg, x, off)
  }

  lemma ServingAreActive(cfg: Config, nodes: seq<Node>, m: Memory)
    ensures ActiveOf(cfg, nodes, m) == ServingNodes(cfg, nodes, m.off)
  {
    forall x | x in nodes ensures Managed(cfg, x) && IsActive(cfg, x, m) <==> Serving(cfg, x, m.off) {
      ActivePlainly(cfg, x, m);
    }
  }

  ghost function AvailableNames(cfg: Config, nodes: seq<Node>, m: Memory, now: Time): set<string> {
    set x | x in nodes && Available(cfg, x, m, now) :: x.name
  }

  lemma AvailableAreEligible(cfg: Config, nodes: seq<Node>, m: Memory, now: Time)
    ensures EligibleNames(cfg, nodes, m, now) == AvailableNames(cfg, nodes, m, now)
  {
    forall x | x in nodes ensures Managed(cfg, x) && ShutdownEligible(cfg, x, m, now) <==> Available(cfg, x, m, now) {
      EligiblePlainly(cfg, x, m, now);
    }
  }

  /** Of the managed nodes listed, n is off, and none is off for longer. */
  ghost predicate OffLongest(cfg: Config, nodes: seq<Node>, off: set<string>, n: string) {
    exists x :: x in nodes && IsManaged(cfg, x) && x.name == n && OffTime(x, off).Some?
      && forall y | y in nodes && IsManaged(cfg, y) && OffTime(y, off).Some? ::
           OffTime(x, off).value <= OffTime(y, off).value
  }

  lemma LongestPlainly(cfg: Config, nodes: seq<Node>, m: Memory, n: string)
    requires LongestOff(cfg, nodes, m, n)
    ensures OffLongest(cfg, nodes, m.off, n)
  {
    forall x | x in nodes
      ensures (Managed(cfg, x) <==> IsManaged(cfg, x)) && OffSince(x, m) == OffTime(x, m.off) {
      ManagedPlainly(cfg, x);
      MarkPlainly(x, m);
    }
  }

  /** Of the nodes listed, x is due, and no due one was marked earlier. */
  ghost predicate DueFirst(cfg: Config, nodes: seq<Node>, x: Node, now: Time) {
    && x in nodes && Due(cfg, x, now)
    && forall y | y in nodes && Due(cfg, y, now) :: MarkTime(x).value <= MarkTime(y).value
  }

  lemma OldestPlainly(cfg: Config, nodes: seq<Node>, x: Node, now: Time)
    requires OldestOverdue(cfg, nodes, x, now)
    ensures DueFirst(cfg, nodes, x, now)
  {
    forall y | y in nodes ensures (Overduely(cfg, y, now) <==> Due(cfg, y, now)) && PoweredOffSince(y) == MarkTime(y) {
      OverduePlainly(cfg, y, now);
      MarkPlainly(y, BLANK);
    }
  }

  ghost function DownManaged(cfg: Config, nodes: seq<Node>): set<string> {
    set x | x in nodes && IsManaged(cfg, x) && !x.ready :: x.name
  }

  lemma DownPlainly(cfg: Config, nodes: seq<Node>)
    ensures DownNames(cfg, nodes) == DownManaged(cfg, nodes)
  {
    forall x | x in nodes ensures Managed(cfg, x) <==> IsManaged(cfg, x) {
      ManagedPlainly(cfg, x);
    }
  }

  /** Listings have each name once. */
  lemma {:induction false} ListedOnce(h: History)
    requires Truthful(h)
    ensures NodesSeen(h).Some? ==> NodeLists.DistinctNames(NodesSeen(h).value)
  {
    if h.Then? {
      ListedOnce(h.past);
    }
  }

  // ----- The loads that count

  /** A label rule asks for a value, or for the key alone if it is empty. */
  predicate MeetsRule(x: Node, key: string, value: string) {
    key in x.labels && (value == "" || x.labels[key] == value)
  }

  /** Nodes of which the configuration leaves out the load: disabled ones, unless a rule of its own says
      otherwise of that label, and those that meet a rule. */
  predicate LeftOut(cfg: Config, x: Node) {
    || (exists k :: k in cfg.excludeFromAggregate && MeetsRule(x, k, cfg.excludeFromAggregate[k]))
    || (cfg.disabledLabel != "" && cfg.disabledLabel !in cfg.excludeFromAggregate
        && HasLabel(x, cfg.disabledLabel, "true"))
  }

  /** A node whose load counts when n is gone. */
  predicate Peer(cfg: Config, x: Node, n: string) {
    "cba.dev/was-powered-off" !in x.annotations && x.name != n && !LeftOut(cfg, x)
  }

  /** These nodes have answered these loads. */
  predicate Answer(answered: map<string, real>, nodes: seq<Node>, loads: seq<real>) {
    && |loads| == |nodes|
    && forall i | 0 <= i < |nodes| :: nodes[i].name in answered && loads[i] == answered[nodes[i].name]
  }

  /** These are the answered loads of all the peers, one each. */
  ghost predicate LoadsOfPeers(cfg: Config, nodes: seq<Node>, answered: map<string, real>, n: string,
                               peers: seq<Node>, loads: seq<real>)
  {
    && NodeLists.DistinctNames(peers) && Elements(peers) == (set x | x in nodes && Peer(cfg, x, n))
    && Answer(answered, peers, loads)
  }

  lemma LeftOutByRules(cfg: Config, x: Node)
    ensures IgnoredByLabels(x, LoadGates.AggregateExclusions(cfg)) <==> LeftOut(cfg, x)
  {
    var rules := LoadGates.AggregateExclusions(cfg);
    forall k | k in cfg.excludeFromAggregate ensures k in rules && rules[k] == cfg.excludeFromAggregate[k] {
    }
    if cfg.disabledLabel != "" && cfg.disabledLabel !in cfg.excludeFromAggregate {
      assert cfg.disabledLabel in rules && rules[cfg.disabledLabel] == "true";
    }
  }

  lemma CountedIsPeer(cfg: Config, x: Node, n: string)
    ensures LoadGates.Counted(x, LoadGates.AggregateExclusions(cfg), n) <==> Peer(cfg, x, n)
  {
    LeftOutByRules(cfg, x);
  }

  lemma {:induction false} LoadsAreOfPeers(cfg: Config, nodes: seq<Node>, answered: map<string, real>, n: string,
                                           loads: seq<real>) returns (peers: seq<Node>)
    requires NodeLists.DistinctNames(nodes)
    requires LoadGates.LoadsOf(LoadGates.CountedNames(nodes, LoadGates.AggregateExclusions(cfg), n), answered)
             == Some(loads)
    ensures LoadsOfPeers(cfg, nodes, answered, n, peers, loads)
  {
    peers := [];
    if nodes != [] {
      var init, last := nodes[..|nodes| - 1], nodes[|nodes| - 1];
      assert nodes == init + [last];
      CountedIsPeer(cfg, last, n);
      if Peer(cfg, last, n) {
        LastCounted(cfg, nodes, answered, n);
        peers := LoadsAreOfPeers(cfg, init, answered, n, loads[..|loads| - 1]);
        OnePeerMore(cfg, init, last, answered, n, peers, loads);
        peers := peers + [last];
      } else {
        assert LoadGates.CountedNames(nodes, LoadGates.AggregateExclusions(cfg), n)
               == LoadGates.CountedNames(init, LoadGates.AggregateExclusions(cfg), n);
        peers := LoadsAreOfPeers(cfg, init, answered, n, loads);
      }
    }
  }

  lemma LastCounted(cfg: Config, nodes: seq<Node>, answered: map<string, real>, n: string)
    requires nodes != [] && LoadGates.Counted(nodes[|nodes| - 1], LoadGates.AggregateExclusions(cfg), n)
    ensures var rules, init, last := LoadGates.AggregateExclusions(cfg), nodes[..|nodes| - 1], nodes[|nodes| - 1].name;
            match LoadGates.LoadsOf(LoadGates.CountedNames(nodes, rules, n), answered)
            case None => true
            case Some(loads) =>
              && last in answered && loads != [] && loads[|loads| - 1] == answered[last]
              && LoadGates.LoadsOf(LoadGates.CountedNames(init, rules, n), answered) == Some(loads[..|loads| - 1])
  {
    var rules, init, last := LoadGates.AggregateExclusions(cfg), nodes[..|nodes| - 1], nodes[|nodes| - 1].name;
    var names, before := LoadGates.CountedNames(nodes, rules, n), LoadGates.CountedNames(init, rules, n);
    assert names == before + [last];
    assert names[..|names| - 1] == before && names[|names| - 1] == last;
  }

  lemma OnePeerMore(cfg: Config, init: seq<Node>, last: Node, answered: map<string, real>, n: string,
                    peers: seq<Node>, loads: seq<real>)
    requires NodeLists.DistinctNames(init + [last]) && Peer(cfg, last, n) && loads != []
    requires LoadsOfPeers(cfg, init, answered, n, peers, loads[..|loads| - 1])
    requires last.name in answered && loads[|loads| - 1] == answered[last.name]
    ensures LoadsOfPeers(cfg, init + [last], answered, n, peers + [last], loads)
  {
    assert Elements(peers + [last]) == Elements(peers) + {last};
    forall x | x in peers ensures x.name != last.name {
      assert x in Elements(peers);
      var i :| 0 <= i < |init| && init[i] == x;
      assert (init + [last])[i] == x && (init + [last])[|init|] == last;
    }
  }

  /** An aggregate of the cluster is that of the answered loads of all the peers, and there are some. */
  lemma AggregateOfPeers(cfg: Config, s: LoadGates.Snapshot, n: string, mode: EvalMode)
    returns (peers: seq<Node>, loads: seq<real>)
    requires NodeLists.DistinctNames(s.nodes)
    requires LoadGates.ClusterLoad(s, LoadGates.AggregateExclusions(cfg), n, None, mode).Some?
    ensures LoadsOfPeers(cfg, s.nodes, s.loads, n, peers, loads) && loads != []
    ensures LoadGates.ClusterLoad(s, LoadGates.AggregateExclusions(cfg), n, None, mode)
            == Some(Statistics.Aggregate(loads, mode))
  {
    loads := LoadGates.LoadsOf(LoadGates.CountedNames(s.nodes, LoadGates.AggregateExclusions(cfg), n), s.loads).value;
    peers := LoadsAreOfPeers(cfg, s.nodes, s.loads, n, loads);
  }

  /** The node has answered a load below its threshold; and some other nodes have answered theirs, all that
      count of those listed, and their aggregate is below the threshold of the cluster. An override stands in
      for either of them. */
  ghost predicate LoadsAllow(cfg: Config, nodes: Option<seq<Node>>, answered: map<string, real>, n: string) {
    && (match cfg.nodeLoadOverride
        case Some(x) => x < cfg.nodeThreshold
        case None => n in answered && answered[n] < cfg.nodeThreshold)
    && (match cfg.clusterLoadDownOverride
        case Some(x) => x < cfg.scaleDownThreshold
        case None =>
          && nodes.Some?
          && exists peers, loads :: LoadsOfPeers(cfg, nodes.value, answered, n, peers, loads)
               && loads != [] && Statistics.Aggregate(loads, cfg.evalMode) < cfg.scaleDownThreshold)
  }

  function Without<T>(s: seq<T>, i: nat): seq<T>
    requires i < |s|
  {
    s[..i] + s[i + 1..]
  }

  lemma OneLess<T>(s: seq<T>, i: nat)
    requires i < |s|
    ensures multiset(s) == multiset(Without(s, i)) + multiset{s[i]}
  {
    assert s == s[..i] + [s[i]] + s[i + 1..];
  }

  lemma OneNodeLess(nodes: seq<Node>, i: nat)
    requires i < |nodes| && NodeLists.DistinctNames(nodes)
    ensures NodeLists.DistinctNames(Without(nodes, i)) && Elements(Without(nodes, i)) == Elements(nodes) - {nodes[i]}
  {
    var rest := Without(nodes, i);
    forall x | x in nodes && x != nodes[i] ensures x in rest {
      var j :| 0 <= j < |nodes| && nodes[j] == x;
      assert rest[if j < i then j else j - 1] == x;
    }
    forall x | x in rest ensures x in nodes && x != nodes[i] {
      var j :| 0 <= j < |rest| && rest[j] == x;
      assert rest[j] == nodes[if j < i then j else j + 1];
    }
  }

  lemma FirstIsElement<T>(s: seq<T>)
    ensures s != [] ==> s[0] in Elements(s)
  {
  }

  /** The same nodes answer the same loads, in whatever order they are asked. */
  lemma {:induction false} SameAnswers(answered: map<string, real>, a: seq<Node>, k: seq<real>, b: seq<Node>,
                                       l: seq<real>)
    requires NodeLists.DistinctNames(a) && NodeLists.DistinctNames(b) && Elements(a) == Elements(b)
    requires Answer(answered, a, k) && Answer(answered, b, l)
    ensures multiset(k) == multiset(l)
    decreases |a|
  {
    if a == [] {
      FirstIsElement(b);
    } else {
      assert a[0] in Elements(b);
      var j :| 0 <= j < |b| && b[j] == a[0];
      OneNodeLess(a, 0);
      OneNodeLess(b, j);
      OneLess(k, 0);
      OneLess(l, j);
      SameAnswers(answered, Without(a, 0), Without(k, 0), Without(b, j), Without(l, j));
    }
  }

  /** If all peers have answered, the gate has their loads. */
  lemma {:induction false} PeersAnswered(cfg: Config, nodes: seq<Node>, answered: map<string, real>, n: string)
    requires forall x | x in nodes && Peer(cfg, x, n) :: x.name in answered
    ensures LoadGates.LoadsOf(LoadGates.CountedNames(nodes, LoadGates.AggregateExclusions(cfg), n), answered).Some?
  {
    if nodes != [] {
      var init, last := nodes[..|nodes| - 1], nodes[|nodes| - 1];
      assert nodes == init + [last];
      PeersAnswered(cfg, init, answered, n);
      CountedIsPeer(cfg, last, n);
      var rules := LoadGates.AggregateExclusions(cfg);
      var names, before := LoadGates.CountedNames(nodes, rules, n), LoadGates.CountedNames(init, rules, n);
      if Peer(cfg, last, n) {
        assert names == before + [last.name];
        assert names[..|names| - 1] == before && names[|names| - 1] == last.name;
      } else {
        assert names == before;
      }
    }
  }

  /** What the gate takes for the load of the cluster is the aggregate of the loads of all peers, in any order. */
  lemma PeersAggregate(cfg: Config, s: LoadGates.Snapshot, n: string, mode: EvalMode, peers: seq<Node>,
                       loads: seq<real>)
    requires NodeLists.DistinctNames(s.nodes) && LoadsOfPeers(cfg, s.nodes, s.loads, n, peers, loads) && loads != []
    ensures LoadGates.ClusterLoad(s, LoadGates.AggregateExclusions(cfg), n, None, mode)
            == Some(Statistics.Aggregate(loads, mode))
  {
    forall x | x in s.nodes && Peer(cfg, x, n) ensures x.name in s.loads {
      assert x in Elements(peers);
    }
    PeersAnswered(cfg, s.nodes, s.loads, n);
    var all := LoadGates.LoadsOf(LoadGates.CountedNames(s.nodes, LoadGates.AggregateExclusions(cfg), n), s.loads).value;
    var others := LoadsAreOfPeers(cfg, s.nodes, s.loads, n, all);
    SameAnswers(s.loads, others, all, peers, loads);
    assert |multiset(all)| == |all| && |multiset(loads)| == |loads|;
    Statistics.AggregateIgnoresOrder(all, loads, mode);
  }

  /** The gate approves exactly if the loads allow it. */
  lemma ApprovalPlainly(cfg: Config, s: LoadGates.Snapshot, nodes: Option<seq<Node>>, n: string)
    requires NodesMatter(cfg, s, n) ==> nodes == Some(s.nodes)
    requires nodes.Some? ==> NodeLists.DistinctNames(nodes.value)
    ensures LoadGates.DownVerdict(cfg, s, n) == Ok(true) <==> LoadsAllow(cfg, nodes, s.loads, n)
  {
    if cfg.clusterLoadDownOverride.None? && LoadGates.LowLoad(cfg, s, n) {
      if LoadGates.LoadWithout(cfg, s, n).Some? {
        var peers, loads := AggregateOfPeers(cfg, s, n, cfg.evalMode);
      }
      forall peers, loads | LoadsOfPeers(cfg, s.nodes, s.loads, n, peers, loads) && loads != []
        ensures LoadGates.LoadWithout(cfg, s, n) == Some(Statistics.Aggregate(loads, cfg.evalMode)) {
        PeersAggregate(cfg, s, n, cfg.evalMode, peers, loads);
      }
    }
  }

  /** The aggregate load, or the override for it, is at or above the threshold for scale-up. */
  ghost predicate LoadHigh(cfg: Config, nodes: Option<seq<Node>>, answered: map<string, real>) {
    match cfg.clusterLoadUpOverride
    case Some(x) => x >= cfg.scaleUpThreshold
    case None =>
      && nodes.Some?
      && exists peers, loads :: LoadsOfPeers(cfg, nodes.value, answered, "", peers, loads)
           && loads != [] && Statistics.Aggregate(loads, cfg.evalMode) >= cfg.scaleUpThreshold
  }

  /** And scale-up finds the cluster busy exactly if it is. */
  lemma HighPlainly(cfg: Config, s: LoadGates.Snapshot, nodes: Option<seq<Node>>)
    requires cfg.clusterLoadUpOverride.None? ==> nodes == Some(s.nodes)
    requires nodes.Some? ==> NodeLists.DistinctNames(nodes.value)
    ensures !LoadGates.LoadLow(cfg, s) <==> LoadHigh(cfg, nodes, s.loads)
  {
    if cfg.clusterLoadUpOverride.None? {
      var rules := LoadGates.AggregateExclusions(cfg);
      if LoadGates.ClusterLoad(s, rules, "", None, cfg.evalMode).Some? {
        var peers, loads := AggregateOfPeers(cfg, s, "", cfg.evalMode);
      }
      forall peers, loads | LoadsOfPeers(cfg, s.nodes, s.loads, "", peers, loads) && loads != []
        ensures LoadGates.ClusterLoad(s, rules, "", None, cfg.evalMode)
                == Some(Statistics.Aggregate(loads, cfg.evalMode)) {
        PeersAggregate(cfg, s, "", cfg.evalMode, peers, loads);
      }
    }
  }
}
