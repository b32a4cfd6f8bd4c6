/** The resource gate in terms of what it reads: nodes, pods and metrics as the cluster lists them, and the
    buffers as they are configured. The sums are defined here once more, over nodes and pods. */
module Headroom {
  import opened Prelude
  import opened Cluster
  import opened Settings
  import opened Journal
  import opened NodeLists
  import Resources

  datatype Kind = Cpus | Bytes

  function Of(a: Resources.Amount, kind: Kind): int {
    match kind
    case Cpus => a.cpu
    case Bytes => a.memory
  }

  function ContainerRequests(requests: seq<Resources.Amount>, kind: Kind): int {
    if requests == [] then 0
    else ContainerRequests(requests[..|requests| - 1], kind) + Of(requests[|requests| - 1], kind)
  }

  /** What all containers of all pods request. */
  function PodRequests(pods: seq<Pod>, kind: Kind): int {
    if pods == [] then 0
    else PodRequests(pods[..|pods| - 1], kind) + ContainerRequests(pods[|pods| - 1].requests, kind)
  }

  /** What the nodes other than n can allocate. */
  function AllocatableWithout(nodes: seq<Node>, n: string, kind: Kind): int {
    if nodes == [] then 0
    else
      var last := nodes[|nodes| - 1];
      AllocatableWithout(nodes[..|nodes| - 1], n, kind) + if last.name == n then 0 else Of(last.allocatable, kind)
  }

  function Used(usage: map<string, Resources.Amount>, n: string, kind: Kind): int {
    if n in usage then Of(usage[n], kind) else 0
  }

  /** What is used on all nodes. */
  function NodeUsage(nodes: seq<Node>, usage: map<string, Resources.Amount>, kind: Kind): int {
    if nodes == [] then 0
    else NodeUsage(nodes[..|nodes| - 1], usage, kind) + Used(usage, nodes[|nodes| - 1].name, kind)
  }

  function BufferPercent(cfg: Config, kind: Kind): int {
    match kind
    case Cpus => cfg.bufferCpuPercent
    case Bytes => cfg.bufferMemoryPercent
  }

  /** This much fits on the nodes other than n, with the buffer left free. */
  predicate FitsBeside(cfg: Config, nodes: seq<Node>, n: string, demand: int, kind: Kind) {
    var free := AllocatableWithout(nodes, n, kind);
    demand + free * BufferPercent(cfg, kind) / 100 <= free
  }

  /** Metrics cover every node, and both what the pods request and what the nodes use fit without n. */
  ghost predicate RoomWithout(cfg: Config, nodes: seq<Node>, pods: seq<Pod>, usage: map<string, Resources.Amount>,
                              n: string)
  {
    && (forall x | x in nodes :: x.name in usage)
    && FitsBeside(cfg, nodes, n, PodRequests(pods, Cpus), Cpus)
    && FitsBeside(cfg, nodes, n, PodRequests(pods, Bytes), Bytes)
    && FitsBeside(cfg, nodes, n, NodeUsage(nodes, usage, Cpus), Cpus)
    && FitsBeside(cfg, nodes, n, NodeUsage(nodes, usage, Bytes), Bytes)
  }

  function AllocatableTotal(nodes: seq<Node>, kind: Kind): int {
    if nodes == [] then 0 else AllocatableTotal(nodes[..|nodes| - 1], kind) + Of(nodes[|nodes| - 1].allocatable, kind)
  }

  predicate NotNegative(a: Resources.Amount) {
    a.cpu >= 0 && a.memory >= 0
  }

  ghost predicate SoundPods(pods: seq<Pod>) {
    forall p, r | p in pods && r in p.requests :: NotNegative(r)
  }

  /** The nodes have different names, no figure is negative, buffers are percentages, and sums stay within
      64 bits. */
  ghost predicate SoundReadings(cfg: Config, nodes: seq<Node>, pods: seq<Pod>, usage: map<string, Resources.Amount>) {
    && DistinctNames(nodes)
    && (forall x | x in nodes :: NotNegative(x.allocatable))
    && (forall k | k in usage :: NotNegative(usage[k]))
    && SoundPods(pods)
    && 0 <= cfg.bufferCpuPercent <= 100 && 0 <= cfg.bufferMemoryPercent <= 100
    && SumsFit(nodes, pods, usage, Cpus) && SumsFit(nodes, pods, usage, Bytes)
  }

  predicate SumsFit(nodes: seq<Node>, pods: seq<Pod>, usage: map<string, Resources.Amount>, kind: Kind) {
    && AllocatableTotal(nodes, kind) + PodRequests(pods, kind) < 0x8000_0000_0000_0000
    && AllocatableTotal(nodes, kind) + NodeUsage(nodes, usage, kind) < 0x8000_0000_0000_0000
  }

  /** The guard: what is left times its percentage stays within 64 bits. */
  predicate BufferComputes(cfg: Config, nodes: seq<Node>, n: string) {
    && AllocatableWithout(nodes, n, Cpus) * cfg.bufferCpuPercent < 0x8000_0000_0000_0000
    && AllocatableWithout(nodes, n, Bytes) * cfg.bufferMemoryPercent < 0x8000_0000_0000_0000
  }

  // ----- The sums are those of the gate

  lemma {:induction false} SumsOfContainers(requests: seq<Resources.Amount>)
    ensures Resources.SumOf(requests)
            == Resources.Amount(ContainerRequests(requests, Cpus), ContainerRequests(requests, Bytes))
  {
    if requests != [] {
      SumsOfContainers(requests[..|requests| - 1]);
    }
  }

  lemma {:induction false} SumsOfPods(pods: seq<Pod>)
    ensures Resources.Requested(RequestsOf(pods)) == Resources.Amount(PodRequests(pods, Cpus), PodRequests(pods, Bytes))
  {
    if pods != [] {
      var last := |pods| - 1;
      SumsOfPods(pods[..last]);
      SumsOfContainers(pods[last].requests);
      assert RequestsOf(pods)[..last] == RequestsOf(pods[..last]);
    }
  }

  lemma CapacitiesInit(nodes: seq<Node>)
    requires nodes != []
    ensures var cs, last := CapacitiesOf(nodes), |nodes| - 1;
            && |cs| == |nodes| && cs[..last] == CapacitiesOf(nodes[..last])
            && cs[last] == Resources.Capacity(nodes[last].name, nodes[last].allocatable)
  {
  }

  lemma {:induction false} SumsOfRest(nodes: seq<Node>, n: string)
    ensures Resources.Rest(CapacitiesOf(nodes), n)
            == Resources.Amount(AllocatableWithout(nodes, n, Cpus), AllocatableWithout(nodes, n, Bytes))
  {
    if nodes != [] {
      SumsOfRest(nodes[..|nodes| - 1], n);
      CapacitiesInit(nodes);
    }
  }

  lemma {:induction false} SumsOfTotal(nodes: seq<Node>)
    ensures Resources.Total(CapacitiesOf(nodes))
            == Resources.Amount(AllocatableTotal(nodes, Cpus), AllocatableTotal(nodes, Bytes))
  {
    if nodes != [] {
      SumsOfTotal(nodes[..|nodes| - 1]);
      CapacitiesInit(nodes);
    }
  }

  lemma {:induction false} SumsOfUsage(nodes: seq<Node>, usage: map<string, Resources.Amount>)
    ensures Resources.TotalUsage(CapacitiesOf(nodes), usage)
            == Resources.Amount(NodeUsage(nodes, usage, Cpus), NodeUsage(nodes, usage, Bytes))
  {
    if nodes != [] {
      SumsOfUsage(nodes[..|nodes| - 1], usage);
      CapacitiesInit(nodes);
    }
  }

  lemma {:induction false} NamesStayUnique(nodes: seq<Node>)
    requires DistinctNames(nodes)
    ensures Resources.UniqueNames(CapacitiesOf(nodes))
  {
    if nodes != [] {
      var last := |nodes| - 1;
      NamesStayUnique(nodes[..last]);
      CapacitiesInit(nodes);
    }
  }

  function Figures(nodes: seq<Node>, pods: seq<Pod>, usage: map<string, Resources.Amount>): Resources.Snapshot {
    Resources.Snapshot(CapacitiesOf(nodes), RequestsOf(pods), usage)
  }

  lemma MetricsCover(nodes: seq<Node>, pods: seq<Pod>, usage: map<string, Resources.Amount>)
    ensures Resources.MetricsComplete(Figures(nodes, pods, usage)) <==> forall x | x in nodes :: x.name in usage
  {
    var cs := CapacitiesOf(nodes);
    forall x | x in nodes ensures exists c :: c in cs && c.name == x.name {
      var i :| 0 <= i < |nodes| && nodes[i] == x;
      assert cs[i] in cs;
    }
  }

  lemma FiguresSound(nodes: seq<Node>, pods: seq<Pod>, usage: map<string, Resources.Amount>)
    requires forall x | x in nodes :: NotNegative(x.allocatable)
    requires forall k | k in usage :: NotNegative(usage[k])
    requires SoundPods(pods)
    ensures Resources.SoundFigures(CapacitiesOf(nodes), usage)
    ensures forall p | p in RequestsOf(pods) :: Resources.AllNonnegative(p)
  {
    forall p | p in RequestsOf(pods) ensures Resources.AllNonnegative(p) {
      var i :| 0 <= i < |pods| && RequestsOf(pods)[i] == p;
      assert pods[i] in pods && p == pods[i].requests;
      assert forall r | r in p :: NotNegative(r);
    }
  }

  lemma FiguresInRange(cfg: Config, nodes: seq<Node>, pods: seq<Pod>, usage: map<string, Resources.Amount>)
    requires SoundReadings(cfg, nodes, pods, usage)
    ensures Resources.InRange(Figures(nodes, pods, usage), BuffersOf(cfg))
  {
    FiguresSound(nodes, pods, usage);
    NamesStayUnique(nodes);
    SumsOfTotal(nodes);
    SumsOfUsage(nodes, usage);
    SumsOfPods(pods);
  }

  lemma LeftWithout(cs: seq<Resources.Capacity>, n: string)
    requires Resources.UniqueNames(cs)
    ensures Resources.Minus(Resources.Total(cs), Resources.Own(cs, n)) == Resources.Rest(cs, n)
  {
    Resources.CapacitySplit(cs, n);
  }

  lemma SafeMeans(s: Resources.Snapshot, b: Resources.Buffers, n: string, rest: Resources.Amount)
    requires Resources.Minus(Resources.Total(s.nodes), Resources.Own(s.nodes, n)) == rest
    ensures var r, u := Resources.Requested(s.pods), Resources.TotalUsage(s.nodes, s.usage);
            Resources.Safe(s, b, n) <==>
              && Resources.MetricsComplete(s)
              && Resources.Covers(rest.cpu, b.cpu, r.cpu) && Resources.Covers(rest.memory, b.memory, r.memory)
              && Resources.Covers(rest.cpu, b.cpu, u.cpu) && Resources.Covers(rest.memory, b.memory, u.memory)
  {
  }

  lemma SafeIsRoom(cfg: Config, nodes: seq<Node>, pods: seq<Pod>, usage: map<string, Resources.Amount>, n: string)
    requires Resources.UniqueNames(CapacitiesOf(nodes))
    ensures Resources.Safe(Figures(nodes, pods, usage), BuffersOf(cfg), n) <==> RoomWithout(cfg, nodes, pods, usage, n)
  {
    MetricsCover(nodes, pods, usage);
    SumsOfRest(nodes, n);
    SumsOfUsage(nodes, usage);
    SumsOfPods(pods);
    LeftWithout(CapacitiesOf(nodes), n);
    SafeMeans(Figures(nodes, pods, usage), BuffersOf(cfg), n, Resources.Rest(CapacitiesOf(nodes), n));
  }

  lemma GuardMeans(cs: seq<Resources.Capacity>, b: Resources.Buffers, n: string, rest: Resources.Amount)
    requires Resources.Minus(Resources.Total(cs), Resources.Own(cs, n)) == rest
    ensures Resources.Guarded(cs, b, n)
            <==> rest.cpu * b.cpu < 0x8000_0000_0000_0000 && rest.memory * b.memory < 0x8000_0000_0000_0000
  {
  }

  lemma GuardComputes(cfg: Config, nodes: seq<Node>, n: string)
    requires Resources.UniqueNames(CapacitiesOf(nodes))
    ensures Resources.Guarded(CapacitiesOf(nodes), BuffersOf(cfg), n) <==> BufferComputes(cfg, nodes, n)
  {
    SumsOfRest(nodes, n);
    LeftWithout(CapacitiesOf(nodes), n);
    GuardMeans(CapacitiesOf(nodes), BuffersOf(cfg), n, Resources.Rest(CapacitiesOf(nodes), n));
  }

  /** With sound readings the gate approves whenever there is room without n. Under the guard it approves
      exactly then. */
  lemma ApprovalMeansRoom(cfg: Config, nodes: seq<Node>, pods: seq<Pod>, usage: map<string, Resources.Amount>,
                          n: string)
    requires SoundReadings(cfg, nodes, pods, usage)
    ensures RoomWithout(cfg, nodes, pods, usage, n) ==> Approves(cfg, ResourceFigures(nodes, pods, usage), n)
    ensures BufferComputes(cfg, nodes, n) ==>
              (Approves(cfg, ResourceFigures(nodes, pods, usage), n) <==> RoomWithout(cfg, nodes, pods, usage, n))
  {
    FiguresInRange(cfg, nodes, pods, usage);
    Resources.ApprovalMeaning(Figures(nodes, pods, usage), BuffersOf(cfg), n);
    SafeIsRoom(cfg, nodes, pods, usage, n);
    GuardComputes(cfg, nodes, n);
  }

  /** An approval always means that metrics cover every node. */
  lemma ApprovalNeedsMetrics(cfg: Config, nodes: seq<Node>, pods: seq<Pod>, usage: map<string, Resources.Amount>,
                             n: string)
    requires Approves(cfg, ResourceFigures(nodes, pods, usage), n)
    ensures forall x | x in nodes :: x.name in usage
  {
    MetricsCover(nodes, pods, usage);
  }

  // ----- More demand only denies

  lemma {:induction false} RequestsNotNegative(requests: seq<Resources.Amount>, kind: Kind)
    requires forall r | r in requests :: NotNegative(r)
    ensures ContainerRequests(requests, kind) >= 0
  {
    if requests != [] {
      assert requests[|requests| - 1] in requests;
      RequestsNotNegative(requests[..|requests| - 1], kind);
    }
  }

  lemma {:induction false} PodsNotNegative(pods: seq<Pod>, kind: Kind)
    requires SoundPods(pods)
    ensures PodRequests(pods, kind) >= 0
  {
    if pods != [] {
      assert pods[|pods| - 1] in pods;
      RequestsNotNegative(pods[|pods| - 1].requests, kind);
      PodsNotNegative(pods[..|pods| - 1], kind);
    }
  }

  lemma {:induction false} OnePodLess(pods: seq<Pod>, i: nat, kind: Kind)
    requires i < |pods|
    ensures PodRequests(pods, kind)
            == PodRequests(pods[..i] + pods[i + 1..], kind) + ContainerRequests(pods[i].requests, kind)
  {
    var last := |pods| - 1;
    if i == last {
      assert pods[..i] + pods[i + 1..] == pods[..last];
    } else {
      OnePodLess(pods[..last], i, kind);
      var rest := pods[..i] + pods[i + 1..];
      assert rest[..|rest| - 1] == pods[..last][..i] + pods[..last][i + 1..] && rest[|rest| - 1] == pods[last];
    }
  }

  lemma WithoutOne(all: seq<Pod>, i: nat)
    requires i < |all|
    ensures multiset(all[..i] + all[i + 1..]) == multiset(all) - multiset{all[i]}
    ensures forall p | p in all[..i] + all[i + 1..] :: p in all
  {
    assert all == all[..i] + [all[i]] + all[i + 1..];
  }

  /** Pods among others request no more than all of them, in whatever order they are listed. */
  lemma {:induction false} FewerPodsRequestLess(pods: seq<Pod>, all: seq<Pod>, kind: Kind)
    requires multiset(pods) <= multiset(all) && SoundPods(all)
    ensures PodRequests(pods, kind) <= PodRequests(all, kind)
  {
    if pods == [] {
      PodsNotNegative(all, kind);
    } else {
      var last := |pods| - 1;
      assert pods == pods[..last] + [pods[last]];
      assert pods[last] in multiset(all);
      var i :| 0 <= i < |all| && all[i] == pods[last];
      var rest := all[..i] + all[i + 1..];
      WithoutOne(all, i);
      FewerPodsRequestLess(pods[..last], rest, kind);
      OnePodLess(all, i, kind);
    }
  }

  lemma LessFits(cfg: Config, stricter: Config, nodes: seq<Node>, n: string, less: int, demand: int, kind: Kind)
    requires BufferPercent(cfg, kind) <= BufferPercent(stricter, kind) && 0 <= AllocatableWithout(nodes, n, kind)
    requires 0 <= BufferPercent(cfg, kind) && less <= demand && FitsBeside(stricter, nodes, n, demand, kind)
    ensures FitsBeside(cfg, nodes, n, less, kind)
  {
    Resources.LooserCovers(AllocatableWithout(nodes, n, kind), BufferPercent(cfg, kind), BufferPercent(stricter, kind),
                           less, demand);
  }

  lemma {:induction false} AllocatableNotNegative(nodes: seq<Node>, n: string, kind: Kind)
    requires forall x | x in nodes :: NotNegative(x.allocatable)
    ensures AllocatableWithout(nodes, n, kind) >= 0
  {
    if nodes != [] {
      assert nodes[|nodes| - 1] in nodes;
      AllocatableNotNegative(nodes[..|nodes| - 1], n, kind);
    }
  }

  /** A pod more in the listing, or a larger buffer, only ever turns an approval into a denial. */
  lemma MoreDemandDenies(cfg: Config, stricter: Config, nodes: seq<Node>, pods: seq<Pod>, all: seq<Pod>,
                         usage: map<string, Resources.Amount>, n: string)
    requires multiset(pods) <= multiset(all)
    requires 0 <= cfg.bufferCpuPercent <= stricter.bufferCpuPercent
    requires 0 <= cfg.bufferMemoryPercent <= stricter.bufferMemoryPercent
    requires SoundReadings(stricter, nodes, all, usage) && BufferComputes(stricter, nodes, n)
    requires Approves(stricter, ResourceFigures(nodes, all, usage), n)
    ensures Approves(cfg, ResourceFigures(nodes, pods, usage), n)
  {
    ApprovalMeansRoom(stricter, nodes, all, usage, n);
    FewerPodsRequestLess(pods, all, Cpus);
    FewerPodsRequestLess(pods, all, Bytes);
    forall p | p in pods ensures p in all {
      assert p in multiset(pods);
    }
    RoomForLess(cfg, stricter, nodes, pods, all, usage, n);
    ApprovalMeansRoom(cfg, nodes, pods, usage, n);
  }

  lemma RoomForLess(cfg: Config, stricter: Config, nodes: seq<Node>, pods: seq<Pod>, all: seq<Pod>,
                    usage: map<string, Resources.Amount>, n: string)
    requires forall x | x in nodes :: NotNegative(x.allocatable)
    requires 0 <= cfg.bufferCpuPercent <= stricter.bufferCpuPercent
    requires 0 <= cfg.bufferMemoryPercent <= stricter.bufferMemoryPercent
    requires PodRequests(pods, Cpus) <= PodRequests(all, Cpus) && PodRequests(pods, Bytes) <= PodRequests(all, Bytes)
    requires RoomWithout(stricter, nodes, all, usage, n)
    ensures RoomWithout(cfg, nodes, pods, usage, n)
  {
    AllocatableNotNegative(nodes, n, Cpus);
    AllocatableNotNegative(nodes, n, Bytes);
    LessFits(cfg, stricter, nodes, n, PodRequests(pods, Cpus), PodRequests(all, Cpus), Cpus);
    LessFits(cfg, stricter, nodes, n, PodRequests(pods, Bytes), PodRequests(all, Bytes), Bytes);
    LessFits(cfg, stricter, nodes, n, NodeUsage(nodes, usage, Cpus), NodeUsage(nodes, usage, Cpus), Cpus);
    LessFits(cfg, stricter, nodes, n, NodeUsage(nodes, usage, Bytes), NodeUsage(nodes, usage, Bytes), Bytes);
  }
}
