/** The resource-aware scale-down gate: the pods that remain must fit on the nodes that remain,
    with a buffer, both by what they request and by what they use. Quantities are 64-bit. */
module Resources {
  import opened Prelude

  /** Milli-CPUs and bytes. */
  datatype Amount = Amount(cpu: int, memory: int)

  datatype Capacity = Capacity(name: string, allocatable: Amount)

  /** What the gate reads: all nodes, the container requests of all pods, and node metrics by name. */
  datatype Snapshot = Snapshot(
    nodes: seq<Capacity>,
    pods: seq<seq<Amount>>,
    usage: map<string, Amount>)

  /** Buffer sizes, in percent. */
  datatype Buffers = Buffers(cpu: int, memory: int)

  const ZERO := Amount(0, 0)
  const TWO_TO_62 := 0x4000_0000_0000_0000
  const TWO_TO_63 := 0x8000_0000_0000_0000
  const TWO_TO_64 := 0x1_0000_0000_0000_0000

  /** Two's complement wrap-around of 64-bit integers. */
  function Wrap(x: int): int {
    (x + TWO_TO_63) % TWO_TO_64 - TWO_TO_63
  }

  /** Integer division that truncates toward zero. */
  function Quotient(x: int, y: int): int
    requires y > 0
  {
    if x >= 0 then x / y else -((-x) / y)
  }

  /** Wrapping takes away a multiple of 2^64 and ends within 64 bits. */
  lemma WrapMeans(x: int)
    ensures -0x8000_0000_0000_0000 <= Wrap(x) < 0x8000_0000_0000_0000
    ensures (x - Wrap(x)) % 0x1_0000_0000_0000_0000 == 0
  {
    var k := (x + TWO_TO_63) / TWO_TO_64;
    assert x - Wrap(x) == k * TWO_TO_64;
  }

  /** The quotient never exceeds the true one in size, and the rest has the sign of the dividend. */
  lemma QuotientTruncates(x: int, y: int)
    requires y > 0
    ensures x >= 0 ==> 0 <= x - Quotient(x, y) * y < y
    ensures x <= 0 ==> -y < x - Quotient(x, y) * y <= 0
  {
    if x < 0 {
      var z := -x;
      assert z == z / y * y + z % y;
      assert Quotient(x, y) * y == -(z / y * y);
    }
  }

  function Plus(a: Amount, b: Amount): Amount {
    Amount(a.cpu + b.cpu, a.memory + b.memory)
  }

  function Wrapped(a: Amount): Amount {
    Amount(Wrap(a.cpu), Wrap(a.memory))
  }

  function WrapPlus(a: Amount, b: Amount): Amount {
    Wrapped(Plus(a, b))
  }

  lemma WrapAbsorbs(a: int, b: int)
    ensures Wrap(Wrap(a) + b) == Wrap(a + b)
  {
    var k := (a + TWO_TO_63) / TWO_TO_64;
    assert Wrap(a) == a - k * TWO_TO_64;
    var x := a + b + TWO_TO_63;
    var q := x / TWO_TO_64;
    assert x - k * TWO_TO_64 == (q - k) * TWO_TO_64 + x % TWO_TO_64;
  }

  lemma WrapPlusAbsorbs(a: Amount, b: Amount)
    ensures WrapPlus(Wrapped(a), b) == WrapPlus(a, b)
  {
    WrapAbsorbs(a.cpu, b.cpu);
    WrapAbsorbs(a.memory, b.memory);
  }

  // ----- Sums

  function SumOf(amounts: seq<Amount>): Amount {
    if amounts == [] then ZERO
    else Plus(SumOf(amounts[..|amounts| - 1]), amounts[|amounts| - 1])
  }

  function Requested(pods: seq<seq<Amount>>): Amount {
    if pods == [] then ZERO
    else Plus(Requested(pods[..|pods| - 1]), SumOf(pods[|pods| - 1]))
  }

  function UsageOf(usage: map<string, Amount>, name: string): Amount {
    if name in usage then usage[name] else ZERO
  }

  /** Allocatable of all nodes. */
  function Total(nodes: seq<Capacity>): Amount {
    if nodes == [] then ZERO
    else Plus(Total(nodes[..|nodes| - 1]), nodes[|nodes| - 1].allocatable)
  }

  function TotalUsage(nodes: seq<Capacity>, usage: map<string, Amount>): Amount {
    if nodes == [] then ZERO
    else Plus(TotalUsage(nodes[..|nodes| - 1], usage), UsageOf(usage, nodes[|nodes| - 1].name))
  }

  /** Allocatable of the nodes other than the candidate. */
  function Rest(nodes: seq<Capacity>, n: string): Amount {
    if nodes == [] then ZERO
    else
      var last := nodes[|nodes| - 1];
      var before := Rest(nodes[..|nodes| - 1], n);
      if last.name == n then before else Plus(before, last.allocatable)
  }

  function RestUsage(nodes: seq<Capacity>, usage: map<string, Amount>, n: string): Amount {
    if nodes == [] then ZERO
    else
      var last := nodes[|nodes| - 1];
      var before := RestUsage(nodes[..|nodes| - 1], usage, n);
      if last.name == n then before else Plus(before, UsageOf(usage, last.name))
  }

  /** Allocatable of the candidate as listed last. */
  function Own(nodes: seq<Capacity>, n: string): Amount {
    if nodes == [] then ZERO
    else
      var last := nodes[|nodes| - 1];
      if last.name == n then last.allocatable else Own(nodes[..|nodes| - 1], n)
  }

  predicate Listed(nodes: seq<Capacity>, n: string) {
    exists c :: c in nodes && c.name == n
  }

  function OwnUsage(nodes: seq<Capacity>, usage: map<string, Amount>, n: string): Amount {
    if Listed(nodes, n) then UsageOf(usage, n) else ZERO
  }

  ghost predicate UniqueNames(nodes: seq<Capacity>) {
    nodes == []
    || (UniqueNames(nodes[..|nodes| - 1]) && !Listed(nodes[..|nodes| - 1], nodes[|nodes| - 1].name))
  }

  // ----- The loops

  method SumRequests(pods: seq<seq<Amount>>) returns (total: Amount)
    ensures total == Wrapped(Requested(pods))
  {
    total := ZERO;
    for i := 0 to |pods|
      invariant total == Wrapped(Requested(pods[..i]))
    {
      var containers := pods[i];
      ghost var before := Requested(pods[..i]);
      assert pods[..i + 1][..i] == pods[..i];
      for j := 0 to |containers|
        invariant total == Wrapped(Plus(before, SumOf(containers[..j])))
      {
        assert containers[..j + 1][..j] == containers[..j];
        WrapPlusAbsorbs(Plus(before, SumOf(containers[..j])), containers[j]);
        total := WrapPlus(total, containers[j]);
      }
      assert containers[..|containers|] == containers;
    }
    assert pods[..|pods|] == pods;
  }

  /** Splits allocatable and usage into the candidate's share and everybody else's. */
  method AnalyzeNodes(nodes: seq<Capacity>, usage: map<string, Amount>, n: string)
    returns (totalUsage: Amount, cluster: Amount, own: Amount, used: Amount)
    ensures totalUsage == Wrapped(RestUsage(nodes, usage, n))
    ensures cluster == Wrapped(Rest(nodes, n))
    ensures own == Own(nodes, n)
    ensures used == OwnUsage(nodes, usage, n)
  {
    totalUsage, cluster, own, used := ZERO, ZERO, ZERO, ZERO;
    for i := 0 to |nodes|
      invariant totalUsage == Wrapped(RestUsage(nodes[..i], usage, n))
      invariant cluster == Wrapped(Rest(nodes[..i], n))
      invariant own == Own(nodes[..i], n)
      invariant used == OwnUsage(nodes[..i], usage, n)
    {
      var node := nodes[i];
      assert nodes[..i + 1][..i] == nodes[..i] && nodes[..i + 1][i] == node;
      assert nodes[..i + 1] == nodes[..i] + [node];
      OwnUsageLast(nodes[..i], node, usage, n);
      if node.name == n {
        own := node.allocatable;
        if n in usage {
          used := usage[n];
        }
        continue;
      }
      WrapPlusAbsorbs(Rest(nodes[..i], n), node.allocatable);
      cluster := WrapPlus(cluster, node.allocatable);
      WrapPlusAbsorbs(RestUsage(nodes[..i], usage, n), UsageOf(usage, node.name));
      if node.name in usage {
        totalUsage := WrapPlus(totalUsage, usage[node.name]);
      }
    }
    assert nodes[..|nodes|] == nodes;
  }

  lemma OwnUsageLast(init: seq<Capacity>, last: Capacity, usage: map<string, Amount>, n: string)
    ensures OwnUsage(init + [last], usage, n) ==
            if last.name == n then UsageOf(usage, n) else OwnUsage(init, usage, n)
  {
    assert last in init + [last];
  }

  predicate MetricsComplete(s: Snapshot) {
    forall c | c in s.nodes :: c.name in s.usage
  }

  /** The share of a capacity kept free. */
  function Margin(capacity: int, percent: int): int {
    Quotient(Wrap(capacity * percent), 100)
  }

  predicate FitsWithin(demand: int, capacity: int, percent: int) {
    Wrap(demand + Margin(capacity, percent)) <= capacity
  }

  predicate Fits(demand: Amount, capacity: Amount, b: Buffers) {
    FitsWithin(demand.cpu, capacity.cpu, b.cpu) && FitsWithin(demand.memory, capacity.memory, b.memory)
  }

  /** The gate's verdict for removing node n. */
  predicate Approves(s: Snapshot, b: Buffers, n: string) {
    var rest := Wrapped(Rest(s.nodes, n));
    var used := WrapPlus(RestUsage(s.nodes, s.usage, n), OwnUsage(s.nodes, s.usage, n));
    && MetricsComplete(s)
    && Fits(Wrapped(Requested(s.pods)), rest, b)
    && Fits(used, rest, b)
  }

  method ShouldScaleDown(s: Snapshot, b: Buffers, n: string) returns (ok: bool)
    ensures ok == Approves(s, b, n)
  {
    for i := 0 to |s.nodes|
      invariant forall j | 0 <= j < i :: s.nodes[j].name in s.usage
    {
      if s.nodes[i].name !in s.usage {
        return false;
      }
    }
    var requested := SumRequests(s.pods);
    var totalUsage, cluster, _, used := AnalyzeNodes(s.nodes, s.usage, n);
    WrapPlusAbsorbs(RestUsage(s.nodes, s.usage, n), used);
    ok := Fits(requested, cluster, b) && Fits(WrapPlus(totalUsage, used), cluster, b);
  }

  // ----- What the verdict means

  /** With unique names the two shares of the capacity add up to the whole. */
  lemma {:induction false} CapacitySplit(nodes: seq<Capacity>, n: string)
    requires UniqueNames(nodes)
    ensures Plus(Rest(nodes, n), Own(nodes, n)) == Total(nodes)
  {
    if nodes != [] {
      var init, last := nodes[..|nodes| - 1], nodes[|nodes| - 1];
      CapacitySplit(init, n);
      if last.name == n {
        NotListed(init, n);
      }
    }
  }

  /** And so do the two shares of the usage. */
  lemma {:induction false} UsageSplit(nodes: seq<Capacity>, usage: map<string, Amount>, n: string)
    requires UniqueNames(nodes)
    ensures Plus(RestUsage(nodes, usage, n), OwnUsage(nodes, usage, n)) == TotalUsage(nodes, usage)
  {
    if nodes != [] {
      var init, last := nodes[..|nodes| - 1], nodes[|nodes| - 1];
      UsageSplit(init, usage, n);
      OwnUsageLast(init, last, usage, n);
      assert nodes == init + [last];
    }
  }

  lemma {:induction false} NotListed(nodes: seq<Capacity>, n: string)
    requires !Listed(nodes, n)
    ensures Own(nodes, n) == ZERO
  {
    if nodes != [] {
      assert nodes[|nodes| - 1] in nodes;
      NotListed(nodes[..|nodes| - 1], n);
    }
  }

  predicate Nonnegative(a: Amount) {
    a.cpu >= 0 && a.memory >= 0
  }

  ghost predicate AllNonnegative(amounts: seq<Amount>) {
    forall r | r in amounts :: Nonnegative(r)
  }

  ghost predicate SoundFigures(nodes: seq<Capacity>, usage: map<string, Amount>) {
    && (forall c | c in nodes :: Nonnegative(c.allocatable))
    && (forall k | k in usage :: Nonnegative(usage[k]))
  }

  ghost predicate Percentages(b: Buffers) {
    0 <= b.cpu <= 100 && 0 <= b.memory <= 100
  }

  /** Together they stay within 64 bits. */
  predicate AddsUp(capacity: Amount, demand: Amount) {
    capacity.cpu + demand.cpu < TWO_TO_63 && capacity.memory + demand.memory < TWO_TO_63
  }

  /** Sound figures whose sums stay within 64 bits. */
  ghost predicate InRange(s: Snapshot, b: Buffers) {
    && UniqueNames(s.nodes) && SoundFigures(s.nodes, s.usage)
    && (forall p | p in s.pods :: AllNonnegative(p))
    && Percentages(b)
    && AddsUp(Total(s.nodes), Requested(s.pods)) && AddsUp(Total(s.nodes), TotalUsage(s.nodes, s.usage))
  }

  /** Multiplying a capacity by its percentage, as the margin does first, stays within 64 bits. */
  predicate MarginFits(capacity: Amount, b: Buffers) {
    capacity.cpu * b.cpu < TWO_TO_63 && capacity.memory * b.memory < TWO_TO_63
  }

  /** The guard for removing n: the margins of what is left can be computed. */
  predicate Guarded(nodes: seq<Capacity>, b: Buffers, n: string) {
    MarginFits(Minus(Total(nodes), Own(nodes, n)), b)
  }

  lemma {:induction false} SumNonnegative(amounts: seq<Amount>)
    requires AllNonnegative(amounts)
    ensures Nonnegative(SumOf(amounts))
  {
    if amounts != [] {
      SumNonnegative(amounts[..|amounts| - 1]);
      assert amounts[|amounts| - 1] in amounts;
    }
  }

  lemma {:induction false} RequestedNonnegative(pods: seq<seq<Amount>>)
    requires forall p | p in pods :: AllNonnegative(p)
    ensures Nonnegative(Requested(pods))
  {
    if pods != [] {
      RequestedNonnegative(pods[..|pods| - 1]);
      assert pods[|pods| - 1] in pods;
      SumNonnegative(pods[|pods| - 1]);
    }
  }

  lemma {:induction false} CapacityNonnegative(nodes: seq<Capacity>, usage: map<string, Amount>, n: string)
    requires SoundFigures(nodes, usage)
    ensures Nonnegative(Rest(nodes, n)) && Nonnegative(Own(nodes, n)) && Nonnegative(TotalUsage(nodes, usage))
  {
    if nodes != [] {
      CapacityNonnegative(nodes[..|nodes| - 1], usage, n);
      assert nodes[|nodes| - 1] in nodes;
    }
  }

  /** Demand plus the buffer fits. */
  predicate Covers(capacity: int, percent: int, demand: int) {
    demand + capacity * percent / 100 <= capacity
  }

  predicate CoversAmount(capacity: Amount, b: Buffers, demand: Amount) {
    Covers(capacity.cpu, b.cpu, demand.cpu) && Covers(capacity.memory, b.memory, demand.memory)
  }

  lemma WrapSmall(x: int)
    requires 0 <= x < TWO_TO_63
    ensures Wrap(x) == x
  {
  }

  /** A wrapped product is smaller than the product, by a multiple of 2^64. */
  lemma WrapLarge(x: int)
    requires x >= TWO_TO_63
    ensures Wrap(x) <= x - TWO_TO_64 && -TWO_TO_63 <= Wrap(x) < TWO_TO_63
  {
    var k := (x + TWO_TO_63) / TWO_TO_64;
    assert Wrap(x) == x - k * TWO_TO_64 && k >= 1;
  }

  /** Whatever wraps, the margin is never too large, and it is right if the product fits. */
  lemma MarginBounds(capacity: int, percent: int)
    requires 0 <= capacity < TWO_TO_63 && 0 <= percent <= 100
    ensures 0 <= capacity * percent / 100 <= capacity
    ensures -TWO_TO_63 <= Margin(capacity, percent) <= capacity * percent / 100
    ensures if capacity * percent < TWO_TO_63 then Margin(capacity, percent) == capacity * percent / 100
            else Margin(capacity, percent) < capacity * percent / 100
  {
    ProductBounded(capacity, percent);
    ProductMargin(capacity * percent, capacity);
  }

  lemma ProductBounded(capacity: int, percent: int)
    requires 0 <= capacity && 0 <= percent <= 100
    ensures 0 <= capacity * percent <= capacity * 100
  {
  }

  lemma ProductMargin(product: int, capacity: int)
    requires 0 <= product <= capacity * 100
    ensures 0 <= product / 100 <= capacity
    ensures -TWO_TO_63 <= Quotient(Wrap(product), 100) <= product / 100
    ensures if product < TWO_TO_63 then Quotient(Wrap(product), 100) == product / 100
            else Quotient(Wrap(product), 100) < product / 100
  {
    if product < TWO_TO_63 {
      WrapSmall(product);
    } else {
      WrapLarge(product);
    }
  }

  /** A demand that leaves room for its buffer is never denied; one that does not is denied if the margin
      fits. */
  lemma FitsIsCovers(demand: int, capacity: int, percent: int)
    requires 0 <= demand && 0 <= capacity && 0 <= percent <= 100 && demand + capacity < TWO_TO_63
    ensures Wrap(demand) == demand && Wrap(capacity) == capacity
    ensures Covers(capacity, percent, demand) ==> FitsWithin(demand, capacity, percent)
    ensures capacity * percent < TWO_TO_63 ==>
              (FitsWithin(demand, capacity, percent) <==> Covers(capacity, percent, demand))
  {
    MarginBounds(capacity, percent);
    WrapSmall(demand);
    WrapSmall(capacity);
    NoWrap(demand + Margin(capacity, percent));
  }

  lemma NoWrap(x: int)
    requires -TWO_TO_63 <= x < TWO_TO_63
    ensures Wrap(x) == x
  {
  }

  /** The smallest demand that leaves no room for the buffer. */
  function FirstUncovered(capacity: int, percent: int): int {
    capacity - capacity * percent / 100 + 1
  }

  /** If the margin does not fit, that demand is approved all the same. */
  lemma FirstUncoveredFits(capacity: int, percent: int)
    requires 0 <= capacity < TWO_TO_62 && 0 <= percent <= 100 && capacity * percent >= TWO_TO_63
    ensures 0 <= FirstUncovered(capacity, percent) < TWO_TO_62
    ensures !Covers(capacity, percent, FirstUncovered(capacity, percent))
    ensures FitsWithin(FirstUncovered(capacity, percent), capacity, percent)
  {
    MarginBounds(capacity, percent);
    NoWrap(FirstUncovered(capacity, percent) + Margin(capacity, percent));
  }

  /** The gate is right about every demand on a capacity exactly if the capacity's margin fits. */
  lemma MarginExact(capacity: int, percent: int)
    requires 0 <= capacity < TWO_TO_62 && 0 <= percent <= 100
    ensures (forall demand | 0 <= demand < TWO_TO_62 ::
               FitsWithin(demand, capacity, percent) <==> Covers(capacity, percent, demand))
            <==> capacity * percent < TWO_TO_63
  {
    if capacity * percent < TWO_TO_63 {
      forall demand | 0 <= demand < TWO_TO_62
        ensures FitsWithin(demand, capacity, percent) <==> Covers(capacity, percent, demand) {
        FitsIsCovers(demand, capacity, percent);
      }
    } else {
      FirstUncoveredFits(capacity, percent);
    }
  }

  lemma AmountFitsIsCovers(demand: Amount, capacity: Amount, b: Buffers)
    requires Nonnegative(demand) && Nonnegative(capacity) && Percentages(b) && AddsUp(capacity, demand)
    ensures Wrapped(demand) == demand && Wrapped(capacity) == capacity
    ensures CoversAmount(capacity, b, demand) ==> Fits(demand, capacity, b)
    ensures MarginFits(capacity, b) ==> (Fits(demand, capacity, b) <==> CoversAmount(capacity, b, demand))
  {
    FitsIsCovers(demand.cpu, capacity.cpu, b.cpu);
    FitsIsCovers(demand.memory, capacity.memory, b.memory);
  }

  function Minus(a: Amount, b: Amount): Amount {
    Amount(a.cpu - b.cpu, a.memory - b.memory)
  }

  /** Metrics are complete, and the requests of all pods and the usage of all nodes, each with the
      buffer, fit on what is left without the candidate. */
  predicate Safe(s: Snapshot, b: Buffers, n: string) {
    var rest := Minus(Total(s.nodes), Own(s.nodes, n));
    && MetricsComplete(s)
    && CoversAmount(rest, b, Requested(s.pods))
    && CoversAmount(rest, b, TotalUsage(s.nodes, s.usage))
  }

  lemma SharesInRange(s: Snapshot, b: Buffers, n: string)
    requires InRange(s, b)
    ensures var rest := Rest(s.nodes, n);
            && rest == Minus(Total(s.nodes), Own(s.nodes, n))
            && Plus(RestUsage(s.nodes, s.usage, n), OwnUsage(s.nodes, s.usage, n)) == TotalUsage(s.nodes, s.usage)
            && Nonnegative(rest) && Nonnegative(Own(s.nodes, n))
            && Nonnegative(Requested(s.pods)) && Nonnegative(TotalUsage(s.nodes, s.usage))
            && AddsUp(rest, Requested(s.pods)) && AddsUp(rest, TotalUsage(s.nodes, s.usage))
  {
    CapacitySplit(s.nodes, n);
    UsageSplit(s.nodes, s.usage, n);
    CapacityNonnegative(s.nodes, s.usage, n);
    RequestedNonnegative(s.pods);
  }

  /** Under the guard approval means exactly that removal is safe; without it the gate errs on the side
      of approval only. */
  lemma ApprovalMeaning(s: Snapshot, b: Buffers, n: string)
    requires InRange(s, b)
    ensures Safe(s, b, n) ==> Approves(s, b, n)
    ensures Guarded(s.nodes, b, n) ==> (Approves(s, b, n) <==> Safe(s, b, n))
  {
    SharesInRange(s, b, n);
    AmountFitsIsCovers(Requested(s.pods), Rest(s.nodes, n), b);
    AmountFitsIsCovers(TotalUsage(s.nodes, s.usage), Rest(s.nodes, n), b);
  }

  /** Nodes whose sums stay below 2^62. */
  ghost predicate SoundNodes(nodes: seq<Capacity>) {
    && UniqueNames(nodes) && (forall c | c in nodes :: Nonnegative(c.allocatable))
    && Total(nodes).cpu < TWO_TO_62 && Total(nodes).memory < TWO_TO_62
  }

  /** On these nodes the gate is right about removing n, whatever pods run and whatever is used. */
  ghost predicate RightAboutAll(nodes: seq<Capacity>, b: Buffers, n: string) {
    forall pods, usage | InRange(Snapshot(nodes, pods, usage), b) ::
      Approves(Snapshot(nodes, pods, usage), b, n) <==> Safe(Snapshot(nodes, pods, usage), b, n)
  }

  /** And that is so exactly under the guard, which can be checked before the gate is asked. */
  lemma GuardIsExact(nodes: seq<Capacity>, b: Buffers, n: string)
    requires SoundNodes(nodes) && Percentages(b)
    ensures RightAboutAll(nodes, b, n) <==> Guarded(nodes, b, n)
  {
    if Guarded(nodes, b, n) {
      forall pods, usage | InRange(Snapshot(nodes, pods, usage), b)
        ensures Approves(Snapshot(nodes, pods, usage), b, n) <==> Safe(Snapshot(nodes, pods, usage), b, n) {
        ApprovalMeaning(Snapshot(nodes, pods, usage), b, n);
      }
    } else {
      var s := WrongAbout(nodes, b, n);
    }
  }

  /** A demand that the gate accepts, and one too large if the margin does not fit. */
  function Excess(capacity: int, percent: int): int {
    if capacity * percent >= TWO_TO_63 then FirstUncovered(capacity, percent) else 0
  }

  /** An otherwise idle cluster with one pod, whose demand is just too large. */
  lemma WrongAbout(nodes: seq<Capacity>, b: Buffers, n: string) returns (s: Snapshot)
    requires SoundNodes(nodes) && Percentages(b) && !Guarded(nodes, b, n)
    ensures s.nodes == nodes && InRange(s, b) && Approves(s, b, n) && !Safe(s, b, n)
  {
    var usage := IdleUsage(nodes, n);
    var rest := SharesOf(nodes, n);
    var demand := ExcessFits(rest, b);
    s := Snapshot(nodes, [[demand]], usage);
    OnePod(s, b, n, demand, rest);
  }

  lemma SharesOf(nodes: seq<Capacity>, n: string) returns (rest: Amount)
    requires SoundNodes(nodes)
    ensures rest == Rest(nodes, n) == Minus(Total(nodes), Own(nodes, n))
    ensures Nonnegative(rest) && rest.cpu < TWO_TO_62 && rest.memory < TWO_TO_62
  {
    rest := Minus(Total(nodes), Own(nodes, n));
    CapacitySplit(nodes, n);
    CapacityNonnegative(nodes, map[], n);
  }

  lemma IdleUsage(nodes: seq<Capacity>, n: string) returns (usage: map<string, Amount>)
    ensures forall k | k in usage :: usage[k] == ZERO
    ensures forall c | c in nodes :: c.name in usage
    ensures TotalUsage(nodes, usage) == RestUsage(nodes, usage, n) == OwnUsage(nodes, usage, n) == ZERO
  {
    usage := ZeroUsage(nodes);
    NoUsage(nodes, usage, n);
  }

  lemma {:induction false} ZeroUsage(nodes: seq<Capacity>) returns (usage: map<string, Amount>)
    ensures forall c | c in nodes :: c.name in usage
    ensures forall k | k in usage :: usage[k] == ZERO
  {
    usage := map[];
    if nodes != [] {
      var init, last := nodes[..|nodes| - 1], nodes[|nodes| - 1];
      var before := ZeroUsage(init);
      usage := before[last.name := ZERO];
      assert nodes == init + [last];
    }
  }

  lemma ExcessFits(rest: Amount, b: Buffers) returns (demand: Amount)
    requires Nonnegative(rest) && rest.cpu < TWO_TO_62 && rest.memory < TWO_TO_62
    requires Percentages(b) && !MarginFits(rest, b)
    ensures Nonnegative(demand) && demand.cpu < TWO_TO_62 && demand.memory < TWO_TO_62
    ensures Wrapped(demand) == demand && Wrapped(rest) == rest && Wrapped(ZERO) == ZERO
    ensures Fits(demand, rest, b) && Fits(ZERO, rest, b) && !CoversAmount(rest, b, demand)
  {
    demand := Amount(Excess(rest.cpu, b.cpu), Excess(rest.memory, b.memory));
    DemandFits(rest.cpu, b.cpu);
    DemandFits(rest.memory, b.memory);
  }

  lemma OnePod(s: Snapshot, b: Buffers, n: string, demand: Amount, rest: Amount)
    requires s.pods == [[demand]] && MetricsComplete(s) && SoundNodes(s.nodes) && SoundFigures(s.nodes, s.usage)
    requires TotalUsage(s.nodes, s.usage) == RestUsage(s.nodes, s.usage, n) == OwnUsage(s.nodes, s.usage, n) == ZERO
    requires rest == Rest(s.nodes, n) == Minus(Total(s.nodes), Own(s.nodes, n))
    requires Percentages(b) && Nonnegative(demand) && demand.cpu < TWO_TO_62 && demand.memory < TWO_TO_62
    requires Wrapped(demand) == demand && Wrapped(rest) == rest && Wrapped(ZERO) == ZERO
    requires Fits(demand, rest, b) && Fits(ZERO, rest, b) && !CoversAmount(rest, b, demand)
    ensures InRange(s, b) && Approves(s, b, n) && !Safe(s, b, n)
  {
    SingleRequest(demand);
    OnePodInRange(s, b, demand);
    assert WrapPlus(ZERO, ZERO) == ZERO;
  }

  lemma OnePodInRange(s: Snapshot, b: Buffers, demand: Amount)
    requires s.pods == [[demand]] && SoundNodes(s.nodes) && SoundFigures(s.nodes, s.usage)
    requires TotalUsage(s.nodes, s.usage) == ZERO && Requested(s.pods) == demand
    requires Percentages(b) && Nonnegative(demand) && demand.cpu < TWO_TO_62 && demand.memory < TWO_TO_62
    ensures InRange(s, b)
  {
    forall p | p in s.pods ensures AllNonnegative(p) {
      assert p == [demand];
    }
  }

  lemma DemandFits(capacity: int, percent: int)
    requires 0 <= capacity < TWO_TO_62 && 0 <= percent <= 100
    ensures var demand := Excess(capacity, percent);
            && 0 <= demand < TWO_TO_62 && Wrap(demand) == demand && Wrap(capacity) == capacity && Wrap(0) == 0
            && FitsWithin(demand, capacity, percent) && FitsWithin(0, capacity, percent)
            && (capacity * percent >= TWO_TO_63 ==> !Covers(capacity, percent, demand))
  {
    NothingIsCovered(capacity, percent);
    FitsIsCovers(0, capacity, percent);
    if capacity * percent >= TWO_TO_63 {
      FirstUncoveredFits(capacity, percent);
    }
    NoWrap(Excess(capacity, percent));
  }

  lemma NothingIsCovered(capacity: int, percent: int)
    requires 0 <= capacity && 0 <= percent <= 100
    ensures Covers(capacity, percent, 0)
  {
    var product := capacity * percent;
    assert product <= capacity * 100;
  }

  lemma {:induction false} NoUsage(nodes: seq<Capacity>, usage: map<string, Amount>, n: string)
    requires forall k | k in usage :: usage[k] == ZERO
    ensures TotalUsage(nodes, usage) == ZERO && RestUsage(nodes, usage, n) == ZERO && OwnUsage(nodes, usage, n) == ZERO
  {
    if nodes != [] {
      NoUsage(nodes[..|nodes| - 1], usage, n);
    }
  }

  /** What a larger capacity leaves beside its own buffer is at least as much. */
  lemma CoversMonotone(small: int, large: int, percent: int, demand: int)
    requires 0 <= small <= large && 0 <= percent <= 100 && Covers(small, percent, demand)
    ensures Covers(large, percent, demand)
  {
    var gap := large - small;
    var extra := gap * percent;
    assert extra <= gap * 100;
    assert large * percent == small * percent + extra;
    assert large * percent / 100 <= small * percent / 100 + gap;
  }

  lemma CoversAmountMonotone(small: Amount, large: Amount, b: Buffers, demand: Amount)
    requires Nonnegative(small) && Percentages(b)
    requires small.cpu <= large.cpu && small.memory <= large.memory && CoversAmount(small, b, demand)
    ensures CoversAmount(large, b, demand)
  {
    CoversMonotone(small.cpu, large.cpu, b.cpu, demand.cpu);
    CoversMonotone(small.memory, large.memory, b.memory, demand.memory);
  }

  /** If one node may go, so may any node that offers no more. */
  lemma Exchange(s: Snapshot, b: Buffers, n: string, m: string)
    requires InRange(s, b) && Guarded(s.nodes, b, n) && Approves(s, b, n)
    requires Own(s.nodes, m).cpu <= Own(s.nodes, n).cpu && Own(s.nodes, m).memory <= Own(s.nodes, n).memory
    ensures Approves(s, b, m)
  {
    ApprovalMeaning(s, b, n);
    ApprovalMeaning(s, b, m);
    SharesInRange(s, b, n);
    var small, large := Minus(Total(s.nodes), Own(s.nodes, n)), Minus(Total(s.nodes), Own(s.nodes, m));
    CoversAmountMonotone(small, large, b, Requested(s.pods));
    CoversAmountMonotone(small, large, b, TotalUsage(s.nodes, s.usage));
  }

  lemma {:induction false} RequestedOfMore(pods: seq<seq<Amount>>, more: seq<seq<Amount>>)
    requires forall p | p in more :: AllNonnegative(p)
    ensures Requested(pods).cpu <= Requested(pods + more).cpu
    ensures Requested(pods).memory <= Requested(pods + more).memory
  {
    if more == [] {
      assert pods + more == pods;
    } else {
      var last := |more| - 1;
      RequestedOfMore(pods, more[..last]);
      assert (pods + more)[..|pods + more| - 1] == pods + more[..last];
      assert more[last] in more;
      SumNonnegative(more[last]);
    }
  }

  lemma LooserCovers(capacity: int, low: int, high: int, less: int, demand: int)
    requires 0 <= capacity && 0 <= low <= high && less <= demand && Covers(capacity, high, demand)
    ensures Covers(capacity, low, less)
  {
    var tight, loose := capacity * high, capacity * low;
    assert loose <= tight;
    assert loose / 100 <= tight / 100;
  }

  lemma LooserCoversAmount(capacity: Amount, b: Buffers, c: Buffers, less: Amount, demand: Amount)
    requires Nonnegative(capacity) && Percentages(b) && Percentages(c) && b.cpu <= c.cpu && b.memory <= c.memory
    requires less.cpu <= demand.cpu && less.memory <= demand.memory
    requires CoversAmount(capacity, c, demand)
    ensures CoversAmount(capacity, b, less)
  {
    LooserCovers(capacity.cpu, b.cpu, c.cpu, less.cpu, demand.cpu);
    LooserCovers(capacity.memory, b.memory, c.memory, less.memory, demand.memory);
  }

  /** More pods, or larger buffers, only ever turn an approval into a denial. */
  lemma StricterDemandsDeny(s: Snapshot, b: Buffers, more: seq<seq<Amount>>, c: Buffers, n: string)
    requires b.cpu <= c.cpu && b.memory <= c.memory
    requires InRange(s, b) && InRange(s.(pods := s.pods + more), c) && Guarded(s.nodes, c, n)
    requires Approves(s.(pods := s.pods + more), c, n)
    ensures Approves(s, b, n)
  {
    var t := s.(pods := s.pods + more);
    ApprovalMeaning(s, b, n);
    ApprovalMeaning(t, c, n);
    forall p | p in more ensures AllNonnegative(p) {
      assert p in t.pods;
    }
    RequestedOfMore(s.pods, more);
    SharesInRange(s, b, n);
    var rest, used := Minus(Total(s.nodes), Own(s.nodes, n)), TotalUsage(s.nodes, s.usage);
    LooserCoversAmount(rest, b, c, Requested(s.pods), Requested(t.pods));
    LooserCoversAmount(rest, b, c, used, used);
  }

  /** Out of range the verdict can be wrong: with 10^17 bytes left and a full buffer, the product
      wraps to a negative margin, and a demand that leaves no room for the buffer is approved. */
  lemma OverflowApproves(m: int)
    requires m == 100_000_000_000_000_000
    ensures var s := Snapshot([Capacity("a", ZERO), Capacity("b", Amount(0, m))], [[Amount(0, m)]],
                              map["a" := ZERO, "b" := ZERO]);
            Approves(s, Buffers(0, 100), "a") && !Safe(s, Buffers(0, 100), "a")
  {
    PairSums(Amount(0, m));
    FullBufferOverflows(m);
  }

  lemma FullBufferOverflows(m: int)
    requires m == 100_000_000_000_000_000
    ensures FitsWithin(m, m, 100) && FitsWithin(0, m, 100) && FitsWithin(0, 0, 0)
    ensures Wrapped(Amount(0, m)) == Amount(0, m) && Wrapped(ZERO) == ZERO
    ensures !Covers(m, 100, m)
  {
  }

  lemma PairSums(big: Amount)
    ensures var s := Snapshot([Capacity("a", ZERO), Capacity("b", big)], [[big]], map["a" := ZERO, "b" := ZERO]);
            && Requested(s.pods) == big && Total(s.nodes) == Rest(s.nodes, "a") == big && Own(s.nodes, "a") == ZERO
            && RestUsage(s.nodes, s.usage, "a") == OwnUsage(s.nodes, s.usage, "a") == ZERO
  {
    var a, c := Capacity("a", ZERO), Capacity("b", big);
    var usage := map["a" := ZERO, "b" := ZERO];
    assert [a, c] == [a] + [c] && [a] == [] + [a];
    RestLast([], a, usage, "a");
    RestLast([a], c, usage, "a");
    OwnUsageLast([], a, usage, "a");
    OwnUsageLast([a], c, usage, "a");
    SingleRequest(big);
  }

  lemma RestLast(init: seq<Capacity>, last: Capacity, usage: map<string, Amount>, n: string)
    ensures var nodes := init + [last];
            && Rest(nodes, n) == (if last.name == n then Rest(init, n) else Plus(Rest(init, n), last.allocatable))
            && RestUsage(nodes, usage, n)
               == (if last.name == n then RestUsage(init, usage, n)
                   else Plus(RestUsage(init, usage, n), UsageOf(usage, last.name)))
            && Own(nodes, n) == (if last.name == n then last.allocatable else Own(init, n))
            && Total(nodes) == Plus(Total(init), last.allocatable)
  {
    assert (init + [last])[..|init|] == init;
  }

  lemma SingleRequest(r: Amount)
    ensures Requested([[r]]) == r
  {
    assert [r][..0] == [] && SumOf([r]) == r;
    assert [[r]][..0] == [];
  }
}
