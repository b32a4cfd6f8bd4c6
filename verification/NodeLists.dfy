/** Listing managed nodes and selecting among them. */
module NodeLists {
  import opened Prelude
  import opened Clock
  import opened Cluster
  import opened Settings
  import opened Journal
  import opened ApiServer
  import opened Scheduling
  import opened Tracker

  ghost predicate DistinctNames(nodes: seq<Node>) {
    forall i, j | 0 <= i < j < |nodes| :: nodes[i].name != nodes[j].name
  }

  /** The nodes of a set, each once, in any order. */
  ghost predicate Lists(nodes: seq<Node>, s: set<Node>) {
    DistinctNames(nodes) && Elements(nodes) == s
  }

  ghost function ManagedOf(cfg: Config, listing: seq<Node>): set<Node> {
    set x | x in listing && Managed(cfg, x)
  }

  ghost function EligibleOf(cfg: Config, listing: seq<Node>, m: Memory, now: Time): set<Node> {
    set x | x in listing && Managed(cfg, x) && ShutdownEligible(cfg, x, m, now)
  }

  /** The autoscaler's memory is what its tracker holds. */
  ghost predicate Steady(cfg: Config, api: Api, tracker: NodeStateTracker)
    reads api, tracker
  {
    Orderly(cfg, api) && api.history.state.memory == tracker.View()
  }

  method ListManagedNodes(cfg: Config, api: Api, ctx: Context) returns (nodes: Option<seq<Node>>)
    requires Orderly(cfg, api) && MayCall(Watch(cfg, api.history), ctx)
    modifies api`world, api`history
    ensures Orderly(cfg, api) && api.history.state.memory == old(api.history.state.memory)
    ensures api.world.clock >= old(api.world.clock)
    ensures var m, k := old(Watch(cfg, api.history)), Watch(cfg, api.history);
            match nodes
            case None => k == m && Unanswered(old(api.history), api.history)
            case Some(list) => && k.listing.Some? && k == Listed(m, k.listing.value)
                               && IsListing(k.listing.value, api.world)
                               && Lists(list, ManagedOf(cfg, k.listing.value)) && !Denied(api.history)
                               && Elements(list) <= Encountered(api.history)
    ensures Outside(old(api.world), api.world)
    ensures FacesKept(old(api.history), api.history) && Grown(old(api.history), api.history)
  {
    var reply := api.ListNodes(ctx);
    Permit(cfg, api.history);
    Refusal(cfg, api.history);
    FacesKeptStep(old(api.history), api.history, api.history.event);
    if reply.Refused? {
      return None;
    }
    Meeting(cfg, api.history);
    var result: seq<Node> := SelectManaged(cfg, reply.nodes);
    nodes := Some(result);
  }

  method SelectManaged(cfg: Config, listing: seq<Node>) returns (result: seq<Node>)
    requires DistinctNames(listing)
    ensures Lists(result, ManagedOf(cfg, listing))
  {
    result := [];
    for i := 0 to |listing|
      invariant Lists(result, ManagedOf(cfg, listing[..i]))
    {
      var node := listing[i];
      assert listing[..i + 1] == listing[..i] + [node];
      if Lookup(node.labels, cfg.managedLabel) != "true" {
        continue;
      }
      if Lookup(node.labels, cfg.disabledLabel) == "true" {
        continue;
      }
      if exists k :: k in cfg.ignoreLabels && k in node.labels {
        continue;
      }
      ListsOneMore(result, ManagedOf(cfg, listing[..i]), node);
      result := result + [node];
    }
    assert listing[..|listing|] == listing;
  }

  lemma ListsOneMore(nodes: seq<Node>, s: set<Node>, node: Node)
    requires Lists(nodes, s) && forall x | x in s :: x.name != node.name
    ensures Lists(nodes + [node], s + {node})
  {
    forall i | 0 <= i < |nodes| ensures nodes[i].name != node.name {
      assert nodes[i] in Elements(nodes);
    }
  }

  /** Names are as many as nodes. */
  lemma NamesOfList(nodes: seq<Node>, s: set<Node>)
    requires Lists(nodes, s)
    ensures |set x | x in s :: x.name| == |nodes| == |s|
  {
    var names := seq(|nodes|, i requires 0 <= i < |nodes| => nodes[i].name);
    DistinctLength(names);
    DistinctLength(nodes);
    assert Elements(names) == set x | x in s :: x.name by {
      forall x | x in s ensures x.name in names {
        assert x in Elements(nodes);
        var i :| 0 <= i < |nodes| && nodes[i] == x;
        assert names[i] == x.name;
      }
      forall n | n in names ensures n in set x | x in s :: x.name {
        var i :| 0 <= i < |names| && names[i] == n;
        assert nodes[i] in s;
      }
    }
  }

  lemma EligibleNamesOf(cfg: Config, eligible: seq<Node>, listing: seq<Node>, m: Memory, now: Time)
    requires Lists(eligible, EligibleOf(cfg, listing, m, now))
    ensures EligibleNames(cfg, listing, m, now) == set x | x in eligible :: x.name
    ensures |EligibleNames(cfg, listing, m, now)| == |eligible|
    ensures forall x | x in eligible :: ShutdownEligible(cfg, x, m, now)
  {
    var s := EligibleOf(cfg, listing, m, now);
    assert forall x :: x in eligible <==> x in s;
    NamesOfList(eligible, s);
    assert EligibleNames(cfg, listing, m, now) == set x | x in s :: x.name;
    assert (set x | x in eligible :: x.name) == set x | x in s :: x.name;
  }

  // ----- Selections

  method ListActive(cfg: Config, tracker: NodeStateTracker, nodes: seq<Node>, ghost listing: seq<Node>)
    returns (active: seq<Node>)
    requires Lists(nodes, ManagedOf(cfg, listing))
    ensures Lists(active, ActiveOf(cfg, listing, tracker.View()))
  {
    active := [];
    ghost var m := tracker.View();
    for i := 0 to |nodes|
      invariant Lists(active, ActiveOf(cfg, nodes[..i], m))
    {
      var node := nodes[i];
      assert nodes[..i + 1] == nodes[..i] + [node];
      assert node in Elements(nodes);
      if node.unschedulable {
        continue;
      }
      if IgnoredExactly(node, cfg.ignoreLabels) {
        continue;
      }
      if POWERED_OFF in node.annotations || tracker.IsPoweredOff(node.name) {
        continue;
      }
      if node.ready {
        ListsOneMore(active, ActiveOf(cfg, nodes[..i], m), node);
        active := active + [node];
      }
    }
    assert nodes[..|nodes|] == nodes;
    assert forall x :: x in nodes <==> x in Elements(nodes);
  }

  /** The nodes that may be shut down, in random order. */
  method FilterShutdownEligibleNodes(cfg: Config, tracker: NodeStateTracker, nodes: seq<Node>, now: Time,
                                     ghost listing: seq<Node>) returns (eligible: seq<Node>)
    requires Lists(nodes, ManagedOf(cfg, listing))
    ensures Lists(eligible, EligibleOf(cfg, listing, tracker.View(), now))
  {
    eligible := [];
    ghost var m := tracker.View();
    for i := 0 to |nodes|
      invariant Lists(eligible, EligibleOf(cfg, nodes[..i], m, now))
    {
      var node := nodes[i];
      assert nodes[..i + 1] == nodes[..i] + [node];
      assert node in Elements(nodes);
      if IgnoredExactly(node, cfg.ignoreLabels) {
        continue;
      }
      if POWERED_OFF in node.annotations || tracker.IsPoweredOff(node.name) {
        continue;
      }
      if node.unschedulable {
        continue;
      }
      if tracker.IsInCooldown(node.name, now, cfg.cooldown) {
        continue;
      }
      if BootCooldownActive(tracker, node, now, cfg.bootCooldown) {
        continue;
      }
      ListsOneMore(eligible, EligibleOf(cfg, nodes[..i], m, now), node);
      eligible := eligible + [node];
    }
    assert nodes[..|nodes|] == nodes;
    assert forall x :: x in nodes <==> x in Elements(nodes);
    eligible := Shuffle(eligible);
  }

  /** The boot time kept on the node counts first, then the one remembered. */
  predicate BootCooldownActive(tracker: NodeStateTracker, node: Node, now: Time, cooldown: Duration)
    reads tracker
    ensures BootCooldownActive(tracker, node, now, cooldown) <==> InBootCooldown(node, tracker.View(), now, cooldown)
  {
    if BOOTED_AT in node.annotations && node.annotations[BOOTED_AT].Stamp?
       && Sub(now, Instant(node.annotations[BOOTED_AT].seconds)) < cooldown then true
    else tracker.IsBootCooldownActive(node.name, now, cooldown)
  }

  /** Any permutation. */
  method Shuffle(nodes: seq<Node>) returns (shuffled: seq<Node>)
    requires DistinctNames(nodes)
    ensures Lists(shuffled, Elements(nodes))
  {
    shuffled := [];
    var left := nodes;
    while left != []
      invariant DistinctNames(left) && DistinctNames(shuffled)
      invariant Elements(left) + Elements(shuffled) == Elements(nodes)
      invariant forall x, y | x in left && y in shuffled :: x.name != y.name
      decreases |left|
    {
      var i: int := *;
      if i < 0 || |left| <= i {
        i := 0;
      }
      var x := left[i];
      var rest := left[..i] + left[i + 1..];
      assert left == left[..i] + [x] + left[i + 1..];
      assert Elements(left) == Elements(rest) + {x};
      assert x !in rest;
      ListsOneMore(shuffled, Elements(shuffled), x);
      shuffled := shuffled + [x];
      left := rest;
    }
  }

  // ----- Powered-off nodes, oldest first

  datatype Item = Item(name: string, since: Time)

  function Items(nodes: seq<Node>, m: Memory): seq<Item> {
    if nodes == [] then []
    else
      var last := nodes[|nodes| - 1];
      Items(nodes[..|nodes| - 1], m)
      + (if OffSince(last, m).Some? then [Item(last.name, OffSince(last, m).value)] else [])
  }

  ghost predicate Oldest(items: seq<Item>, i: nat)
    requires i < |items|
  {
    forall j | 0 <= j < |items| :: items[i].since <= items[j].since
  }

  lemma {:induction false} SomeOldest(items: seq<Item>)
    requires items != []
    ensures exists i: nat :: i < |items| && Oldest(items, i)
  {
    var last := |items| - 1;
    if last == 0 {
      assert Oldest(items, 0);
    } else {
      SomeOldest(items[..last]);
      var i: nat :| i < last && Oldest(items[..last], i);
      assert Oldest(items, i) || Oldest(items, last);
    }
  }

  ghost predicate AscendingSince(items: seq<Item>) {
    forall i, j | 0 <= i < j < |items| :: items[i].since <= items[j].since
  }

  /** Takes out an item than which none is older. */
  method TakeOldest(items: seq<Item>) returns (x: Item, rest: seq<Item>)
    requires items != []
    ensures multiset(items) == multiset(rest) + multiset{x} && |rest| == |items| - 1
    ensures forall y | y in rest :: x.since <= y.since
  {
    SomeOldest(items);
    var i: nat :| i < |items| && forall j | 0 <= j < |items| :: items[i].since <= items[j].since;
    x := items[i];
    rest := items[..i] + items[i + 1..];
    assert items == items[..i] + [x] + items[i + 1..];
  }

  lemma AppendAscending(sorted: seq<Item>, x: Item)
    requires AscendingSince(sorted) && forall y | y in sorted :: y.since <= x.since
    ensures AscendingSince(sorted + [x])
  {
  }

  /** Sorts by time, leaving the order of equal times open. */
  method SortBySince(items: seq<Item>) returns (sorted: seq<Item>)
    ensures multiset(sorted) == multiset(items) && AscendingSince(sorted)
  {
    sorted := [];
    var left := items;
    while left != []
      invariant multiset(sorted) + multiset(left) == multiset(items)
      invariant AscendingSince(sorted)
      invariant forall a: Item, b: Item | a in sorted && b in multiset(left) :: a.since <= b.since
      decreases |left|
    {
      var x, rest := TakeOldest(left);
      assert forall y: Item | y in sorted :: y.since <= x.since;
      AppendAscending(sorted, x);
      sorted := sorted + [x];
      left := rest;
    }
  }

  /** The powered-off nodes among the managed ones, each once, the longest off first. */
  ghost predicate OldestFirst(names: seq<string>, nodes: seq<Node>, m: Memory) {
    exists items :: multiset(items) == multiset(Items(nodes, m)) && AscendingSince(items) && NamesOf(names, items)
  }

  ghost predicate NamesOf(names: seq<string>, items: seq<Item>) {
    |names| == |items| && forall i | 0 <= i < |names| :: names[i] == items[i].name
  }

  method NamesOldestFirst(tracker: NodeStateTracker, nodes: seq<Node>) returns (names: seq<string>)
    ensures OldestFirst(names, nodes, tracker.View())
  {
    var list: seq<Item> := [];
    ghost var m := tracker.View();
    for i := 0 to |nodes|
      invariant list == Items(nodes[..i], m)
    {
      var node := nodes[i];
      assert nodes[..i + 1][..i] == nodes[..i];
      var since := PoweredOffSince(node);
      if since.Some? {
        list := list + [Item(node.name, since.value)];
        continue;
      }
      if tracker.IsPoweredOff(node.name) {
        list := list + [Item(node.name, 0)];
      }
    }
    assert nodes[..|nodes|] == nodes;
    var sorted := SortBySince(list);
    names := [];
    for i := 0 to |sorted|
      invariant |names| == i && forall j | 0 <= j < i :: names[j] == sorted[j].name
    {
      names := names + [sorted[i].name];
    }
    assert NamesOf(names, sorted);
  }
}
