/** Finding a powered-off node that is due for rotation, and how that search agrees with the order in
    which scale-up takes powered-off nodes. */
module Rotation {
  import opened Prelude
  import opened Clock
  import opened Cluster
  import opened Settings
  import opened Journal
  import opened NodeLists
  import opened ScaleUp

  /** Marked off, and not excused from rotation. */
  predicate Rotatable(cfg: Config, node: Node) {
    !RotationExempt(cfg, node) && !IgnoredByLabels(node, cfg.ignoreLabels) && PoweredOffSince(node).Some?
  }

  function OffAge(node: Node, now: Time): Duration
    requires PoweredOffSince(node).Some?
  {
    Sub(now, PoweredOffSince(node).value)
  }

  /** age is the greatest off age among the nodes, if any is positive. */
  ghost predicate GreatestAge(cfg: Config, nodes: seq<Node>, now: Time, age: Duration) {
    && age >= 0
    && (forall x | x in nodes && Rotatable(cfg, x) :: OffAge(x, now) <= age)
    && (age > 0 ==> exists x :: x in nodes && Rotatable(cfg, x) && OffAge(x, now) == age)
  }

  /** A node due for rotation, none of which was marked earlier. */
  ghost predicate FirstDue(cfg: Config, nodes: seq<Node>, now: Time, x: Node) {
    && x in nodes && Rotatable(cfg, x) && OffAge(x, now) >= cfg.maxPoweredOff
    && forall y | y in nodes && Rotatable(cfg, y) && OffAge(y, now) >= cfg.maxPoweredOff ::
         PoweredOffSince(x).value <= PoweredOffSince(y).value
  }

  /** One loop finds both the greatest off age and the overdue node marked first. A node is overdue
      exactly when the greatest age reaches the limit, and that node then has this age and was marked
      before every other rotatable node, overdue or not. */
  method FindOverdue(cfg: Config, nodes: seq<Node>, now: Time) returns (overdue: Option<Node>, maxOffAge: Duration)
    requires cfg.maxPoweredOff > 0
    ensures GreatestAge(cfg, nodes, now, maxOffAge)
    ensures overdue.Some? <==> maxOffAge >= cfg.maxPoweredOff
    ensures overdue.Some? ==>
              && FirstDue(cfg, nodes, now, overdue.value) && OffAge(overdue.value, now) == maxOffAge
              && forall y | y in nodes && Rotatable(cfg, y) ::
                   PoweredOffSince(overdue.value).value <= PoweredOffSince(y).value
  {
    overdue, maxOffAge := None, 0;
    for i := 0 to |nodes|
      invariant GreatestAge(cfg, nodes[..i], now, maxOffAge)
      invariant overdue.Some? <==> maxOffAge >= cfg.maxPoweredOff
      invariant overdue.Some? ==>
                  FirstDue(cfg, nodes[..i], now, overdue.value) && OffAge(overdue.value, now) == maxOffAge
    {
      var n := nodes[i];
      assert nodes[..i + 1] == nodes[..i] + [n];
      if RotationExempt(cfg, n) {
        continue;
      }
      if IgnoredByLabels(n, cfg.ignoreLabels) {
        continue;
      }
      var since := PoweredOffSince(n);
      if since.Some? {
        var age := Sub(now, since.value);
        if age > maxOffAge {
          maxOffAge := age;
        }
        if age >= cfg.maxPoweredOff {
          if overdue.None? || since.value < PoweredOffSince(overdue.value).value {
            overdue := Some(n);
          }
        }
      }
    }
    assert nodes[..|nodes|] == nodes;
  }

  /** What the search finds is an overdue node of the listing, and the one marked first. */
  lemma DueIsOverdue(cfg: Config, nodes: seq<Node>, listing: seq<Node>, now: Time, x: Node)
    requires Lists(nodes, ManagedOf(cfg, listing)) && FirstDue(cfg, nodes, now, x)
    ensures OldestOverdue(cfg, listing, x, now)
  {
    assert x in Elements(nodes);
    forall y | y in listing && Overduely(cfg, y, now)
      ensures PoweredOffSince(x).value <= PoweredOffSince(y).value
    {
      assert y in Elements(nodes);
      ManagedIsNeverIgnored(cfg, y);
    }
  }

  /** Without exempt nodes, and with every node held to be off also marked off, rotation and scale-up
      agree: on the same listing, the node found overdue was marked at the same time as the head of the
      list from which scale-up takes its node. */
  lemma RotationAgreesWithScaleUp(cfg: Config, nodes: seq<Node>, listing: seq<Node>, m: Memory, now: Time,
                                  x: Node, names: seq<string>)
    requires Lists(nodes, ManagedOf(cfg, listing)) && FirstDue(cfg, nodes, now, x) && cfg.maxPoweredOff > 0
    requires forall y | y in listing && Managed(cfg, y) ::
               !RotationExempt(cfg, y) && (y.name in m.off ==> PoweredOffSince(y).Some?)
    requires OldestFirst(names, nodes, m)
    ensures names != []
    ensures exists y :: y in listing && Managed(cfg, y) && y.name == names[0]
              && PoweredOffSince(y).Some? && PoweredOffSince(y) == PoweredOffSince(x)
  {
    ghost var items :| multiset(items) == multiset(Items(nodes, m)) && AscendingSince(items) && NamesOf(names, items);
    assert x in Elements(nodes);
    var i := Item(x.name, PoweredOffSince(x).value);
    ItemsAre(nodes, m, i);
    assert i in multiset(items);
    HeadIsLongestOff(cfg, names, nodes, listing, m);
    var y :| y in listing && Managed(cfg, y) && y.name == names[0] && OffSince(y, m).Some?
             && forall z | z in listing && Managed(cfg, z) && OffSince(z, m).Some? ::
                  OffSince(y, m).value <= OffSince(z, m).value;
    assert y in Elements(nodes);
    ManagedIsNeverIgnored(cfg, y);
    assert Rotatable(cfg, y);
    OlderIsOverdueToo(cfg, now, x, y);
  }

  lemma OlderIsOverdueToo(cfg: Config, now: Time, x: Node, y: Node)
    requires PoweredOffSince(x).Some? && PoweredOffSince(y).Some?
    requires PoweredOffSince(y).value <= PoweredOffSince(x).value && OffAge(x, now) >= cfg.maxPoweredOff
    ensures OffAge(y, now) >= cfg.maxPoweredOff
  {
  }

  /** Every name in the list is that of a managed node that counts as off. */
  lemma NamedIsOff(cfg: Config, nodes: seq<Node>, listing: seq<Node>, m: Memory, names: seq<string>, n: string)
    requires Lists(nodes, ManagedOf(cfg, listing)) && OldestFirst(names, nodes, m) && n in names
    ensures exists x :: x in nodes && Managed(cfg, x) && x in listing && x.name == n && OffSince(x, m).Some?
  {
    var items :| multiset(items) == multiset(Items(nodes, m)) && AscendingSince(items) && NamesOf(names, items);
    var i :| 0 <= i < |names| && names[i] == n;
    assert items[i] in multiset(items);
    ItemsAre(nodes, m, items[i]);
    var x :| x in nodes && OffSince(x, m).Some? && items[i] == Item(x.name, OffSince(x, m).value);
    assert x in Elements(nodes);
  }

  /** And every such node is named. */
  lemma OffIsNamed(cfg: Config, nodes: seq<Node>, listing: seq<Node>, m: Memory, names: seq<string>, x: Node)
    requires Lists(nodes, ManagedOf(cfg, listing)) && OldestFirst(names, nodes, m)
    requires x in listing && Managed(cfg, x) && OffSince(x, m).Some?
    ensures x.name in names
  {
    var items :| multiset(items) == multiset(Items(nodes, m)) && AscendingSince(items) && NamesOf(names, items);
    assert x in Elements(nodes);
    var i := Item(x.name, OffSince(x, m).value);
    ItemsAre(nodes, m, i);
    assert i in multiset(items);
    var k :| 0 <= k < |items| && items[k] == i;
    assert names[k] == x.name;
  }

  /** On the same listing, no node is taken both for active and for powered off. */
  lemma ActiveIsNotOff(cfg: Config, nodes: seq<Node>, listing: seq<Node>, m: Memory, names: seq<string>, x: Node)
    requires Lists(nodes, ManagedOf(cfg, listing)) && OldestFirst(names, nodes, m)
    requires x in ActiveOf(cfg, listing, m)
    ensures x.name !in names
  {
    assert x in Elements(nodes);
    forall n | n in names ensures n != x.name {
      NamedIsOff(cfg, nodes, listing, m, names, n);
    }
  }

  /** The list of powered-off nodes names exactly the managed nodes that count as off, each once. */
  lemma ListsExactlyTheOff(cfg: Config, nodes: seq<Node>, listing: seq<Node>, m: Memory, names: seq<string>)
    requires Lists(nodes, ManagedOf(cfg, listing)) && OldestFirst(names, nodes, m)
    ensures Elements(names) == set x | x in listing && Managed(cfg, x) && OffSince(x, m).Some? :: x.name
    ensures |names| == |Elements(names)|
  {
    var off := set x | x in nodes && OffSince(x, m).Some? :: x.name;
    assert forall x :: x in nodes <==> x in Elements(nodes);
    forall n | n in names ensures n in off {
      NamedIsOff(cfg, nodes, listing, m, names, n);
    }
    forall x | x in nodes && OffSince(x, m).Some? ensures x.name in names {
      OffIsNamed(cfg, nodes, listing, m, names, x);
    }
    assert Elements(names) == off;
    OffCount(nodes, m);
    var items :| multiset(items) == multiset(Items(nodes, m)) && AscendingSince(items) && NamesOf(names, items);
    assert |items| == |multiset(items)| == |Items(nodes, m)|;
  }

  lemma {:induction false} OffCount(nodes: seq<Node>, m: Memory)
    requires DistinctNames(nodes)
    ensures |Items(nodes, m)| == |set x | x in nodes && OffSince(x, m).Some? :: x.name|
  {
    var names := set x | x in nodes && OffSince(x, m).Some? :: x.name;
    if nodes == [] {
      assert names == {};
    } else {
      var init, last := nodes[..|nodes| - 1], nodes[|nodes| - 1];
      OffCount(init, m);
      var before := set x | x in init && OffSince(x, m).Some? :: x.name;
      assert nodes == init + [last];
      assert last.name !in before;
      assert names == if OffSince(last, m).Some? then before + {last.name} else before;
    }
  }
}
