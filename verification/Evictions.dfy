/** What a drain evicts, and how often, told from the history alone. */
module Evictions {
  import opened Prelude
  import opened Clock
  import opened Cluster
  import opened Settings
  import opened Journal
  import opened Findings
  import opened ShutdownOrder

  predicate AnyCordon(e: Event) {
    Write(e) && e.call.UpdateNode? && e.call.node.unschedulable
  }

  /** The node cordoned last in this loop. */
  ghost function LastCordon(h: History): Option<string> {
    match h
    case Start(_) => None
    case Then(past, _, e, _) =>
      if StartsLoop(e) then None
      else if AnyCordon(e) then Some(e.call.node.name)
      else LastCordon(past)
  }

  /** The pods listed last in this loop. */
  ghost function LastPods(h: History): seq<Pod> {
    match h
    case Start(_) => []
    case Then(past, _, e, _) =>
      if StartsLoop(e) then []
      else if e.Called? && e.call.ListPods? && e.reply.Pods? then e.reply.pods
      else LastPods(past)
  }

  /** Since the last cordon the eviction of this very pod was accepted. */
  ghost predicate AcceptedSince(h: History, namespace: string, name: string, uid: string) {
    match h
    case Start(_) => false
    case Then(past, _, e, _) =>
      && !StartsLoop(e) && !AnyCordon(e)
      && (|| (e.Called? && e.call == Evict(namespace, name, uid) && e.reply.Done?)
          || AcceptedSince(past, namespace, name, uid))
  }

  /** The monitor's account of evictions. */
  ghost predicate Followed(h: History, m: Monitor) {
    && m.pods == LastPods(h)
    && (InDrain(m.stage) ==> LastCordon(h) == Some(m.stage.name))
    && AcceptedFollowed(h, m.accepted)
  }

  ghost predicate SomeAccepted(h: History, key: string) {
    exists a, b, c :: AcceptedSince(h, a, b, c) && EvictionKey(a, b, c) == key
  }

  predicate InDrain(s: Stage) {
    s.Cordoned? || s.Emptied? || s.Unmounted? || s.Detached?
  }

  lemma StillAccepted(h: History, key: string)
    requires h.Then? && !StartsLoop(h.event) && !AnyCordon(h.event) && SomeAccepted(h.past, key)
    ensures SomeAccepted(h, key)
  {
    var a, b, c :| AcceptedSince(h.past, a, b, c) && EvictionKey(a, b, c) == key;
    assert AcceptedSince(h, a, b, c);
  }

  ghost predicate AcceptedFollowed(h: History, accepted: set<string>) {
    && (forall a, b, c | AcceptedSince(h, a, b, c) :: EvictionKey(a, b, c) in accepted)
    && (forall k | k in accepted :: SomeAccepted(h, k))
  }

  lemma CallAccepted(h: History, m: Monitor)
    requires h.Then? && h.event.Called? && AcceptedFollowed(h.past, m.accepted)
    ensures AcceptedFollowed(h, AfterCall(m, h.event.call, h.event.reply).accepted)
  {
    var accepted := AfterCall(m, h.event.call, h.event.reply).accepted;
    if !AnyCordon(h.event) {
      forall key | key in accepted ensures SomeAccepted(h, key) {
        if key in m.accepted {
          StillAccepted(h, key);
        } else {
          assert AcceptedSince(h, h.event.call.namespace, h.event.call.pod, h.event.call.uid);
        }
      }
    }
  }

  lemma CallFollowed(cfg: Config, h: History, m: Monitor)
    requires h.Then? && h.event.Called? && Followed(h.past, m)
    requires StepTruthful(h.past.state.memory, h.seen, h.event, h.state)
    requires CallAllowed(cfg, m, h.past.state.world.clock, h.seen, h.event.call, h.event.reply)
    ensures Followed(h, AfterCall(m, h.event.call, h.event.reply))
  {
    CallAccepted(h, m);
  }

  lemma NoteFollowed(cfg: Config, h: History, m: Monitor)
    requires h.Then? && !h.event.Called? && !StartsLoop(h.event) && Followed(h.past, m)
    ensures Followed(h, After(cfg, m, h.past.state.memory, h.seen, h.event))
  {
    var k := After(cfg, m, h.past.state.memory, h.seen, h.event);
    forall key | key in k.accepted ensures SomeAccepted(h, key) {
      StillAccepted(h, key);
    }
  }

  lemma {:induction false} AlwaysFollowed(cfg: Config, h: History)
    requires Truthful(h) && Justified(cfg, h)
    ensures Followed(h, Replay(cfg, h))
  {
    if h.Then? {
      AlwaysFollowed(cfg, h.past);
      var m := Replay(cfg, h.past);
      if h.event.Called? {
        CallFollowed(cfg, h, m);
      } else if !StartsLoop(h.event) {
        NoteFollowed(cfg, h, m);
      }
    }
  }

  /** Every eviction is that of a pod which the last listing shows on the node cordoned last, by name and
      UID: it is no blocking, static or daemon set pod and was not going already. And the eviction of that
      pod has not been accepted before in this drain. */
  lemma EvictionDiscipline(cfg: Config, h: History, namespace: string, name: string, uid: string)
    requires Truthful(h) && Justified(cfg, h)
    requires h.Then? && h.event.Called? && h.event.call == Evict(namespace, name, uid)
    ensures LastCordon(h.past).Some?
    ensures exists p :: p in LastPods(h.past) && SameIdentity(p, namespace, name, uid)
                        && p.node == LastCordon(h.past).value && !MustStay(p) && !Resident(p) && !p.terminating
    ensures !AcceptedSince(h.past, namespace, name, uid)
  {
    AlwaysFollowed(cfg, h.past);
    var p :| p in LastPods(h.past) && SameIdentity(p, namespace, name, uid) && Evictable(p, LastCordon(h.past).value);
    BlockersMustStay(p);
  }

  // ----- Keys

  predicate SlashFree(s: string) {
    '/' !in s
  }

  /** Names without a slash can be told from the joined key. */
  lemma EvictionKeyInjective(a: string, b: string, c: string, x: string, y: string, z: string)
    requires SlashFree(a) && SlashFree(b) && SlashFree(x) && SlashFree(y)
    requires EvictionKey(a, b, c) == EvictionKey(x, y, z)
    ensures a == x && b == y && c == z
  {
    assert EvictionKey(a, b, c) == a + "/" + (b + "/" + c);
    assert EvictionKey(x, y, z) == x + "/" + (y + "/" + z);
    HeadOfKey(a, b + "/" + c, x, y + "/" + z);
    HeadOfKey(b, c, y, z);
  }

  lemma HeadOfKey(a: string, rest: string, x: string, tail: string)
    requires SlashFree(a) && SlashFree(x) && a + "/" + rest == x + "/" + tail
    ensures a == x && rest == tail
  {
    var key := a + "/" + rest;
    assert key[|a|] == '/' && (x + "/" + tail)[|x|] == '/';
    assert forall i | 0 <= i < |a| :: key[i] == a[i];
    assert forall i | 0 <= i < |x| :: key[i] == x[i];
    assert key[..|a|] == a && key[..|x|] == x;
    assert key[|a| + 1..] == rest && key[|x| + 1..] == tail;
  }

  /** All the names the cluster has ever shown are free of slashes, as Kubernetes demands. */
  ghost predicate NamesSlashFree(h: History) {
    match h
    case Start(_) => true
    case Then(past, _, e, _) =>
      && NamesSlashFree(past)
      && (e.Called? && e.call.ListPods? && e.reply.Pods? ==>
            forall p | p in e.reply.pods :: SlashFree(p.namespace) && SlashFree(p.name))
  }

  lemma {:induction false} ListedSlashFree(h: History)
    requires NamesSlashFree(h)
    ensures forall p | p in LastPods(h) :: SlashFree(p.namespace) && SlashFree(p.name)
  {
    if h.Then? {
      ListedSlashFree(h.past);
    }
  }

  lemma {:induction false} AcceptedSlashFree(cfg: Config, h: History, a: string, b: string, c: string)
    requires Truthful(h) && Justified(cfg, h) && NamesSlashFree(h) && AcceptedSince(h, a, b, c)
    ensures SlashFree(a) && SlashFree(b)
  {
    if h.event.Called? && h.event.call == Evict(a, b, c) && h.event.reply.Done? {
      EvictionDiscipline(cfg, h, a, b, c);
      ListedSlashFree(h.past);
    } else {
      AcceptedSlashFree(cfg, h.past, a, b, c);
    }
  }

  /** So no pod is ever passed over for another one: a drain skips a pod as already evicted exactly when
      the eviction of that very pod was accepted. */
  lemma SkippedOnlyIfAccepted(cfg: Config, h: History, p: Pod)
    requires Lawful(h) && Disciplined(cfg, h) && NamesSlashFree(h)
    requires SlashFree(p.namespace) && SlashFree(p.name)
    ensures EvictionKey(p.namespace, p.name, p.uid) in Watch(cfg, h).accepted
            <==> AcceptedSince(h, p.namespace, p.name, p.uid)
  {
    Open(cfg, h);
    AlwaysFollowed(cfg, h);
    var key := EvictionKey(p.namespace, p.name, p.uid);
    if key in Replay(cfg, h).accepted {
      var a, b, c :| AcceptedSince(h, a, b, c) && EvictionKey(a, b, c) == key;
      AcceptedSlashFree(cfg, h, a, b, c);
      EvictionKeyInjective(a, b, c, p.namespace, p.name, p.uid);
    }
  }
}
