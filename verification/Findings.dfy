/** What has been read and found in a reconcile loop, taken from the history alone. */
module Findings {
  import opened Prelude
  import opened Clock
  import opened Cluster
  import opened Settings
  import opened Journal
  import Resources
  import LoadGates

  /** The answer to the last listing of all nodes in this loop, if no node was written and no candidate
      picked since. */
  ghost function NodesSeen(h: History): Option<seq<Node>> {
    match h
    case Start(_) => None
    case Then(past, _, e, _) =>
      if StartsLoop(e) || Write(e) || e.Chosen? then None
      else if e.Called? && e.call.ListNodes? && e.reply.Nodes? then Some(e.reply.nodes)
      else NodesSeen(past)
  }

  /** What is read for one decision does not count for the next. */
  predicate OpensDecision(e: Event) {
    StartsLoop(e) || e.Deciding? || e.Filtered? || e.Chosen?
  }

  /** The answers to the last listing of all pods, of the metrics, and to the last question for each load,
      in this decision. */
  ghost function PodsSeen(h: History): Option<seq<Pod>> {
    match h
    case Start(_) => None
    case Then(past, _, e, _) =>
      if OpensDecision(e) then None
      else if e.Called? && e.call.ListAllPods? && e.reply.Pods? then Some(e.reply.pods)
      else PodsSeen(past)
  }

  ghost function UsageSeen(h: History): Option<map<string, Resources.Amount>> {
    match h
    case Start(_) => None
    case Then(past, _, e, _) =>
      if OpensDecision(e) then None
      else if e.Called? && e.call.ListUsage? && e.reply.Usages? then Some(e.reply.usage)
      else UsageSeen(past)
  }

  ghost function LoadsSeen(h: History): map<string, real> {
    match h
    case Start(_) => map[]
    case Then(past, _, e, _) =>
      if OpensDecision(e) then map[]
      else if e.Called? && e.call.FetchLoad? then
        if e.reply.Load? then LoadsSeen(past)[e.call.name := e.reply.load] else LoadsSeen(past) - {e.call.name}
      else LoadsSeen(past)
  }

  ghost predicate Sighted(h: History, m: Monitor) {
    m.listing == NodesSeen(h) && m.readings == Readings(PodsSeen(h), UsageSeen(h), LoadsSeen(h))
  }

  lemma CallSighted(h: History, m: Monitor)
    requires h.Then? && h.event.Called? && Sighted(h.past, m)
    ensures Sighted(h, AfterCall(m, h.event.call, h.event.reply))
  {
  }

  lemma NoteSighted(cfg: Config, h: History, m: Monitor)
    requires h.Then? && !h.event.Called? && Sighted(h.past, m)
    ensures Sighted(h, After(cfg, m, h.past.state.memory, h.seen, h.event))
  {
  }

  /** What the monitor holds to be read was read. */
  lemma {:induction false} AlwaysSighted(cfg: Config, h: History)
    ensures Sighted(h, Replay(cfg, h))
  {
    if h.Then? {
      AlwaysSighted(cfg, h.past);
      if h.event.Called? {
        CallSighted(h, Replay(cfg, h.past));
      } else {
        NoteSighted(cfg, h, Replay(cfg, h.past));
      }
    }
  }

  // ----- Pods, told apart by their fields; the theorems speak of these

  /** Static pods, and those of a daemon set, are at home on their node. */
  predicate Resident(p: Pod) {
    "kubernetes.io/config.mirror" in p.annotations || p.controller == Some("DaemonSet")
  }

  /** An unfinished pod that forbids its eviction, or is nobody's or a job's, or holds a device. */
  predicate MustStay(p: Pod) {
    && p.phase != Succeeded && p.phase != Failed
    && (|| (&& "cluster-autoscaler.kubernetes.io/safe-to-evict" in p.annotations
            && p.annotations["cluster-autoscaler.kubernetes.io/safe-to-evict"] == "false")
        || (!Resident(p) && (p.controller == None || p.controller == Some("Job") || HoldsDevice(p))))
  }

  predicate HoldsDevice(p: Pod) {
    exists c, r :: c in p.containers + p.initContainers && r in c && '/' in r && c[r] != 0
  }

  lemma BlockersMustStay(p: Pod)
    ensures SkipDrain(p) <==> Resident(p)
    ensures DrainBlocker(p) <==> MustStay(p)
  {
    assert (exists c :: c in p.containers + p.initContainers && UsesExtendedResource(c)) <==> HoldsDevice(p);
  }

  /** The loads are those answered, and the nodes those listed if they matter. */
  ghost predicate LoadsAreSeen(h: History, s: LoadGates.Snapshot, nodesMatter: bool) {
    s.loads == LoadsSeen(h) && (nodesMatter ==> NodesSeen(h) == Some(s.nodes))
  }

  /** The figures of a gate are what the cluster answered. */
  ghost predicate EvidenceSeen(cfg: Config, h: History, e: Evidence, n: string) {
    match e
    case ResourceFigures(nodes, pods, usage) =>
      NodesSeen(h) == Some(nodes) && PodsSeen(h) == Some(pods) && UsageSeen(h) == Some(usage)
    case LoadFigures(s) => LoadsAreSeen(h, s, NodesMatter(cfg, s, n))
  }
}
