/** The autoscaler's configuration. */
module Settings {
  import opened Prelude
  import opened Clock
  import opened Cluster

  /** How the cluster-wide load is aggregated. */
  datatype EvalMode = Average | Median | P90 | P75

  datatype Config = Config(
    minNodes: int,
    cooldown: Duration,
    bootCooldown: Duration,
    drainTimeout: Duration,
    ignoreLabels: map<string, string>,
    managedLabel: string,
    disabledLabel: string,
    macKey: string,
    bufferCpuPercent: int,
    bufferMemoryPercent: int,
    dryRun: bool,
    forcePowerOn: bool,
    loadAverage: bool,
    nodeThreshold: real,
    scaleDownThreshold: real,
    scaleUpThreshold: real,
    evalMode: EvalMode,
    excludeFromAggregate: map<string, string>,
    rotation: bool,
    maxPoweredOff: Duration,
    exemptLabel: string,
    nodeLoadOverride: Option<real>,
    clusterLoadDownOverride: Option<real>,
    clusterLoadUpOverride: Option<real>)

  /** Nodes the autoscaler may act on: managed, not disabled, and carrying none of the ignored label keys. */
  predicate Managed(cfg: Config, node: Node) {
    && Lookup(node.labels, cfg.managedLabel) == "true"
    && Lookup(node.labels, cfg.disabledLabel) != "true"
    && (forall k | k in cfg.ignoreLabels :: k !in node.labels)
  }

  /** The two label rules applied after listing never fire on a managed node. */
  lemma ManagedIsNeverIgnored(cfg: Config, node: Node)
    requires Managed(cfg, node)
    ensures !IgnoredByLabels(node, cfg.ignoreLabels) && !IgnoredExactly(node, cfg.ignoreLabels)
  {
  }

  predicate RotationExempt(cfg: Config, node: Node) {
    cfg.exemptLabel != "" && Lookup(node.labels, cfg.exemptLabel) != ""
  }

  /** A managed node on which work may be scheduled and which is not marked powered off. */
  predicate InService(cfg: Config, node: Node) {
    Managed(cfg, node) && !node.unschedulable && POWERED_OFF !in node.annotations
  }

  function ServiceNames(cfg: Config, w: World): set<string> {
    set n | n in w.nodes && InService(cfg, w.nodes[n])
  }

  const GRACE: Duration := 2 * MINUTE

  /** Up, marked off, cordoned, and marked long enough ago for its shutdown to have had effect. */
  predicate NeedsRecovery(cfg: Config, node: Node, now: Time) {
    && node.ready && POWERED_OFF in node.annotations && !IgnoredByLabels(node, cfg.ignoreLabels)
    && node.unschedulable
    && var since := PoweredOffSince(node); !(since.Some? && Sub(now, since.value) < GRACE)
  }

  /** A node that needs recovery does so from then on. */
  lemma NeedPersists(cfg: Config, node: Node, now: Time, later: Time)
    requires now <= later && NeedsRecovery(cfg, node, now)
    ensures NeedsRecovery(cfg, node, later)
  {
  }
}
