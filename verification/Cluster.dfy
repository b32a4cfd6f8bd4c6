/** The objects the autoscaler reads and writes through the Kubernetes API. */
module Cluster {
  import opened Prelude
  import opened Clock
  import Resources

  const POWERED_OFF := "cba.dev/was-powered-off"
  const BOOTED_AT := "cba.dev/booted-at"
  const MAC_AUTO := "cba.dev/mac-address"
  const MAC_MANUAL := "cba.dev/mac-address-override"

  const MIRROR := "kubernetes.io/config.mirror"
  const SAFE_TO_EVICT := "cluster-autoscaler.kubernetes.io/safe-to-evict"

  /** An annotation value: an RFC 3339 time stamp, or any text that is not one. */
  datatype Value = Stamp(seconds: int) | Text(text: string)

  datatype Node = Node(
    name: string,
    labels: map<string, string>,
    annotations: map<string, Value>,
    unschedulable: bool,
    ready: bool,
    volumesInUse: set<string>,
    allocatable: Resources.Amount,
    version: nat)

  datatype PodPhase = Pending | Running | Succeeded | Failed | Unknown

  /** controller is the kind of the owner reference marked as controller, if there is one; containers and
      init containers are given by their limits, and requests are those of the containers. */
  datatype Pod = Pod(
    namespace: string,
    name: string,
    uid: string,
    node: string,
    phase: PodPhase,
    annotations: map<string, string>,
    controller: Option<string>,
    containers: seq<map<string, int>>,
    initContainers: seq<map<string, int>>,
    requests: seq<Resources.Amount>,
    terminating: bool)

  datatype Attachment = Attachment(name: string, node: string)

  /** What the API server stores, and the wall clock. */
  datatype World = World(
    clock: Time,
    revision: nat,
    nodes: map<string, Node>,
    pods: set<Pod>,
    attachments: set<Attachment>)

  /** The server files a node under its name and stamps every object with the revision that wrote it. */
  predicate WellFormed(w: World) {
    forall n | n in w.nodes :: w.nodes[n].name == n && w.nodes[n].version <= w.revision
  }

  /** What any other party may do to the cluster: everything, except turn back the clock or
      change a node without giving it a version that was not in use before. */
  predicate Outside(pre: World, post: World) {
    && pre.clock <= post.clock
    && pre.revision <= post.revision
    && WellFormed(post)
    && (forall n | n in post.nodes ::
          (n in pre.nodes && post.nodes[n] == pre.nodes[n]) || post.nodes[n].version > pre.revision)
  }

  /** Store a new version of a node. */
  function Put(w: World, node: Node): World {
    w.(revision := w.revision + 1,
       nodes := w.nodes[node.name := node.(version := w.revision + 1)])
  }

  /** A JSON merge patch of annotations: null removes a key, anything else sets it. */
  type Patch = map<string, Option<Value>>

  function MergePatch(annotations: map<string, Value>, patch: Patch): map<string, Value> {
    map k | k in annotations.Keys + patch.Keys && (k in patch ==> patch[k].Some?) ::
      if k in patch then patch[k].value else annotations[k]
  }

  function Patched(node: Node, patch: Patch): Node {
    node.(annotations := MergePatch(node.annotations, patch))
  }

  function Lookup(labels: map<string, string>, key: string): string {
    if key in labels then labels[key] else ""
  }

  /** The part of a node that power management writes. */
  datatype Face = Face(unschedulable: bool, mark: Option<Value>, booted: Option<Value>)

  function Annotation(node: Node, key: string): Option<Value> {
    if key in node.annotations then Some(node.annotations[key]) else None
  }

  function FaceOf(node: Node): Face {
    Face(node.unschedulable, Annotation(node, POWERED_OFF), Annotation(node, BOOTED_AT))
  }

  function FaceIn(w: World, n: string): Option<Face> {
    if n in w.nodes then Some(FaceOf(w.nodes[n])) else None
  }

  /** The effect of a patch on one annotation. */
  function PatchedValue(value: Option<Value>, patch: Patch, key: string): Option<Value> {
    if key in patch then patch[key] else value
  }

  function PatchedFace(f: Face, patch: Patch): Face {
    Face(f.unschedulable, PatchedValue(f.mark, patch, POWERED_OFF), PatchedValue(f.booted, patch, BOOTED_AT))
  }

  /** When the node was marked powered off. A mark that is not a time stamp counts as the epoch,
      an empty one as no mark. */
  function PoweredOffSince(node: Node): Option<Time> {
    if POWERED_OFF !in node.annotations then None
    else match node.annotations[POWERED_OFF]
      case Stamp(s) => Some(Instant(s))
      case Text(t) => if t == "" then None else Some(0)
  }

  /** The rule for the exempt and ignored labels outside node listing: an empty rule value asks
      for the key alone. */
  predicate IgnoredByLabels(node: Node, rules: map<string, string>) {
    exists k :: k in rules && k in node.labels && (rules[k] == "" || rules[k] == node.labels[k])
  }

  /** The rule a wrapped node applies: the exact value is required. */
  predicate IgnoredExactly(node: Node, rules: map<string, string>) {
    exists k :: k in rules && k in node.labels && rules[k] == node.labels[k]
  }

  /** Static pods and daemon set pods stay on a drained node. */
  predicate SkipDrain(p: Pod) {
    MIRROR in p.annotations || p.controller == Some("DaemonSet")
  }

  predicate UsesExtendedResource(limits: map<string, int>) {
    exists r :: r in limits && '/' in r && limits[r] != 0
  }

  /** Pods whose presence forbids draining their node. */
  predicate DrainBlocker(p: Pod) {
    if p.phase == Succeeded || p.phase == Failed then false
    else if Lookup(p.annotations, SAFE_TO_EVICT) == "false" then true
    else if SkipDrain(p) then false
    else if p.controller == None || p.controller == Some("Job") then true
    else exists c :: c in p.containers + p.initContainers && UsesExtendedResource(c)
  }

  predicate SameIdentity(p: Pod, namespace: string, name: string, uid: string) {
    p.namespace == namespace && p.name == name && p.uid == uid
  }

  /** Nothing that a drain has to move is left on the node. */
  predicate NothingToDrain(pods: set<Pod>, n: string) {
    forall p | p in pods && p.node == n :: SkipDrain(p)
  }

  predicate NothingAttached(attachments: set<Attachment>, n: string) {
    forall a | a in attachments :: a.node != n
  }
}
