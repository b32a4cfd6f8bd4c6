/** The history of one autoscaler and the cluster around it: what every call to the API server may
    answer, what the autoscaler has done so far in the current reconcile loop, and which step that
    permits next. */
module Journal {
  import opened Prelude
  import opened Clock
  import opened Cluster
  import opened Settings
  import Resources
  import LoadGates

  /** A call is bounded by its context's deadline, if there is one. */
  datatype Context = Background | Deadline(at: Time)

  predicate Expired(ctx: Context, t: Time) {
    ctx.Deadline? && ctx.at < t
  }

  /** A context derived from another one expires no later. */
  predicate NoLater(ctx: Context, bound: Context) {
    bound.Deadline? ==> ctx.Deadline? && ctx.at <= bound.at
  }

  function WithTimeout(ctx: Context, now: Time, timeout: Duration): Context {
    if ctx.Deadline? && ctx.at <= now + timeout then ctx else Deadline(now + timeout)
  }

  datatype ApiError = Conflict | NotFound | TooManyRequests | Failure

  datatype Call =
    | ListNodes
    | GetNode(name: string)
    | UpdateNode(node: Node)
    | PatchNode(name: string, patch: Patch)
    | ListPods(on: string)
    | ListAllPods
    | ListUsage                       // node metrics
    | FetchLoad(name: string)         // the load average a node's agent answers
    | Evict(namespace: string, pod: string, uid: string)
    | ListAttachments
    | Shutdown(name: string)
    | PowerOn(name: string, mac: Value)

  /** A refused write may have been applied all the same, when only its reply was lost. */
  datatype Reply =
    | Nodes(nodes: seq<Node>)
    | One(node: Node)
    | Pods(pods: seq<Pod>)
    | Usages(usage: map<string, Resources.Amount>)
    | Load(load: real)
    | Attachments(attachments: seq<Attachment>)
    | Done
    | Refused(error: ApiError, applied: bool)

  predicate Applied(reply: Reply) {
    reply.Done? || (reply.Refused? && reply.applied)
  }

  /** The volatile state of the autoscaler. */
  datatype Memory = Memory(
    shutdownAt: map<string, Time>,
    bootedAt: map<string, Time>,
    off: set<string>,
    lastOperation: Time)

  const BLANK := Memory(map[], map[], {}, ZERO_TIME)

  datatype MemoryOp =
    | Operation(at: Time)
    | ShutDown(name: string, at: Time)
    | Booted(name: string, at: Time)
    | Off(name: string)
    | NotOff(name: string)

  function Remember(m: Memory, op: MemoryOp): Memory {
    match op
    case Operation(t) => m.(lastOperation := t)
    case ShutDown(n, t) => m.(shutdownAt := m.shutdownAt[n := t])
    case Booted(n, t) => m.(bootedAt := m.bootedAt[n := t])
    case Off(n) => m.(off := m.off + {n})
    case NotOff(n) => m.(off := m.off - {n})
  }

  /** The figures a scale-down gate decided on. */
  datatype Evidence =
    | ResourceFigures(nodes: seq<Node>, pods: seq<Pod>, usage: map<string, Resources.Amount>)
    | LoadFigures(loads: LoadGates.Snapshot)

  /** The powered-off node that scale-up would take. */
  datatype Head = Unsought | Nobody | Longest(name: string)

  datatype Event =
    | Called(ctx: Context, call: Call, reply: Reply)
    | Begin(ctx: Context)                            // a reconcile loop starts and reads the time
    | Tick                                           // the time is read
    | Waited(d: Duration)                            // at least so much time passes
    | Swept                                          // the memory is reconciled with the listed nodes
    | Deciding                                       // scale-up is about to be decided
    | Counted(active: nat)                           // the active nodes are counted
    | Headed(head: Head)                             // the node off the longest is looked for
    | Measured(figures: LoadGates.Snapshot)          // the load of the cluster is taken
    | Wanted(name: string)                           // a scale-up strategy asks for a node
    | Forcing                                        // all listed nodes that are not up are to be powered on
    | Filtered(now: Time)                            // shutdown-eligible nodes are computed
    | Chosen(name: string)                           // a scale-down candidate is picked
    | Verdict(name: string, evidence: Evidence, ok: bool)
    | DrainStarts(name: string)                      // the drain of a candidate starts, and reads the time
    | DrainEnds(name: string)                        // it is over, one way or the other
    | Aborting(name: string)                         // a scale-down is being rolled back
    | Alarm(name: string)                            // a rollback step failed and was logged
    | Overdue(node: Node, now: Time)                 // a node is found due for rotation
    | Weighed(name: string, figures: LoadGates.Snapshot)  // a node that could be retired instead is looked at
    | Affordable                                     // rotation may go ahead
    | Rotated(name: string)
    | Noted(op: MemoryOp)
    | Restarted                                      // a new process, with an empty memory

  datatype State = State(world: World, memory: Memory)

  /** Before each event the outside world makes one move, from the last state to what is seen. */
  datatype History = Start(state: State) | Then(past: History, seen: World, event: Event, state: State)

  // ----- What the API server answers

  ghost predicate IsListing(items: seq<Node>, w: World) {
    && (forall i, j | 0 <= i < j < |items| :: items[i].name != items[j].name)
    && (forall x | x in items :: x.name in w.nodes && w.nodes[x.name] == x)
    && (forall n | n in w.nodes :: w.nodes[n] in items)
  }

  /** Every pod, each once. */
  ghost predicate IsCensus(pods: seq<Pod>, w: World) {
    Distinct(pods) && Elements(pods) == w.pods
  }

  /** An accepted eviction removes the pod, marks it terminating, or leaves that for later. */
  predicate EvictionEffect(pre: set<Pod>, post: set<Pod>, namespace: string, name: string, uid: string) {
    && (forall p | p in post :: p in pre || (SameIdentity(p, namespace, name, uid) && p.(terminating := false) in pre))
    && (forall p | p in pre && !SameIdentity(p, namespace, name, uid) :: p in post)
  }

  ghost predicate Answers(seen: World, call: Call, reply: Reply, post: World) {
    match call
    case ListNodes => post == seen && (reply.Refused? || (reply.Nodes? && IsListing(reply.nodes, seen)))
    case GetNode(n) =>
      post == seen && (reply.Refused? || (reply.One? && n in seen.nodes && reply.node == seen.nodes[n]))
    case UpdateNode(node) =>
      && (reply.Done? || reply.Refused?)
      && (if Applied(reply) then
            && reply != Refused(Conflict, true)
            && node.name in seen.nodes && seen.nodes[node.name].version == node.version
            && post == Put(seen, node)
          else post == seen)
    case PatchNode(n, patch) =>
      && (reply.Done? || reply.Refused?)
      && (if Applied(reply) then n in seen.nodes && post == Put(seen, Patched(seen.nodes[n], patch))
          else post == seen)
    case ListPods(n) =>
      && post == seen
      && (reply.Refused?
          || (&& reply.Pods?
              && (forall p | p in reply.pods :: p in seen.pods)
              && (forall p | p in seen.pods && p.node == n :: p in reply.pods)))
    case Evict(namespace, name, uid) =>
      && (reply.Done? || reply.Refused?)
      && (if Applied(reply) then
            && (exists p :: p in seen.pods && SameIdentity(p, namespace, name, uid))
            && post == seen.(pods := post.pods)
            && EvictionEffect(seen.pods, post.pods, namespace, name, uid)
          else post == seen)
    case ListAllPods =>
      post == seen && (reply.Refused? || (reply.Pods? && IsCensus(reply.pods, seen)))
    case ListUsage => post == seen && (reply.Refused? || reply.Usages?)
    case FetchLoad(_) => post == seen && (reply.Refused? || reply.Load?)
    case ListAttachments =>
      && post == seen
      && (reply.Refused?
          || (reply.Attachments? && forall a :: a in reply.attachments <==> a in seen.attachments))
    case Shutdown(_) => post == seen && (reply.Done? || reply.Refused?)
    case PowerOn(_, _) => post == seen && (reply.Done? || reply.Refused?)
  }

  /** What the autoscaler remembers after an event. */
  function Recall(m: Memory, e: Event): Memory {
    match e
    case Noted(op) => Remember(m, op)
    case Restarted => BLANK
    case _ => m
  }

  ghost predicate StepTruthful(memory: Memory, seen: World, e: Event, post: State) {
    && post.memory == Recall(memory, e)
    && (if e.Called? then
          Answers(seen, e.call, e.reply, post.world) && (Expired(e.ctx, seen.clock) ==> e.reply.Refused?)
        else post.world == seen)
  }

  /** The cluster behaved as an API server and an arbitrary outside world do. */
  ghost predicate Truthful(h: History) {
    match h
    case Start(s) => WellFormed(s.world)
    case Then(past, seen, e, s) =>
      && Truthful(past)
      && Outside(past.state.world, seen)
      && StepTruthful(past.state.memory, seen, e, s)
      && WellFormed(s.world)
  }

  // ----- What the autoscaler has done in this loop

  datatype Gate = ResourceAware | LoadAverage

  /** The configured chain of scale-down gates. */
  function Chain(cfg: Config): seq<Gate> {
    [ResourceAware] + (if cfg.loadAverage then [LoadAverage] else [])
  }

  function GateOf(e: Evidence): Gate {
    match e
    case ResourceFigures(_, _, _) => ResourceAware
    case LoadFigures(_) => LoadAverage
  }

  function BuffersOf(cfg: Config): Resources.Buffers {
    Resources.Buffers(cfg.bufferCpuPercent, cfg.bufferMemoryPercent)
  }

  function CapacitiesOf(nodes: seq<Node>): seq<Resources.Capacity> {
    seq(|nodes|, i requires 0 <= i < |nodes| => Resources.Capacity(nodes[i].name, nodes[i].allocatable))
  }

  function RequestsOf(pods: seq<Pod>): seq<seq<Resources.Amount>> {
    seq(|pods|, i requires 0 <= i < |pods| => pods[i].requests)
  }

  predicate Approves(cfg: Config, e: Evidence, n: string) {
    match e
    case ResourceFigures(nodes, pods, usage) =>
      Resources.Approves(Resources.Snapshot(CapacitiesOf(nodes), RequestsOf(pods), usage), BuffersOf(cfg), n)
    case LoadFigures(s) => LoadGates.DownVerdict(cfg, s, n) == Ok(true)
  }

  predicate MarkedOff(node: Node, m: Memory) {
    POWERED_OFF in node.annotations || node.name in m.off
  }

  predicate InShutdownCooldown(m: Memory, n: string, now: Time, d: Duration) {
    n in m.shutdownAt && Sub(now, m.shutdownAt[n]) < d
  }

  /** The boot time is read from the node first, so that it survives a restart. */
  predicate InBootCooldown(node: Node, m: Memory, now: Time, d: Duration) {
    || (BOOTED_AT in node.annotations && node.annotations[BOOTED_AT].Stamp?
        && Sub(now, Instant(node.annotations[BOOTED_AT].seconds)) < d)
    || (node.name in m.bootedAt && Sub(now, m.bootedAt[node.name]) < d)
  }

  predicate GlobalCooldownActive(m: Memory, now: Time, d: Duration) {
    Sub(now, m.lastOperation) < d
  }

  predicate ShutdownEligible(cfg: Config, node: Node, m: Memory, now: Time) {
    && !IgnoredExactly(node, cfg.ignoreLabels)
    && !MarkedOff(node, m)
    && !node.unschedulable
    && !InShutdownCooldown(m, node.name, now, cfg.cooldown)
    && !InBootCooldown(node, m, now, cfg.bootCooldown)
  }

  ghost function EligibleNames(cfg: Config, listing: seq<Node>, m: Memory, now: Time): set<string> {
    set x | x in listing && Managed(cfg, x) && ShutdownEligible(cfg, x, m, now) :: x.name
  }

  /** Managed nodes that take work: schedulable, not marked off, and ready. */
  predicate IsActive(cfg: Config, node: Node, m: Memory) {
    !node.unschedulable && !IgnoredExactly(node, cfg.ignoreLabels) && !MarkedOff(node, m) && node.ready
  }

  ghost function ActiveOf(cfg: Config, listing: seq<Node>, m: Memory): set<Node> {
    set x | x in listing && Managed(cfg, x) && IsActive(cfg, x, m)
  }

  /** Since when a node counts as powered off: by its mark, or else, if only the memory says so, since
      the epoch. */
  function OffSince(node: Node, m: Memory): Option<Time> {
    match PoweredOffSince(node)
    case Some(t) => Some(t)
    case None => if node.name in m.off then Some(0) else None
  }

  /** The managed node that has been off for the longest time, of those listed. */
  ghost predicate LongestOff(cfg: Config, listing: seq<Node>, m: Memory, n: string) {
    exists x :: x in listing && Managed(cfg, x) && x.name == n && OffSince(x, m).Some?
      && forall y | y in listing && Managed(cfg, y) && OffSince(y, m).Some? ::
           OffSince(x, m).value <= OffSince(y, m).value
  }

  ghost predicate HeadIs(cfg: Config, listing: seq<Node>, m: Memory, head: Head) {
    match head
    case Unsought => false
    case Nobody => forall x | x in listing && Managed(cfg, x) :: OffSince(x, m).None?
    case Longest(n) => LongestOff(cfg, listing, m, n)
  }

  ghost function DownNames(cfg: Config, listing: seq<Node>): set<string> {
    set x | x in listing && Managed(cfg, x) && !x.ready :: x.name
  }

  /** Every managed node that is up and not marked off is not held to be off. */
  ghost predicate Reconciled(cfg: Config, listing: seq<Node>, m: Memory) {
    forall x | x in listing && Managed(cfg, x) && x.ready && PoweredOffSince(x).None? :: x.name !in m.off
  }

  /** How far the shutdown of a node has got. */
  datatype Stage =
    | Restoring                  // a new process has not begun its first loop
    | Idle
    | Vetting(name: string, approvals: nat)
    | Cordoned(name: string)
    | Emptied(name: string)      // a poll after the cordon saw nothing left to drain
    | Unmounted(name: string)    // and no volume was in use after that
    | Detached(name: string)     // and no volume was attached after that
    | Marked(name: string)       // and the off mark is stored
    | Sent(name: string)         // the host accepted the shutdown
    | RollingBack(name: string)

  predicate Draining(s: Stage, n: string) {
    s == Cordoned(n) || s == Emptied(n) || s == Unmounted(n) || s == Detached(n)
  }

  /** A drain has a time limit, and has seen that no pod blocks it or has not. */
  datatype DrainBound = NoDrain | DrainUntil(at: Time, screened: bool)

  /** What single writes to nodes leave as it is. */
  datatype Loop = Loop(
    ctx: Context,
    begun: Time,
    overdue: Option<Node>,     // the node found due for rotation, as listed
    alarmed: bool,
    candidate: Candidate,
    known: Option<seq<Node>>,  // the listing the memory was reconciled with
    recovered: set<string>,    // nodes whose off mark was replaced by a boot time
    drain: DrainBound,              // the drain under way
    retracted: bool)                // the off mark was removed in the rollback of the candidate's shutdown

  datatype Work = Work(
    operations: nat,           // operations recorded in this loop
    roster: Option<seq<Node>>, // the first listing of nodes in this loop
    eligible: set<string>,     // the nodes last found eligible for shutdown
    cleared: set<string>,      // nodes whose off mark was removed in this loop, or since one was found overdue
    owed: set<string>,         // nodes powered on whose off entry in memory is still to be removed
    powered: set<string>,      // nodes whose hosts were powered on
    stamped: set<string>,      // nodes for which a boot time was stored since
    released: set<string>)     // nodes that were uncordoned

  /** The scale-down candidate chosen last, the world at that time, and whether its off mark was
      stored, with the reply arriving or getting lost. */
  datatype Candidate = Candidate(name: string, entry: World, markKnown: bool, markLost: bool)

  /** What was read for the gates since the last choice. */
  datatype Readings = Readings(
    census: Option<seq<Pod>>,
    usage: Option<map<string, Resources.Amount>>,
    loads: map<string, real>)

  const NOTHING_READ := Readings(None, None, map[])

  /** What scale-up and rotation found out, and which nodes that entitles them to power on. */
  datatype Plan = Plan(
    decided: bool,             // scale-up has been decided on
    current: bool,             // and no node was written since
    active: Option<nat>,
    head: Head,
    nobody: bool,              // no node was off at some time
    measured: Option<LoadGates.Snapshot>,
    asked: Option<string>,     // the node the strategies asked for
    due: bool,                 // a node was found due for rotation, and no node was written since
    sized: bool,               // eligible nodes were computed since a node was found due for rotation
    weighed: map<string, LoadGates.Snapshot>,
    wanted: Option<string>,    // the node to be powered on next
    forced: Option<seq<Node>>) // the listing by which all nodes are powered on

  const NO_PLAN := Plan(false, false, None, Unsought, false, None, None, false, false, map[], None, None)

  datatype Monitor = Monitor(
    loop: Loop,
    work: Work,
    plan: Plan,
    readings: Readings,
    listing: Option<seq<Node>>, // the last listing of nodes, until a node is written
    stage: Stage,
    pods: seq<Pod>,            // the last listing of pods
    attempted: set<string>,    // evictions attempted since then
    accepted: set<string>,     // evictions accepted since the cordon
    face: Option<Face>)        // the candidate's face at entry, with the writes to it since

  function Fresh(ctx: Context, w: World): Monitor {
    Monitor(Loop(ctx, w.clock, None, false, Candidate("", w, false, false), None, {}, NoDrain, false),
            Work(0, None, {}, {}, {}, {}, {}, {}), NO_PLAN, NOTHING_READ, None, Idle, [], {}, {}, None)
  }

  /** The key under which an accepted eviction is kept. */
  function EvictionKey(namespace: string, name: string, uid: string): string {
    namespace + "/" + name + "/" + uid
  }

  predicate NothingToMove(pods: seq<Pod>, n: string) {
    forall p | p in pods && p.node == n :: SkipDrain(p)
  }

  predicate NoneAttached(attachments: seq<Attachment>, n: string) {
    forall a | a in attachments :: a.node != n
  }

  /** A write that is no step of the shutdown protocol ends the protocol. */
  function Interrupted(m: Monitor): Monitor {
    m.(stage := if m.stage.RollingBack? then m.stage else Idle, work := m.work.(eligible := {}))
  }

  /** A write to a node overtakes what was found out before. */
  function Overtaken(p: Plan): Plan {
    p.(current := false, due := false, wanted := None)
  }

  /** The same findings for scale-up and rotation, whether they still entitle to anything or not. */
  ghost predicate SamePlan(m: Monitor, k: Monitor) {
    k.plan == m.plan.(current := k.plan.current, due := k.plan.due, wanted := k.plan.wanted)
  }

  /** A stored scheduling flag: a cordon starts a drain, an uncordon ends the protocol. */
  function Rescheduled(m: Monitor, n: string, unschedulable: bool): Monitor {
    var face := if n == m.loop.candidate.name && m.face.Some? then Some(m.face.value.(unschedulable := unschedulable))
                else m.face;
    var k := m.(listing := None, face := face, plan := Overtaken(m.plan));
    if unschedulable then k.(stage := Cordoned(n), accepted := {})
    else Interrupted(k.(work := m.work.(released := m.work.released + {n})))
  }

  /** Stored annotations: the off mark of a drained node is the next step of the protocol. */
  function Annotated(m: Monitor, n: string, patch: Patch, reply: Reply): Monitor {
    var face := if n == m.loop.candidate.name && m.face.Some? then Some(PatchedFace(m.face.value, patch)) else m.face;
    var stamped := if SetsBootTime(patch) then m.work.stamped + {n} else m.work.stamped;
    var k := m.(listing := None, face := face, plan := Overtaken(m.plan), work := m.work.(stamped := stamped));
    if SetsMark(patch) && m.stage == Detached(n) then
      k.(stage := Marked(n),
         loop := m.loop.(candidate := m.loop.candidate.(markKnown := reply.Done?, markLost := reply.Refused?)))
    else if ClearsMark(patch) then
      Interrupted(k.(loop := if BOOTED_AT in patch then m.loop.(recovered := m.loop.recovered + {n})
                             else if m.stage == RollingBack(n) then m.loop.(retracted := true)
                             else m.loop,
                     work := k.work.(cleared := m.work.cleared + {n},
                                     owed := if BOOTED_AT !in patch && !m.stage.RollingBack? && reply.Done?
                                             then m.work.owed + {n} else m.work.owed)))
    else Interrupted(k)
  }

  function Listed(m: Monitor, nodes: seq<Node>): Monitor {
    m.(listing := Some(nodes), work := if m.work.roster.None? then m.work.(roster := Some(nodes)) else m.work)
  }

  predicate SetsMark(patch: Patch) {
    POWERED_OFF in patch && patch[POWERED_OFF].Some?
  }

  predicate ClearsMark(patch: Patch) {
    POWERED_OFF in patch && patch[POWERED_OFF].None?
  }

  predicate SetsBootTime(patch: Patch) {
    BOOTED_AT in patch && patch[BOOTED_AT].Some?
  }

  /** A drain that lists pods before its cordon looks for one that blocks it. */
  function Screened(d: DrainBound, pods: seq<Pod>): DrainBound {
    if d.DrainUntil? then d.(screened := forall p | p in pods :: !DrainBlocker(p)) else d
  }

  /** An eviction refused for another reason than these three ends the drain. */
  predicate StopsDrain(reply: Reply) {
    reply.Refused? && reply.error !in {TooManyRequests, Conflict, NotFound}
  }

  ghost function AfterCall(m: Monitor, call: Call, reply: Reply): Monitor {
    match call
    case ListNodes => if reply.Nodes? then Listed(m, reply.nodes) else m
    case GetNode(n) =>
      if reply.One? && m.stage == Emptied(n) && reply.node.volumesInUse == {} then m.(stage := Unmounted(n)) else m
    case UpdateNode(node) => if Applied(reply) then Rescheduled(m, node.name, node.unschedulable) else m
    case PatchNode(n, patch) => if Applied(reply) then Annotated(m, n, patch, reply) else m
    case ListPods(n) =>
      if !reply.Pods? then m
      else if !Draining(m.stage, n) then
        m.(pods := reply.pods, attempted := {}, loop := m.loop.(drain := Screened(m.loop.drain, reply.pods)))
      else m.(pods := reply.pods, attempted := {},
              stage := if NothingToMove(reply.pods, n) then Emptied(n) else Cordoned(n))
    case Evict(namespace, name, uid) =>
      var key := EvictionKey(namespace, name, uid);
      m.(attempted := m.attempted + {key}, accepted := if reply.Done? then m.accepted + {key} else m.accepted,
         loop := if StopsDrain(reply) then m.loop.(drain := NoDrain) else m.loop)
    case ListAttachments =>
      if reply.Attachments? && m.stage.Unmounted? && NoneAttached(reply.attachments, m.stage.name)
      then m.(stage := Detached(m.stage.name)) else m
    case Shutdown(n) => if reply.Done? && m.stage == Marked(n) then m.(stage := Sent(n)) else m
    case PowerOn(n, _) => PowerOnTried(m, n, reply)
    case ListAllPods => if reply.Pods? then m.(readings := m.readings.(census := Some(reply.pods))) else m
    case ListUsage => if reply.Usages? then m.(readings := m.readings.(usage := Some(reply.usage))) else m
    case FetchLoad(n) =>
      m.(readings := m.readings.(loads := if reply.Load? then m.readings.loads[n := reply.load]
                                          else m.readings.loads - {n}))
  }

  /** Each entitlement to power on is good for one attempt, except under force. */
  function PowerOnTried(m: Monitor, n: string, reply: Reply): Monitor {
    m.(plan := m.plan.(wanted := None),
       work := if reply.Done? then m.work.(powered := m.work.powered + {n}, stamped := m.work.stamped - {n})
               else m.work)
  }

  ghost function After(cfg: Config, m: Monitor, memory: Memory, seen: World, e: Event): Monitor {
    match e
    case Called(ctx, call, reply) => AfterCall(m, call, reply)
    case Begin(ctx) => Fresh(ctx, seen)
    case Filtered(now) =>
      m.(stage := Idle, plan := m.plan.(sized := true, weighed := map[]), readings := NOTHING_READ,
         work := m.work.(eligible := if m.listing.Some? then EligibleNames(cfg, m.listing.value, memory, now) else {}))
    case Swept => m.(loop := m.loop.(known := m.listing))
    case Deciding => m.(plan := NO_PLAN.(decided := true, current := true), readings := NOTHING_READ)
    case Counted(a) => m.(plan := m.plan.(active := Some(a)))
    case Headed(head) => m.(plan := m.plan.(head := head, nobody := m.plan.nobody || head.Nobody?))
    case Measured(s) => m.(plan := m.plan.(measured := Some(s)))
    case Wanted(n) => m.(plan := m.plan.(asked := Some(n), wanted := Some(n)))
    case Forcing => m.(plan := m.plan.(forced := m.listing))
    case Weighed(n, s) => m.(plan := m.plan.(weighed := m.plan.weighed[n := s]))
    case Affordable =>
      m.(plan := m.plan.(wanted := if m.loop.overdue.Some? then Some(m.loop.overdue.value.name) else None))
    case Chosen(n) =>
      m.(stage := Vetting(n, 0), face := FaceIn(seen, n), listing := None, readings := NOTHING_READ,
         loop := m.loop.(candidate := Candidate(n, seen, false, false), retracted := false))
    case Verdict(n, _, ok) =>
      m.(stage := if ok && m.stage.Vetting? then Vetting(n, m.stage.approvals + 1) else Idle)
    case DrainStarts(_) => m.(loop := m.loop.(drain := DrainUntil(seen.clock + DrainTime(cfg), false)))
    case DrainEnds(_) => m.(loop := m.loop.(drain := NoDrain))
    case Aborting(n) => m.(stage := RollingBack(n))
    case Alarm(_) => m.(loop := m.loop.(alarmed := true))
    case Overdue(x, _) =>
      m.(loop := m.loop.(overdue := Some(x)), work := m.work.(cleared := {}),
        plan := m.plan.(due := true, sized := false, wanted := None))
    case Noted(op) =>
      (match op
       case Operation(_) => m.(work := m.work.(operations := m.work.operations + 1))
       case NotOff(n) => m.(work := m.work.(owed := m.work.owed - {n}))
       case _ => m)
    case Restarted => Fresh(Background, seen).(stage := Restoring)
    case Tick => m
    case Waited(_) => m
    case Rotated(_) => m.(loop := m.loop.(overdue := None))
  }

  /** For how long a drain may go on. */
  function DrainTime(cfg: Config): Duration {
    if cfg.drainTimeout > 0 then cfg.drainTimeout else 15 * MINUTE
  }

  /** What has happened since the current reconcile loop began. */
  ghost function Replay(cfg: Config, h: History): Monitor {
    match h
    case Start(s) => Fresh(Background, s.world).(stage := Restoring)
    case Then(past, seen, e, s) => After(cfg, Replay(cfg, past), past.state.memory, seen, e)
  }

  // ----- What the autoscaler may do next

  /** The stored object differs from the submitted one at most in the scheduling flag. */
  predicate OnlyScheduling(stored: Node, submitted: Node) {
    submitted == stored.(unschedulable := submitted.unschedulable)
  }

  function MarkPatch(now: Time): Patch {
    map[POWERED_OFF := Some(Stamp(Seconds(now)))]
  }

  function BootPatch(now: Time): Patch {
    map[BOOTED_AT := Some(Stamp(Seconds(now)))]
  }

  function RecoveryPatch(now: Time): Patch {
    map[POWERED_OFF := None, BOOTED_AT := Some(Stamp(Seconds(now)))]
  }

  const CLEAR_PATCH: Patch := map[POWERED_OFF := None]

  /** Pods a drain of node n may evict: they are its own, they may move, and they are not yet going. */
  predicate Evictable(p: Pod, n: string) {
    p.node == n && !DrainBlocker(p) && !SkipDrain(p) && !p.terminating
  }

  /** The loop's first listing shows the node managed and in need of recovery, and nothing was decided on
      since. */
  ghost predicate InNeed(cfg: Config, m: Monitor, n: string, t: Time) {
    m.loop.known.None? && m.work.roster.Some?
    && exists x :: x in m.work.roster.value && x.name == n && Managed(cfg, x) && NeedsRecovery(cfg, x, t)
  }

  lemma StillInNeed(cfg: Config, m: Monitor, n: string, t: Time, u: Time)
    requires t <= u && InNeed(cfg, m, n, t)
    ensures InNeed(cfg, m, n, u)
  {
    var x :| x in m.work.roster.value && x.name == n && Managed(cfg, x) && NeedsRecovery(cfg, x, t);
    NeedPersists(cfg, x, t, u);
  }

  /** In a rollback a known mark is removed before the uncordon, unless that failed. */
  predicate MarkDealtWith(m: Monitor) {
    m.loop.candidate.markKnown ==> m.loop.alarmed || m.loop.retracted
  }

  /** An uncordon belongs to a rollback, a power-on whose boot time is stored, or a recovery. */
  ghost predicate MayRelease(cfg: Config, m: Monitor, n: string, t: Time) {
    if m.stage.RollingBack? then n == m.stage.name && MarkDealtWith(m)
    else (n in m.work.powered && n in m.work.stamped) || InNeed(cfg, m, n, t)
  }

  /** Only a mark that was acknowledged is taken back in a rollback. */
  ghost predicate MayClear(m: Monitor, n: string) {
    if m.stage.RollingBack? then n == m.stage.name && m.loop.candidate.markKnown else n in m.work.powered
  }

  /** A boot time is written for a node powered on, or recovered after its uncordon. */
  ghost predicate MayStamp(cfg: Config, m: Monitor, n: string, patch: Patch, t: Time) {
    && !m.stage.RollingBack?
    && (|| (patch == BootPatch(t) && n in m.work.powered)
        || (patch == RecoveryPatch(t) && InNeed(cfg, m, n, t) && n in m.work.released))
  }

  /** The strategies or rotation want this very node, or all nodes are forced on and this one is down. */
  ghost predicate MayPowerOn(cfg: Config, m: Monitor, n: string) {
    || m.plan.wanted == Some(n)
    || (cfg.forcePowerOn && m.plan.forced.Some? && n in DownNames(cfg, m.plan.forced.value))
  }

  ghost predicate CallAllowed(cfg: Config, m: Monitor, clock: Time, seen: World, call: Call, reply: Reply) {
    match call
    case GetNode(_) => m.stage.Emptied? ==> m.loop.drain.DrainUntil?
    case UpdateNode(node) =>
      && !cfg.dryRun
      && (node.unschedulable ==> m.loop.drain.DrainUntil? && m.loop.drain.screened)
      && (Applied(reply) ==>
            && node.name in seen.nodes && OnlyScheduling(seen.nodes[node.name], node)
            && (if node.unschedulable then m.stage == Vetting(node.name, |Chain(cfg)|)
                else MayRelease(cfg, m, node.name, clock)))
    case PatchNode(n, patch) =>
      && !cfg.dryRun
      && (|| (patch == MarkPatch(clock) && m.stage == Detached(n) && m.loop.overdue.None?)
          || (patch == CLEAR_PATCH && MayClear(m, n))
          || MayStamp(cfg, m, n, patch, clock))
    case ListPods(n) => m.loop.drain.DrainUntil? && m.loop.candidate.name == n
    case ListAttachments => m.loop.drain.DrainUntil?
    case Evict(namespace, name, uid) =>
      && !cfg.dryRun && m.loop.drain.DrainUntil?
      && m.stage.Cordoned?
      && EvictionKey(namespace, name, uid) !in m.accepted
      && (exists p :: p in m.pods && SameIdentity(p, namespace, name, uid) && Evictable(p, m.stage.name))
    case Shutdown(n) => !cfg.dryRun && m.stage == Marked(n)
    case PowerOn(n, _) => !cfg.dryRun && MayPowerOn(cfg, m, n)
    case _ => true
  }

  /** The patches there are: a mark for a drained node, its removal, and boot times. */
  ghost predicate KnownPatch(m: Monitor, n: string, patch: Patch, clock: Time) {
    || (patch == MarkPatch(clock) && m.stage == Detached(n) && m.loop.overdue.None?)
    || patch == CLEAR_PATCH || patch == BootPatch(clock) || patch == RecoveryPatch(clock)
  }

  lemma AllowedPatchKnown(cfg: Config, m: Monitor, clock: Time, seen: World, n: string, patch: Patch, reply: Reply)
    requires CallAllowed(cfg, m, clock, seen, PatchNode(n, patch), reply)
    ensures KnownPatch(m, n, patch, clock)
  {
  }

  predicate Overduely(cfg: Config, node: Node, now: Time) {
    && Managed(cfg, node) && !RotationExempt(cfg, node)
    && var since := PoweredOffSince(node);
       since.Some? && Sub(now, since.value) >= cfg.maxPoweredOff
  }

  /** The node is overdue, and no other overdue node was marked earlier. */
  ghost predicate OldestOverdue(cfg: Config, listing: seq<Node>, x: Node, now: Time) {
    && x in listing && Overduely(cfg, x, now)
    && forall y | y in listing && Overduely(cfg, y, now) ::
           PoweredOffSince(x).value <= PoweredOffSince(y).value
  }

  /** Scale-up is decided on a memory reconciled with the last listing, and with nothing owed. */
  ghost predicate MayDecide(cfg: Config, m: Monitor, memory: Memory) {
    && (!cfg.forcePowerOn ==> m.work.owed == {})
    && (cfg.dryRun || (m.listing.Some? && m.loop.known == m.listing && Reconciled(cfg, m.listing.value, memory)))
  }

  /** Too few nodes are active, or the cluster is busy. */
  predicate MoreNeeded(cfg: Config, p: Plan) {
    || (p.active.Some? && p.active.value < cfg.minNodes)
    || (cfg.loadAverage && p.measured.Some? && !LoadGates.LoadLow(cfg, p.measured.value))
  }

  /** The figures are those read last: the loads answered, and the nodes listed if they matter. */
  predicate LoadsRead(m: Monitor, s: LoadGates.Snapshot, nodesMatter: bool) {
    s.loads == m.readings.loads && (nodesMatter ==> m.listing == Some(s.nodes))
  }

  /** The nodes matter for a candidate that is idle itself, if the cluster's load is not overridden. */
  predicate NodesMatter(cfg: Config, s: LoadGates.Snapshot, n: string) {
    cfg.clusterLoadDownOverride.None? && LoadGates.LowLoad(cfg, s, n)
  }

  ghost predicate EvidenceRead(cfg: Config, m: Monitor, e: Evidence, n: string) {
    match e
    case ResourceFigures(nodes, pods, usage) =>
      m.listing == Some(nodes) && m.readings.census == Some(pods) && m.readings.usage == Some(usage)
    case LoadFigures(s) => LoadsRead(m, s, NodesMatter(cfg, s, n))
  }

  /** With one more node more than the minimum could be shut down, and one of them could be let go. */
  ghost predicate CanAfford(cfg: Config, m: Monitor) {
    && m.plan.due && |m.work.eligible| + 1 > cfg.minNodes && m.work.eligible != {}
    && (cfg.loadAverage ==>
          exists c :: c in m.work.eligible && c in m.plan.weighed
            && LoadGates.DownVerdict(cfg, m.plan.weighed[c], c) == Ok(true))
  }

  /** A process that is starting has listed nodes without seeing n. */
  ghost predicate NewlyListed(m: Monitor, n: string) {
    m.stage == Restoring && m.work.roster.Some? && forall x | x in m.work.roster.value :: x.name != n
  }

  /** Calls are made under the context of the loop or one derived from it: that of the drain within its
      time limit, and in a rollback the context of the loop itself. */
  predicate MayCall(m: Monitor, ctx: Context) {
    && NoLater(ctx, m.loop.ctx)
    && (m.stage.RollingBack? ==> ctx == m.loop.ctx)
    && (m.loop.drain.DrainUntil? ==> ctx.Deadline? && ctx.at <= m.loop.drain.at)
  }

  /** A host is given half a minute to accept its shutdown. */
  predicate ShutdownInTime(ctx: Context, call: Call, clock: Time) {
    call.Shutdown? ==> ctx.Deadline? && ctx.at <= clock + 30 * SECOND
  }

  ghost predicate Allowed(cfg: Config, m: Monitor, now: State, seen: World, e: Event) {
    match e
    case Called(ctx, call, reply) =>
      && MayCall(m, ctx) && ShutdownInTime(ctx, call, now.world.clock)
      && CallAllowed(cfg, m, now.world.clock, seen, call, reply)
    case Begin(_) => !cfg.forcePowerOn ==> m.work.owed == {}
    case Swept => m.listing.Some? && Reconciled(cfg, m.listing.value, now.memory)
    case Deciding => MayDecide(cfg, m, now.memory)
    case Counted(a) =>
      m.plan.current && m.listing.Some? && a == |ActiveOf(cfg, m.listing.value, now.memory)|
    case Headed(head) => m.plan.current && m.listing.Some? && HeadIs(cfg, m.listing.value, now.memory, head)
    case Measured(s) => m.plan.current && LoadsRead(m, s, cfg.clusterLoadUpOverride.None?)
    case Wanted(n) => m.plan.current && m.plan.head == Longest(n) && MoreNeeded(cfg, m.plan)
    case Forcing => cfg.forcePowerOn && m.listing.Some?
    case Weighed(n, s) => LoadsRead(m, s, NodesMatter(cfg, s, n))
    case Affordable => m.loop.overdue.Some? && CanAfford(cfg, m)
    case Filtered(t) => t == now.world.clock && m.listing.Some?
    case Chosen(n) =>
      m.stage == Idle && n in m.work.eligible && |m.work.eligible| > cfg.minNodes && m.loop.drain.NoDrain?
    case DrainStarts(n) => m.stage == Vetting(n, |Chain(cfg)|) && m.loop.candidate.name == n && m.loop.drain.NoDrain?
    case Verdict(n, evidence, ok) =>
      && m.stage.Vetting? && m.stage.name == n
      && m.stage.approvals < |Chain(cfg)| && GateOf(evidence) == Chain(cfg)[m.stage.approvals]
      && EvidenceRead(cfg, m, evidence, n) && (ok <==> Approves(cfg, evidence, n))
    case Aborting(n) =>
      m.loop.candidate.name == n && (m.stage in {Vetting(n, |Chain(cfg)|), Marked(n)} || Draining(m.stage, n))
    case Overdue(x, t) =>
      m.loop.begun <= t <= now.world.clock && m.listing.Some? && OldestOverdue(cfg, m.listing.value, x, t)
    case Waited(d) => m.loop.drain.DrainUntil? ==> d <= 2 * SECOND
    case Rotated(n) => m.loop.overdue.Some? && m.loop.overdue.value.name == n && n in m.work.cleared
    case Noted(op) =>
      (match op
       case Operation(t) =>
         && t == now.world.clock
         && (!cfg.forcePowerOn ==>
               m.work.operations == 0 && !GlobalCooldownActive(now.memory, m.loop.begun, cfg.cooldown))
       case ShutDown(n, t) => m.stage == Sent(n)
       case Off(n) => m.stage == Sent(n) || NewlyListed(m, n)
       case Booted(_, _) => true
       case NotOff(_) => true)
    case _ => true
  }

  /** The nodes that an entry reads. */
  ghost function NodesIn(e: Event): set<Node> {
    if e.Called? && e.call.ListNodes? && e.reply.Nodes? then Elements(e.reply.nodes)
    else if e.Called? && e.call.GetNode? && e.reply.One? then {e.reply.node}
    else {}
  }

  /** The nodes as they were read in this loop. */
  ghost function NodesMet(h: History): set<Node> {
    match h
    case Start(_) => {}
    case Then(past, _, e, _) => if StartsLoop(e) then {} else NodesMet(past) + NodesIn(e)
  }

  /** The node carries this address under the configured annotation. */
  predicate Carries(cfg: Config, node: Node, mac: Value) {
    var key := if cfg.macKey == "" then MAC_AUTO else cfg.macKey;
    mac != Text("") && key in node.annotations && node.annotations[key] == mac
  }

  /** The node carries no address there. */
  predicate Unaddressed(cfg: Config, node: Node) {
    var key := if cfg.macKey == "" then MAC_AUTO else cfg.macKey;
    key !in node.annotations || node.annotations[key] == Text("")
  }

  /** A host is woken at an address that its node, as read, carries. */
  ghost predicate Addressed(cfg: Config, met: set<Node>, e: Event) {
    e.Called? && e.call.PowerOn? ==> exists x :: x in met && x.name == e.call.name && Carries(cfg, x, e.call.mac)
  }

  /** After a power-on the off mark is removed once the node was made schedulable, or was read to be so. */
  ghost predicate SeenOpen(m: Monitor, met: set<Node>, e: Event) {
    e.Called? && e.call.PatchNode? && ClearsMark(e.call.patch) && BOOTED_AT !in e.call.patch
    && !m.stage.RollingBack? ==>
      e.call.name in m.work.released || exists x :: x in met && x.name == e.call.name && !x.unschedulable
  }

  /** What a step takes from nodes as they were read. */
  ghost predicate Informed(cfg: Config, m: Monitor, met: set<Node>, e: Event) {
    Addressed(cfg, met, e) && SeenOpen(m, met, e)
  }

  /** Every step so far was permitted by what preceded it in its reconcile loop. */
  ghost predicate Justified(cfg: Config, h: History) {
    match h
    case Start(_) => true
    case Then(past, seen, e, _) =>
      && Justified(cfg, past) && Allowed(cfg, Replay(cfg, past), past.state, seen, e)
      && Informed(cfg, Replay(cfg, past), NodesMet(past), e)
  }

  /** Outside moves since the reconcile loop began left the face of node n alone. */
  ghost predicate LeftAlone(h: History, n: string) {
    match h
    case Start(_) => true
    case Then(past, seen, e, _) =>
      || e.Begin? || e.Restarted?
      || (LeftAlone(past, n) && FaceIn(past.state.world, n) == FaceIn(seen, n))
  }

  predicate StartsLoop(e: Event) {
    e.Begin? || e.Restarted?
  }

  /** A write to a node that the server stored. */
  predicate Write(e: Event) {
    e.Called? && (e.call.UpdateNode? || e.call.PatchNode?) && Applied(e.reply)
  }

  predicate MeetsRefusal(e: Event) {
    e.Called? && e.reply.Refused?
  }

  /** How many calls of this loop were refused. */
  ghost function FaultCount(h: History): nat {
    match h
    case Start(_) => 0
    case Then(past, _, e, _) => if StartsLoop(e) then 0 else FaultCount(past) + if MeetsRefusal(e) then 1 else 0
  }

  function Subject(call: Call): set<string> {
    match call
    case GetNode(n) => {n}
    case UpdateNode(node) => {node.name}
    case PatchNode(n, _) => {n}
    case PowerOn(n, _) => {n}
    case _ => {}
  }

  /** The nodes on which a call was refused in this loop. */
  ghost function RefusedNames(h: History): set<string> {
    match h
    case Start(_) => {}
    case Then(past, _, e, _) =>
      if StartsLoop(e) then {}
      else RefusedNames(past) + if MeetsRefusal(e) then Subject(e.call) else {}
  }

  lemma {:induction false} FaultlessNames(h: History)
    requires FaultCount(h) == 0
    ensures RefusedNames(h) == {}
  {
    if h.Then? && !StartsLoop(h.event) {
      FaultlessNames(h.past);
    }
  }

  /** How many calls of this loop met a conflict. */
  ghost function ConflictCount(h: History): nat {
    match h
    case Start(_) => 0
    case Then(past, _, e, _) => if StartsLoop(e) then 0 else ConflictCount(past) + if MeetsConflict(e) then 1 else 0
  }

  predicate MeetsConflict(e: Event) {
    e.Called? && e.reply.Refused? && e.reply.error == Conflict
  }

  /** h goes on from h0. */
  ghost predicate Continues(h: History, h0: History) {
    h == h0 || (h.Then? && Continues(h.past, h0))
  }

  /** What comes later is longer. */
  lemma {:induction false} NoLoop(h: History, h0: History)
    requires Continues(h, h0) && h != h0
    ensures h0 < h
  {
    if h.past != h0 {
      NoLoop(h.past, h0);
    }
  }

  /** And does so within the same loop. */
  ghost predicate WithinLoop(h: History, h0: History) {
    h == h0 || (h.Then? && !StartsLoop(h.event) && WithinLoop(h.past, h0))
  }

  /** Whatever led to the present was lawful and disciplined at every point. */
  lemma {:induction false} EveryPartToo(cfg: Config, h: History, part: History)
    requires Truthful(h) && Justified(cfg, h) && Continues(h, part)
    ensures Truthful(part) && Justified(cfg, part)
  {
    if h != part {
      EveryPartToo(cfg, h.past, part);
    }
  }

  // ----- Steps

  /** Only the outside world moves the clock. */
  lemma ClockStands(memory: Memory, seen: World, e: Event, post: State)
    requires StepTruthful(memory, seen, e, post)
    ensures post.world.clock == seen.clock
  {
  }

  /** A call changes nothing about the loop but, by storing a mark, what is known of the candidate. */
  lemma CallKeepsLoop(m: Monitor, call: Call, reply: Reply)
    ensures var k := AfterCall(m, call, reply);
            && k.loop == m.loop.(candidate := k.loop.candidate, recovered := k.loop.recovered, drain := k.loop.drain,
                                 retracted := k.loop.retracted)
            && k.loop.candidate.name == m.loop.candidate.name && k.loop.candidate.entry == m.loop.candidate.entry
  {
  }

  lemma StepKeepsBegun(cfg: Config, m: Monitor, memory: Memory, seen: World, e: Event)
    requires !e.Begin? && !e.Restarted?
    ensures After(cfg, m, memory, seen, e).loop.begun == m.loop.begun
  {
    if e.Called? {
      CallKeepsLoop(m, e.call, e.reply);
    }
  }

  /** A loop cannot have begun in the future. */
  lemma {:induction false} LoopBegan(cfg: Config, h: History)
    requires Truthful(h)
    ensures Replay(cfg, h).loop.begun <= h.state.world.clock
  {
    if h.Then? {
      LoopBegan(cfg, h.past);
      ClockStands(h.past.state.memory, h.seen, h.event, h.state);
      if !h.event.Begin? && !h.event.Restarted? {
        StepKeepsBegun(cfg, Replay(cfg, h.past), h.past.state.memory, h.seen, h.event);
      }
    }
  }

  // ----- Sealed invariants

  predicate Unsealed(k: int) {
    true
  }

  /** Truthful, kept from unfolding on its own: Open opens it. */
  ghost predicate Lawful(h: History) {
    forall k: int {:trigger Unsealed(k)} :: Unsealed(k) ==> Truthful(h)
  }

  /** Justified, kept from unfolding on its own: Open opens it. */
  ghost predicate Disciplined(cfg: Config, h: History) {
    forall k: int {:trigger Unsealed(k)} :: Unsealed(k) ==> Justified(cfg, h)
  }

  ghost predicate IsReplay(cfg: Config, h: History, m: Monitor) {
    forall k: int {:trigger Unsealed(k)} :: Unsealed(k) ==> m == Replay(cfg, h)
  }

  /** Replay, sealed in the same way. */
  ghost function Watch(cfg: Config, h: History): Monitor {
    assert IsReplay(cfg, h, Replay(cfg, h));
    var m :| IsReplay(cfg, h, m);
    m
  }

  ghost predicate AreRefused(h: History, names: set<string>) {
    forall k: int {:trigger Unsealed(k)} :: Unsealed(k) ==> names == RefusedNames(h)
  }

  /** RefusedNames, sealed in the same way. */
  ghost function Refusals(h: History): set<string> {
    assert AreRefused(h, RefusedNames(h));
    var names :| AreRefused(h, names);
    names
  }

  ghost predicate CountsConflicts(h: History, n: nat) {
    forall k: int {:trigger Unsealed(k)} :: Unsealed(k) ==> n == ConflictCount(h)
  }

  /** ConflictCount, sealed in the same way. */
  ghost function Conflicts(h: History): nat {
    assert CountsConflicts(h, ConflictCount(h));
    var n: nat :| CountsConflicts(h, n);
    n
  }

  ghost predicate CountsFaults(h: History, n: nat) {
    forall k: int {:trigger Unsealed(k)} :: Unsealed(k) ==> n == FaultCount(h)
  }

  /** FaultCount, sealed in the same way. */
  ghost function Faults(h: History): nat {
    assert CountsFaults(h, FaultCount(h));
    var n: nat :| CountsFaults(h, n);
    n
  }

  ghost predicate AreMet(h: History, met: set<Node>) {
    forall k: int {:trigger Unsealed(k)} :: Unsealed(k) ==> met == NodesMet(h)
  }

  /** NodesMet, sealed in the same way. */
  ghost function Encountered(h: History): set<Node> {
    assert AreMet(h, NodesMet(h));
    var met :| AreMet(h, met);
    met
  }

  /** LeftAlone, sealed in the same way. */
  ghost predicate Undisturbed(h: History, n: string) {
    forall k: int {:trigger Unsealed(k)} :: Unsealed(k) ==> LeftAlone(h, n)
  }

  lemma UndisturbedStep(h: History, before: History, e: Event)
    requires Extends(h, before, e) && !e.Begin? && !e.Restarted?
    ensures forall n :: Undisturbed(h, n) <==>
              Undisturbed(before, n) && FaceIn(before.state.world, n) == FaceIn(h.seen, n)
  {
    assert Unsealed(0);
  }

  lemma Open(cfg: Config, h: History)
    ensures Lawful(h) <==> Truthful(h)
    ensures Disciplined(cfg, h) <==> Justified(cfg, h)
    ensures Watch(cfg, h) == Replay(cfg, h)
    ensures Refusals(h) == RefusedNames(h) && Faults(h) == FaultCount(h) && Conflicts(h) == ConflictCount(h)
    ensures Encountered(h) == NodesMet(h)
  {
    assert Unsealed(0);
  }

  lemma NoFaultsNoNames(cfg: Config, h: History)
    ensures Faults(h) == 0 ==> Refusals(h) == {}
  {
    Open(cfg, h);
    if FaultCount(h) == 0 {
      FaultlessNames(h);
    }
  }

  lemma BegunBefore(cfg: Config, h: History)
    requires Lawful(h)
    ensures Watch(cfg, h).loop.begun <= h.state.world.clock
  {
    assert Unsealed(0);
    LoopBegan(cfg, h);
  }

  /** One entry more than before, as the cluster can produce it. */
  ghost predicate Extends(h: History, before: History, e: Event) {
    && h.Then? && h.past == before && h.event == e
    && Outside(before.state.world, h.seen)
    && StepTruthful(before.state.memory, h.seen, e, h.state)
  }

  lemma Record(h: History, before: History, e: Event)
    requires Lawful(before) && Extends(h, before, e) && WellFormed(h.state.world)
    ensures Lawful(h)
  {
    assert Truthful(before) by {
      assert Unsealed(0);
    }
  }

  /** A permitted step keeps the discipline, and the monitor takes it in. */
  lemma Permit(cfg: Config, h: History)
    requires h.Then? && Disciplined(cfg, h.past)
    requires Allowed(cfg, Watch(cfg, h.past), h.past.state, h.seen, h.event)
    requires Informed(cfg, Watch(cfg, h.past), Encountered(h.past), h.event)
    ensures Disciplined(cfg, h)
    ensures Watch(cfg, h) == After(cfg, Watch(cfg, h.past), h.past.state.memory, h.seen, h.event)
  {
    Open(cfg, h.past);
    Open(cfg, h);
  }

  /** What is read in a loop has been met in it. */
  lemma Meeting(cfg: Config, h: History)
    requires h.Then? && !StartsLoop(h.event)
    ensures NodesIn(h.event) <= Encountered(h)
  {
    Open(cfg, h);
  }

  /** And so does the record of refusals. */
  lemma Refusal(cfg: Config, h: History)
    requires h.Then? && !StartsLoop(h.event)
    ensures Encountered(h.past) <= Encountered(h)
    ensures var refused := MeetsRefusal(h.event);
            && Refusals(h) == Refusals(h.past) + (if refused then Subject(h.event.call) else {})
            && Faults(h) == Faults(h.past) + (if refused then 1 else 0)
            && Conflicts(h) == Conflicts(h.past) + (if MeetsConflict(h.event) then 1 else 0)
  {
    Open(cfg, h.past);
    Open(cfg, h);
  }
}
