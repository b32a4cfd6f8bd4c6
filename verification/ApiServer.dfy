/** The API server as the autoscaler meets it: every call first gives the outside world a turn, may
    fail, and leaves an entry in the history. A crash of the autoscaler is the behaviour in which
    every later call of the loop fails, followed by a restart. */
module ApiServer {
  import opened Prelude
  import opened Clock
  import opened Cluster
  import opened Journal
  import opened Resources

  class Api {
    var world: World
    ghost var history: History
    ghost var marks: seq<History>   // points in the present loop to refer back to

    ghost predicate Valid()
      reads this
    {
      history.state.world == world && WellFormed(world) && Lawful(history) && Bookmarked()
    }

    /** All the points referred to belong to the present loop. */
    ghost predicate Bookmarked()
      reads this
    {
      forall m | m in marks :: WithinLoop(history, m)
    }

    ghost predicate Logged(before: History, ctx: Context, call: Call, reply: Reply)
      reads this
    {
      Valid() && Extends(history, before, Called(ctx, call, reply))
    }

    constructor (w: World)
      requires WellFormed(w)
      ensures Valid() && history == Start(State(w, BLANK)) && marks == []
    {
      world := w;
      history := Start(State(w, BLANK));
      marks := [];
    }

    /** The outside world does anything it may do. */
    method Interfere()
      requires WellFormed(world)
      modifies `world
      ensures Outside(old(world), world)
    {
      var w: World := *;
      if Outside(world, w) {
        world := w;
      }
    }

    /** Adds an entry: the outside world led to what was seen, and the event to the present world. */
    ghost method Append(seen: World, e: Event)
      requires WellFormed(world) && Lawful(history) && Outside(history.state.world, seen) && Bookmarked()
      requires StepTruthful(history.state.memory, seen, e, State(world, Recall(history.state.memory, e)))
      requires StartsLoop(e) ==> marks == []
      modifies `history
      ensures Valid() && Extends(history, old(history), e) && history.seen == seen
    {
      var before := history;
      history := Then(before, seen, e, State(world, Recall(before.state.memory, e)));
      Record(history, before, e);
    }

    /** An entry that is no call to the server. */
    ghost method Note(e: Event)
      requires Valid() && !e.Called? && !StartsLoop(e)
      modifies `history
      ensures Valid() && Extends(history, old(history), e) && history.seen == world
    {
      Append(world, e);
    }

    /** Keeps the present point to refer back to. */
    ghost method Mark()
      requires Valid()
      modifies `marks
      ensures Valid() && marks == old(marks) + [history]
    {
      marks := marks + [history];
    }

    /** A new process. */
    ghost method Restart()
      requires Valid()
      modifies `history, `marks
      ensures Valid() && Extends(history, old(history), Restarted) && history.seen == world && marks == []
    {
      marks := [];
      Append(world, Restarted);
    }

    method Now() returns (t: Time)
      requires Valid()
      modifies `world, `history
      ensures Valid() && Extends(history, old(history), Tick)
      ensures t == world.clock && t >= old(world).clock
    {
      Interfere();
      Append(world, Tick);
      t := world.clock;
    }

    /** Waits at least so long. */
    method Sleep(d: Duration)
      requires Valid()
      modifies `world, `history
      ensures Valid() && Extends(history, old(history), Waited(d))
      ensures world.clock >= old(world).clock + d
    {
      var start := world.clock;
      Interfere();
      if world.clock < start + d {
        world := world.(clock := start + d);
      }
      Append(world, Waited(d));
    }

    method Begin(ctx: Context) returns (t: Time)
      requires Valid()
      modifies this
      ensures Valid() && Extends(history, old(history), Journal.Begin(ctx)) && marks == []
      ensures t == world.clock == history.seen.clock
    {
      Interfere();
      marks := [];
      Append(world, Journal.Begin(ctx));
      t := world.clock;
    }

    /** Starts a drain, which reads the time. */
    method StartDrain(n: string) returns (t: Time)
      requires Valid()
      modifies `world, `history
      ensures Valid() && Extends(history, old(history), DrainStarts(n))
      ensures t == world.clock == history.seen.clock && t >= old(world).clock
    {
      Interfere();
      Append(world, DrainStarts(n));
      t := world.clock;
    }

    /** Whether the server, or the network, refuses a call made under this context. */
    method Refuses(ctx: Context) returns (refused: bool)
      ensures Expired(ctx, world.clock) ==> refused
    {
      var fails: bool := *;
      refused := fails || Expired(ctx, world.clock);
    }

    method AnyError() returns (error: ApiError) {
      error := *;
    }

    method ListNodes(ctx: Context) returns (reply: Reply)
      requires Valid()
      modifies `world, `history
      ensures Logged(old(history), ctx, Call.ListNodes, reply)
    {
      Interfere();
      var refused := Refuses(ctx);
      if refused {
        var e := AnyError();
        reply := Refused(e, false);
      } else {
        var items := Enumerate(world.nodes);
        reply := Nodes(items);
      }
      Append(world, Called(ctx, Call.ListNodes, reply));
    }

    /** The nodes in some order. */
    method Enumerate(nodes: map<string, Node>) returns (items: seq<Node>)
      requires forall n | n in nodes :: nodes[n].name == n
      ensures forall i, j | 0 <= i < j < |items| :: items[i].name != items[j].name
      ensures forall x | x in items :: x.name in nodes && nodes[x.name] == x
      ensures forall n | n in nodes :: nodes[n] in items
    {
      items := [];
      var left := nodes.Keys;
      while left != {}
        invariant left <= nodes.Keys
        invariant forall i, j | 0 <= i < j < |items| :: items[i].name != items[j].name
        invariant forall x | x in items :: x.name in nodes && nodes[x.name] == x && x.name !in left
        invariant forall n | n in nodes :: n in left || nodes[n] in items
        decreases left
      {
        var n :| n in left;
        left := left - {n};
        items := items + [nodes[n]];
      }
    }

    method GetNode(ctx: Context, n: string) returns (reply: Reply)
      requires Valid()
      modifies `world, `history
      ensures Logged(old(history), ctx, Call.GetNode(n), reply)
    {
      Interfere();
      var refused := Refuses(ctx);
      if refused || n !in world.nodes {
        var e := AnyError();
        reply := Refused(e, false);
      } else {
        reply := One(world.nodes[n]);
      }
      Append(world, Called(ctx, Call.GetNode(n), reply));
    }

    /** Replaces the stored node, unless it has been written since the submitted one was read. */
    method UpdateNode(ctx: Context, node: Node) returns (reply: Reply)
      requires Valid()
      modifies `world, `history
      ensures Logged(old(history), ctx, Call.UpdateNode(node), reply)
    {
      Interfere();
      ghost var seen := world;
      var refused := Refuses(ctx);
      var e := AnyError();
      if node.name !in world.nodes || world.nodes[node.name].version != node.version {
        reply := Refused(e, false);
      } else {
        var lost: bool := *;
        reply := if refused then Refused(e, lost && e != Conflict) else Done;
        if Applied(reply) {
          world := Put(world, node);
        }
      }
      Append(seen, Called(ctx, Call.UpdateNode(node), reply));
    }

    method PatchNode(ctx: Context, n: string, patch: Patch) returns (reply: Reply)
      requires Valid()
      modifies `world, `history
      ensures Logged(old(history), ctx, Call.PatchNode(n, patch), reply)
    {
      Interfere();
      ghost var seen := world;
      var refused := Refuses(ctx);
      var e := AnyError();
      if n !in world.nodes {
        reply := Refused(e, false);
      } else {
        var lost: bool := *;
        reply := if refused then Refused(e, lost) else Done;
        if Applied(reply) {
          world := Put(world, Patched(world.nodes[n], patch));
        }
      }
      Append(seen, Called(ctx, Call.PatchNode(n, patch), reply));
    }

    /** Lists the pods of a node; a server that ignores the field selector adds others. */
    method ListPods(ctx: Context, n: string) returns (reply: Reply)
      requires Valid()
      modifies `world, `history
      ensures Logged(old(history), ctx, Call.ListPods(n), reply)
    {
      Interfere();
      var refused := Refuses(ctx);
      if refused {
        var e := AnyError();
        reply := Refused(e, false);
      } else {
        var left, items := world.pods, [];
        while left != {}
          invariant left <= world.pods
          invariant forall p | p in items :: p in world.pods
          invariant forall p | p in world.pods && p.node == n :: p in left || p in items
          decreases left
        {
          var p :| p in left;
          left := left - {p};
          var others: bool := *;
          if p.node == n || others {
            items := items + [p];
          }
        }
        reply := Pods(items);
      }
      Append(world, Called(ctx, Call.ListPods(n), reply));
    }

    /** Evicts the pod of that name if it has that UID. */
    method Evict(ctx: Context, namespace: string, name: string, uid: string) returns (reply: Reply)
      requires Valid()
      modifies `world, `history
      ensures Logged(old(history), ctx, Call.Evict(namespace, name, uid), reply)
    {
      Interfere();
      ghost var seen := world;
      var refused := Refuses(ctx);
      var e := AnyError();
      if refused || !exists p :: p in world.pods && SameIdentity(p, namespace, name, uid) {
        reply := Refused(e, false);
      } else {
        var lost: bool := *;
        reply := if lost then Refused(e, true) else Done;
        var post: set<Pod> := *;
        if EvictionEffect(world.pods, post, namespace, name, uid) {
          world := world.(pods := post);
        }
      }
      Append(seen, Called(ctx, Call.Evict(namespace, name, uid), reply));
    }

    /** Lists the pods of all nodes. */
    method ListAllPods(ctx: Context) returns (reply: Reply)
      requires Valid()
      modifies `world, `history
      ensures Logged(old(history), ctx, Call.ListAllPods, reply)
    {
      Interfere();
      var refused := Refuses(ctx);
      if refused {
        var e := AnyError();
        reply := Refused(e, false);
      } else {
        var left, items := world.pods, [];
        while left != {}
          invariant left <= world.pods && Distinct(items)
          invariant Elements(items) == world.pods - left
          decreases left
        {
          var p :| p in left;
          left := left - {p};
          assert p !in Elements(items) && Elements(items + [p]) == Elements(items) + {p};
          items := items + [p];
        }
        reply := Pods(items);
      }
      Append(world, Called(ctx, Call.ListAllPods, reply));
    }

    /** Lists node metrics, which may say anything. */
    method ListUsage(ctx: Context) returns (reply: Reply)
      requires Valid()
      modifies `world, `history
      ensures Logged(old(history), ctx, Call.ListUsage, reply)
    {
      Interfere();
      var refused := Refuses(ctx);
      var e := AnyError();
      var usage: map<string, Amount> := *;
      reply := if refused then Refused(e, false) else Usages(usage);
      Append(world, Called(ctx, Call.ListUsage, reply));
    }

    /** Asks the agent on a node for its load, which may be anything. */
    method FetchLoad(ctx: Context, n: string) returns (reply: Reply)
      requires Valid()
      modifies `world, `history
      ensures Logged(old(history), ctx, Call.FetchLoad(n), reply)
    {
      Interfere();
      var refused := Refuses(ctx);
      var e := AnyError();
      var load: real := *;
      reply := if refused then Refused(e, false) else Load(load);
      Append(world, Called(ctx, Call.FetchLoad(n), reply));
    }

    method ListAttachments(ctx: Context) returns (reply: Reply)
      requires Valid()
      modifies `world, `history
      ensures Logged(old(history), ctx, Call.ListAttachments, reply)
    {
      Interfere();
      var refused := Refuses(ctx);
      if refused {
        var e := AnyError();
        reply := Refused(e, false);
      } else {
        var left, items := world.attachments, [];
        while left != {}
          invariant left <= world.attachments
          invariant forall a | a in items :: a in world.attachments
          invariant forall a | a in world.attachments :: a in left || a in items
          decreases left
        {
          var a :| a in left;
          left := left - {a};
          items := items + [a];
        }
        reply := Attachments(items);
      }
      Append(world, Called(ctx, Call.ListAttachments, reply));
    }

    /** Asks the host to shut down. */
    method Shutdown(ctx: Context, n: string) returns (reply: Reply)
      requires Valid()
      modifies `world, `history
      ensures Logged(old(history), ctx, Call.Shutdown(n), reply)
    {
      Interfere();
      var refused := Refuses(ctx);
      var e := AnyError();
      reply := if refused then Refused(e, false) else Done;
      Append(world, Called(ctx, Call.Shutdown(n), reply));
    }

    /** Asks the power-on controller to boot a host. */
    method PowerOn(ctx: Context, n: string, mac: Value) returns (reply: Reply)
      requires Valid()
      modifies `world, `history
      ensures Logged(old(history), ctx, Call.PowerOn(n, mac), reply)
    {
      Interfere();
      var refused := Refuses(ctx);
      var e := AnyError();
      reply := if refused then Refused(e, false) else Done;
      Append(world, Called(ctx, Call.PowerOn(n, mac), reply));
    }
  }
}
