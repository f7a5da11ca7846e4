/** `EventLoopThreadPool` and `TcpServer` themselves. */
module ServerClass {
  import opened Machine
  import M = ServerModel

  class EventLoopThreadPool {
    const base: M.Loop
    var loops: seq<M.Loop>
    var next: nat
    var started: bool

    ghost function View(): M.Pool
      reads this
    {
      M.Pool(base, loops, next)
    }

    constructor (baseLoop: M.Loop)
      ensures View() == M.Pool(baseLoop, [], 0) && !started
    {
      base, loops, next, started := baseLoop, [], 0, false;
    }

    /** Starts one thread for each of `threads`, the loops they will run. */
    method Start(threads: seq<M.Loop>)
      requires !started && loops == []
      modifies this
      ensures started && View() == old(View()).(loops := threads)
    {
      started := true;
      for i := 0 to |threads|
        invariant started && next == old(next) && loops == threads[..i]
      {
        loops := loops + [threads[i]];
      }
    }

    method GetNextLoop() returns (loop: M.Loop)
      requires loops != [] ==> next < |loops|
      modifies this`next
      ensures (loop, View()) == M.NextLoop(old(View()))
    {
      loop := base;
      if loops != [] {
        loop := loops[next];
        next := next + 1;
        if next >= |loops| {
          next := 0;
        }
      }
    }
  }

  class TcpServer {
    const name: string
    const threadPool: EventLoopThreadPool
    var nextConnId: nat
    var connections: map<string, M.Connection>

    ghost var accepted: seq<M.Connection>
    ghost var open: set<nat>
    ghost var removing: set<nat>
    ghost var destroyed: seq<nat>

    /** Connections are numbered from 1. */
    ghost predicate Valid()
      reads this
    {
      nextConnId == |accepted| + 1
    }

    ghost function View(): M.Server
      reads this, threadPool
    {
      M.Server(name, threadPool.View(), nextConnId, connections, accepted, open, removing, destroyed)
    }

    constructor (hostPort: string, base: M.Loop, threads: seq<M.Loop>)
      ensures Valid() && View() == M.Started(hostPort, base, threads) && fresh(threadPool)
    {
      var pool := new EventLoopThreadPool(base);
      name, threadPool, nextConnId, connections := hostPort, pool, 1, map[];
      accepted, open, removing, destroyed := [], {}, {}, [];
      new;
      threadPool.Start(threads);
    }

    /** A connection has been accepted. */
    method NewConnection() returns (conn: M.Connection)
      requires Valid() && M.Step(View(), M.Accept).Next?
      modifies this, threadPool
      ensures Valid() && M.Step(old(View()), M.Accept) == Next(View())
      ensures accepted == old(accepted) + [conn]
    {
      var connName, serial := name + M.Suffix(nextConnId), nextConnId - 1;
      nextConnId := nextConnId + 1;
      var ioLoop := threadPool.GetNextLoop();
      conn := M.Connection(serial, connName, ioLoop);
      connections := connections[connName := conn];
      open, accepted := open + {|accepted|}, accepted + [conn];
    }

    /** The functor queued when connection `conn` closed. */
    method RemoveConnectionInLoop(conn: M.Connection)
      requires Valid() && conn.serial < |accepted| && accepted[conn.serial] == conn
      requires M.Step(View(), M.Remove(conn.serial)).Next?
      modifies this
      ensures Valid() && M.Step(old(View()), M.Remove(conn.serial)) == Next(View())
    {
      assert conn.name in connections;
      connections := connections - {conn.name};
      removing, destroyed := removing - {conn.serial}, destroyed + [conn.serial];
    }
  }
}
