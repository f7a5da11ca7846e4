/** The server side: which loop a connection is given, what it is called, and the server's map of connections. */
module ServerModel {
  import opened Machine

  type Loop = nat

  const INT_MAX := 0x7fff_ffff

  /** The size of the buffer that the number is printed into, with its terminator. */
  const BUF_SIZE := 32

  /** "%d" of a non-negative number. */
  function Decimal(n: nat): string {
    var last := [('0' as int + n % 10) as char];
    if n < 10 then last else Decimal(n / 10) + last
  }

  /** snprintf of "#%d", which cuts what does not fit. */
  function Suffix(id: nat): string {
    var s := "#" + Decimal(id);
    if |s| < BUF_SIZE then s else s[..BUF_SIZE - 1]
  }

  /** A connection object; `serial` is its identity, its place in the order of acceptance. */
  datatype Connection = Connection(serial: nat, name: string, loop: Loop)

  datatype Pool = Pool(base: Loop, loops: seq<Loop>, next: nat)

  /** `getNextLoop`: the loop, and the pool afterwards. */
  function NextLoop(p: Pool): (Loop, Pool)
    requires p.loops != [] ==> p.next < |p.loops|
  {
    if p.loops == [] then (p.base, p)
    else (p.loops[p.next], p.(next := if p.next + 1 >= |p.loops| then 0 else p.next + 1))
  }

  datatype Server = Server(
    name: string,
    pool: Pool,
    nextConnId: nat,
    connections: map<string, Connection>,
    accepted: seq<Connection>,             // every connection, in order
    open: set<nat>,                        // indexes into `accepted`: not closed yet,
    removing: set<nat>,                    //   closed, with removeConnectionInLoop still to run,
    destroyed: seq<nat>)                   //   removed, with connectDestroyed queued

  datatype Event =
    | Accept
    | Close(k: nat)
    | Remove(k: nat)

  /** A server started with the given loops, one for each of its threads. */
  function Started(name: string, base: Loop, loops: seq<Loop>): Server {
    Server(name, Pool(base, loops, 0), 1, map[], [], {}, {}, [])
  }

  function NewConnection(s: Server): Server
    requires s.pool.loops != [] ==> s.pool.next < |s.pool.loops|
  {
    var (loop, pool) := NextLoop(s.pool);
    var conn := Connection(|s.accepted|, s.name + Suffix(s.nextConnId), loop);
    s.(pool := pool, nextConnId := s.nextConnId + 1, connections := s.connections[conn.name := conn],
       accepted := s.accepted + [conn], open := s.open + {|s.accepted|})
  }

  /** `erase` must find exactly one entry; the connection is then destroyed in its own loop. */
  function RemoveConnectionInLoop(s: Server, k: nat): Outcome<Server>
    requires k < |s.accepted|
  {
    var name := s.accepted[k].name;
    if name !in s.connections then Fault else
    Next(s.(connections := s.connections - {name}, removing := s.removing - {k}, destroyed := s.destroyed + [k]))
  }

  /** A connection calls its close callback at most once. */
  function Step(s: Server, e: Event): Outcome<Server> {
    match e
    case Accept =>
      if s.pool.loops != [] && s.pool.next >= |s.pool.loops| then Fault
      else if s.nextConnId >= INT_MAX then Disabled
      else Next(NewConnection(s))
    case Close(k) =>
      if k !in s.open then Disabled else Next(s.(open := s.open - {k}, removing := s.removing + {k}))
    case Remove(k) =>
      if k !in s.removing || k >= |s.accepted| then Disabled else RemoveConnectionInLoop(s, k)
  }
}
