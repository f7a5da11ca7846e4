/** Placement, naming, and the server's map over whole runs. */
module ServerTheorems {
  import opened Machine
  import opened ServerModel

  ghost predicate Distinct(loops: seq<Loop>) {
    forall i, j | 0 <= i < j < |loops| :: loops[i] != loops[j]
  }

  ghost predicate Reachable(s: Server) {
    exists name, base, loops, es: seq<Event> :: Distinct(loops) && Run(Step, Started(name, base, loops), es) == Next(s)
  }

  // ---------- names ----------

  ghost function Digit(c: char): int {
    c as int - '0' as int
  }

  /** What a decimal numeral stands for. */
  ghost function Value(s: string): int {
    if s == "" then 0 else 10 * Value(s[..|s| - 1]) + Digit(s[|s| - 1])
  }

  lemma {:induction false} ValueOfDecimal(n: nat)
    ensures Value(Decimal(n)) == n && Decimal(n) != ""
  {
    var last := [('0' as int + n % 10) as char];
    if n < 10 {
      assert last[..0] == "";
    } else {
      ValueOfDecimal(n / 10);
      assert Decimal(n)[..|Decimal(n)| - 1] == Decimal(n / 10);
    }
  }

  ghost function Pow10(k: nat): nat {
    if k == 0 then 1 else 10 * Pow10(k - 1)
  }

  lemma {:induction false} DecimalLength(n: nat, k: nat)
    requires n < Pow10(k) && k > 0
    ensures |Decimal(n)| <= k
  {
    if n >= 10 {
      DecimalLength(n / 10, k - 1);
    }
  }

  lemma SuffixFits(id: nat)
    requires id <= INT_MAX
    ensures Suffix(id) == "#" + Decimal(id)
  {
    assert Pow10(4) == 10_000;
    assert Pow10(10) == 10_000_000_000;
    DecimalLength(id, 10);
  }

  /** Two connection numbers never print alike, and the buffer never cuts one. */
  lemma NamesDiffer(name: string, i: nat, j: nat)
    requires i <= INT_MAX && j <= INT_MAX && name + Suffix(i) == name + Suffix(j)
    ensures i == j
  {
    SuffixFits(i);
    SuffixFits(j);
    assert (name + Suffix(i))[|name| + 1..] == Decimal(i);
    assert (name + Suffix(j))[|name| + 1..] == Decimal(j);
    ValueOfDecimal(i);
    ValueOfDecimal(j);
  }

  // ---------- the invariant ----------

  /** The k-th accepted connection's loop. */
  ghost function LoopOf(base: Loop, loops: seq<Loop>, k: nat): Loop {
    if loops == [] then base else loops[k % |loops|]
  }

  ghost predicate Made(name: string, base: Loop, loops: seq<Loop>, accepted: seq<Connection>) {
    forall k | 0 <= k < |accepted| :: accepted[k] == Connection(k, name + Suffix(k + 1), LoopOf(base, loops, k))
  }

  ghost predicate Counted(s: Server) {
    && s.nextConnId == |s.accepted| + 1 <= INT_MAX
    && Distinct(s.pool.loops)
    && (s.pool.loops != [] ==> s.pool.next == |s.accepted| % |s.pool.loops|)
  }

  /** Every accepted connection is open, being removed or destroyed, once. */
  ghost predicate Split(open: set<nat>, removing: set<nat>, destroyed: seq<nat>, n: nat) {
    && (forall k :: k in open || k in removing || k in destroyed <==> 0 <= k < n)
    && open !! removing
    && (forall k | k in destroyed :: k !in open && k !in removing)
    && (forall i, j | 0 <= i < j < |destroyed| :: destroyed[i] != destroyed[j])
  }

  /** The map holds the connections not yet removed, under their names, and nothing else. */
  ghost predicate Mapped(m: map<string, Connection>, accepted: seq<Connection>, live: set<nat>) {
    AllFound(m, accepted, live) && AllBorne(m, accepted, live) && |m| == |live|
  }

  ghost predicate AllFound(m: map<string, Connection>, accepted: seq<Connection>, live: set<nat>) {
    forall k {:trigger k in live} | k in live :: k < |accepted| && Found(m, accepted[k])
  }

  ghost predicate AllBorne(m: map<string, Connection>, accepted: seq<Connection>, live: set<nat>) {
    forall name | name in m :: Bears(m[name], name, accepted, live)
  }

  ghost predicate Found(m: map<string, Connection>, conn: Connection) {
    conn.name in m && m[conn.name] == conn
  }

  ghost predicate Bears(conn: Connection, name: string, accepted: seq<Connection>, live: set<nat>) {
    conn.name == name && conn.serial in live && conn.serial < |accepted| && accepted[conn.serial] == conn
  }

  /** No other connection is called like the k-th. */
  ghost predicate Unshared(accepted: seq<Connection>, k: nat)
    requires k < |accepted|
  {
    forall j | 0 <= j < |accepted| && j != k :: accepted[j].name != accepted[k].name
  }

  ghost predicate Inv(s: Server) {
    && Counted(s)
    && Made(s.name, s.pool.base, s.pool.loops, s.accepted)
    && Split(s.open, s.removing, s.destroyed, |s.accepted|)
    && Mapped(s.connections, s.accepted, s.open + s.removing)
  }

  lemma NameUnshared(name: string, base: Loop, loops: seq<Loop>, accepted: seq<Connection>, k: nat)
    requires Made(name, base, loops, accepted) && k < |accepted| <= INT_MAX
    ensures Unshared(accepted, k)
  {
    forall j | 0 <= j < |accepted| && j != k ensures accepted[j].name != accepted[k].name {
      if accepted[j].name == accepted[k].name { NamesDiffer(name, j + 1, k + 1); }
    }
  }

  lemma AtLeast(a: int, n: nat)
    requires a > 0
    ensures a * n >= n
  {
  }

  /** Quotient and remainder are unique. */
  lemma Unique(q: int, r: int, q1: int, r1: int, n: nat)
    requires 0 <= r < n && 0 <= r1 < n && q * n + r == q1 * n + r1
    ensures r == r1 && q == q1
  {
    assert (q - q1) * n == r1 - r && (q1 - q) * n == r - r1;
    if q > q1 { AtLeast(q - q1, n); }
    if q < q1 { AtLeast(q1 - q, n); }
  }

  lemma NextIndex(k: nat, n: nat)
    requires n > 0
    ensures (k + 1) % n == if k % n + 1 >= n then 0 else k % n + 1
    ensures (k + 1) / n == if k % n + 1 >= n then k / n + 1 else k / n
  {
    var q, r := k / n, k % n;
    assert k == q * n + r;
    assert k + 1 == ((k + 1) / n) * n + (k + 1) % n;
    if r + 1 >= n {
      assert (q + 1) * n == q * n + n;
      Unique((k + 1) / n, (k + 1) % n, q + 1, 0, n);
    } else {
      Unique((k + 1) / n, (k + 1) % n, q, r + 1, n);
    }
  }

  lemma Bearer(m: map<string, Connection>, accepted: seq<Connection>, live: set<nat>, name: string) returns (k: nat)
    requires Mapped(m, accepted, live) && name in m
    ensures k < |accepted| && accepted[k].name == name
  {
    assert Bears(m[name], name, accepted, live);
    k := m[name].serial;
  }

  lemma NameIsNew(m: map<string, Connection>, accepted: seq<Connection>, live: set<nat>, conn: Connection)
    requires Mapped(m, accepted, live) && Unshared(accepted + [conn], |accepted|)
    ensures conn.name !in m
  {
    var all := accepted + [conn];
    assert all[|accepted|] == conn && forall j | 0 <= j < |accepted| :: all[j] == accepted[j];
    if conn.name in m {
      var k := Bearer(m, accepted, live, conn.name);
      assert false;
    }
  }

  lemma AcceptFound(m: map<string, Connection>, accepted: seq<Connection>, live: set<nat>, conn: Connection)
    requires AllFound(m, accepted, live) && conn.name !in m
    ensures AllFound(m[conn.name := conn], accepted + [conn], live + {|accepted|})
  {
  }

  lemma AcceptBorne(m: map<string, Connection>, accepted: seq<Connection>, live: set<nat>, conn: Connection)
    requires AllBorne(m, accepted, live) && conn.serial == |accepted|
    ensures AllBorne(m[conn.name := conn], accepted + [conn], live + {|accepted|})
  {
  }

  lemma AcceptMaps(m: map<string, Connection>, accepted: seq<Connection>, live: set<nat>, conn: Connection)
    requires Mapped(m, accepted, live) && conn.name !in m && conn.serial == |accepted|
    ensures Mapped(m[conn.name := conn], accepted + [conn], live + {|accepted|})
  {
    AcceptFound(m, accepted, live, conn);
    AcceptBorne(m, accepted, live, conn);
    assert |accepted| !in live;
  }

  lemma RemoveUnmaps(m: map<string, Connection>, accepted: seq<Connection>, live: set<nat>, k: nat)
    requires Mapped(m, accepted, live) && k in live && k < |accepted| && Unshared(accepted, k)
    ensures accepted[k].name in m && |m - {accepted[k].name}| == |m| - 1
    ensures Mapped(m - {accepted[k].name}, accepted, live - {k})
  {
    var name := accepted[k].name;
    var m1 := m - {name};
    assert Found(m, accepted[k]);
    assert m1.Keys == m.Keys - {name} && |m1| == |m1.Keys| && |m| == |m.Keys|;
    forall j | j in live - {k} ensures j < |accepted| && Found(m1, accepted[j]) {
      assert Found(m, accepted[j]);
    }
    forall other | other in m1 ensures Bears(m1[other], other, accepted, live - {k}) {
      assert Bears(m[other], other, accepted, live);
    }
  }

  lemma SplitAccept(open: set<nat>, removing: set<nat>, destroyed: seq<nat>, n: nat)
    requires Split(open, removing, destroyed, n)
    ensures Split(open + {n}, removing, destroyed, n + 1)
  {
  }

  lemma SplitClose(open: set<nat>, removing: set<nat>, destroyed: seq<nat>, n: nat, k: nat)
    requires Split(open, removing, destroyed, n) && k in open
    ensures Split(open - {k}, removing + {k}, destroyed, n)
  {
  }

  lemma SplitRemove(open: set<nat>, removing: set<nat>, destroyed: seq<nat>, n: nat, k: nat)
    requires Split(open, removing, destroyed, n) && k in removing
    ensures Split(open, removing - {k}, destroyed + [k], n)
  {
    assert forall j :: j in destroyed + [k] <==> j in destroyed || j == k;
  }

  lemma AcceptMakes(s: Server)
    requires Counted(s) && Made(s.name, s.pool.base, s.pool.loops, s.accepted) && Step(s, Accept).Next?
    ensures var d := Step(s, Accept).state;
            && Counted(d) && Made(d.name, d.pool.base, d.pool.loops, d.accepted)
            && d.accepted == s.accepted + [d.accepted[|s.accepted|]]
  {
    if s.pool.loops != [] {
      NextIndex(|s.accepted|, |s.pool.loops|);
    }
  }

  lemma AcceptNamed(s: Server)
    requires Counted(s) && Made(s.name, s.pool.base, s.pool.loops, s.accepted) && Step(s, Accept).Next?
    ensures Unshared(Step(s, Accept).state.accepted, |s.accepted|)
  {
    var d := Step(s, Accept).state;
    AcceptMakes(s);
    NameUnshared(d.name, d.pool.base, d.pool.loops, d.accepted, |s.accepted|);
  }

  lemma AcceptMapped(s: Server)
    requires Mapped(s.connections, s.accepted, s.open + s.removing)
    requires Step(s, Accept).Next? && Unshared(Step(s, Accept).state.accepted, |s.accepted|)
    ensures var d := Step(s, Accept).state; Mapped(d.connections, d.accepted, d.open + d.removing)
  {
    var d, n := Step(s, Accept).state, |s.accepted|;
    MapsOn(s.connections, s.accepted, s.open + s.removing, d.accepted[n]);
    assert d.open + d.removing == s.open + s.removing + {n};
  }

  lemma MapsOn(m: map<string, Connection>, accepted: seq<Connection>, live: set<nat>, conn: Connection)
    requires Mapped(m, accepted, live) && Unshared(accepted + [conn], |accepted|) && conn.serial == |accepted|
    ensures Mapped(m[conn.name := conn], accepted + [conn], live + {|accepted|})
  {
    NameIsNew(m, accepted, live, conn);
    AcceptMaps(m, accepted, live, conn);
  }

  lemma AcceptKeeps(s: Server)
    requires Inv(s) && Step(s, Accept).Next?
    ensures Inv(Step(s, Accept).state)
  {
    AcceptMakes(s);
    AcceptNamed(s);
    AcceptMapped(s);
    SplitAccept(s.open, s.removing, s.destroyed, |s.accepted|);
  }

  lemma CloseKeeps(s: Server, k: nat)
    requires Inv(s) && Step(s, Close(k)).Next?
    ensures Inv(Step(s, Close(k)).state)
  {
    var d := Step(s, Close(k)).state;
    SplitClose(s.open, s.removing, s.destroyed, |s.accepted|, k);
    assert d.open + d.removing == s.open + s.removing;
  }

  lemma RemoveMaps(s: Server, k: nat)
    requires Made(s.name, s.pool.base, s.pool.loops, s.accepted) && k < |s.accepted| <= INT_MAX
    requires Mapped(s.connections, s.accepted, s.open + s.removing) && k in s.removing && k !in s.open
    ensures Step(s, Remove(k)).Next?
    ensures var d := Step(s, Remove(k)).state;
            |d.connections| == |s.connections| - 1 && Mapped(d.connections, d.accepted, d.open + d.removing)
  {
    NameUnshared(s.name, s.pool.base, s.pool.loops, s.accepted, k);
    RemoveUnmaps(s.connections, s.accepted, s.open + s.removing, k);
    assert s.open + (s.removing - {k}) == s.open + s.removing - {k};
  }

  lemma RemoveKeeps(s: Server, k: nat)
    requires Inv(s) && k in s.removing
    ensures Step(s, Remove(k)).Next? && Inv(Step(s, Remove(k)).state)
  {
    RemoveMaps(s, k);
    SplitRemove(s.open, s.removing, s.destroyed, |s.accepted|, k);
  }

  lemma StepKeeps(s: Server, e: Event)
    requires Inv(s)
    ensures !Step(s, e).Fault?
    ensures Step(s, e).Next? ==> Inv(Step(s, e).state)
  {
    match e
    case Accept =>
      if Step(s, Accept).Next? { AcceptKeeps(s); }
    case Close(k) => if Step(s, e).Next? { CloseKeeps(s, k); }
    case Remove(k) => if k in s.removing { RemoveKeeps(s, k); }
  }

  lemma ReachableInv(s: Server)
    requires Reachable(s)
    ensures Inv(s)
  {
    var name, base, loops, es: seq<Event> :| Distinct(loops) && Run(Step, Started(name, base, loops), es) == Next(s);
    var s0 := Started(name, base, loops);
    assert Inv(s0);
    forall t, e | Inv(t) && Step(t, e).Next? ensures Inv(Step(t, e).state) { StepKeeps(t, e); }
    Invariant(Step, Inv, s0, es);
  }

  // ---------- the theorems ----------

  /** The k-th connection accepted is on loop k mod N; with no threads, on the base loop. */
  lemma RoundRobin(s: Server, k: nat)
    requires Reachable(s) && k < |s.accepted|
    ensures s.accepted[k].loop == LoopOf(s.pool.base, s.pool.loops, k)
  {
    ReachableInv(s);
  }

  /** How many of the connections are on a loop. */
  ghost function Load(conns: seq<Connection>, loop: Loop): nat {
    if conns == [] then 0
    else Load(conns[..|conns| - 1], loop) + if conns[|conns| - 1].loop == loop then 1 else 0
  }

  lemma {:induction false} LoadIs(base: Loop, loops: seq<Loop>, conns: seq<Connection>, i: nat)
    requires i < |loops| && Distinct(loops)
    requires forall k | 0 <= k < |conns| :: conns[k].loop == LoopOf(base, loops, k)
    ensures Load(conns, loops[i]) == |conns| / |loops| + if i < |conns| % |loops| then 1 else 0
  {
    if conns == [] {
      assert 0 / |loops| == 0;
    } else {
      var k := |conns| - 1;
      LoadIs(base, loops, conns[..k], i);
      NextIndex(k, |loops|);
    }
  }

  /** After any number of accepts the loads of two loops differ by at most one. */
  lemma LoadsBalanced(s: Server, i: nat, j: nat)
    requires Reachable(s) && i < |s.pool.loops| && j < |s.pool.loops|
    ensures Load(s.accepted, s.pool.loops[i]) <= Load(s.accepted, s.pool.loops[j]) + 1
  {
    ReachableInv(s);
    LoadIs(s.pool.base, s.pool.loops, s.accepted, i);
    LoadIs(s.pool.base, s.pool.loops, s.accepted, j);
  }

  /** A name is in the map exactly while the one connection that bears it has not been removed. */
  lemma MapExactly(s: Server, k: nat)
    requires Reachable(s) && k < |s.accepted|
    ensures s.accepted[k].name in s.connections <==> k in s.open || k in s.removing
    ensures s.accepted[k].name in s.connections ==> s.connections[s.accepted[k].name] == s.accepted[k]
    ensures Unshared(s.accepted, k)
  {
    ReachableInv(s);
    NameUnshared(s.name, s.pool.base, s.pool.loops, s.accepted, k);
  }

  /** A removal never fails its assertion: it erases one entry, the connection's own, and destroys the connection
      once. */
  lemma RemovalErasesOne(s: Server, k: nat)
    requires Reachable(s) && k in s.removing
    ensures k < |s.accepted| && k !in s.destroyed && Step(s, Remove(k)).Next?
    ensures var d := Step(s, Remove(k)).state;
            && |d.connections| == |s.connections| - 1 && d.connections == s.connections - {s.accepted[k].name}
            && d.destroyed == s.destroyed + [k]
  {
    ReachableInv(s);
    Removable(s, k);
    RemoveStep(s, k);
  }

  lemma Removable(s: Server, k: nat)
    requires Inv(s) && k in s.removing
    ensures k < |s.accepted| && k !in s.destroyed && Step(s, Remove(k)).Next?
    ensures |Step(s, Remove(k)).state.connections| == |s.connections| - 1
  {
    RemoveMaps(s, k);
  }

  lemma RemoveStep(s: Server, k: nat)
    requires k < |s.accepted| && Step(s, Remove(k)).Next?
    ensures var d := Step(s, Remove(k)).state;
            d.connections == s.connections - {s.accepted[k].name} && d.destroyed == s.destroyed + [k]
  {
  }
}
