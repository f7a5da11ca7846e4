/** What accepting and removing do to the server, and how connections are called. */
module ServerEffects {
  import opened Machine
  import opened ServerModel
  import opened ServerTheorems

  ghost predicate IsNumeral(s: string) {
    s != "" && (forall c | c in s :: '0' <= c <= '9') && (|s| > 1 ==> s[0] != '0')
  }

  /** "%d" prints decimal digits without leading zeros. */
  lemma {:induction false} DecimalIsNumeral(n: nat)
    ensures IsNumeral(Decimal(n)) && (n > 0 ==> Decimal(n)[0] != '0')
  {
    if n >= 10 {
      DecimalIsNumeral(n / 10);
    }
  }

  /** The k-th connection is called by the server's name, a '#', and its number, counted from 1. */
  lemma NameOfConnection(s: Server, k: nat)
    requires Reachable(s) && k < |s.accepted|
    ensures s.accepted[k].name == s.name + "#" + Decimal(k + 1) && Value(Decimal(k + 1)) == k + 1
  {
    ReachableInv(s);
    SuffixFits(k + 1);
    ValueOfDecimal(k + 1);
    assert s.name + "#" + Decimal(k + 1) == s.name + ("#" + Decimal(k + 1));
  }

  /** An accept adds one connection, to the map under its own name, and takes the next loop in turn. */
  lemma AcceptAdds(s: Server)
    requires Reachable(s) && Step(s, Accept).Next?
    ensures var d, k := Step(s, Accept).state, |s.accepted|;
            && |d.accepted| == k + 1 && d.accepted[..k] == s.accepted
            && d.connections == s.connections[d.accepted[k].name := d.accepted[k]]
               && d.accepted[k].name !in s.connections
            && d.open == s.open + {k} && d.removing == s.removing && d.destroyed == s.destroyed
            && d.accepted[k].loop == LoopOf(s.pool.base, s.pool.loops, k) && d.pool.loops == s.pool.loops
  {
    ReachableInv(s);
    AcceptMakes(s);
    AcceptNamed(s);
    NameIsNew(s.connections, s.accepted, s.open + s.removing, Step(s, Accept).state.accepted[|s.accepted|]);
  }

  /** A close leaves the map alone until the removal has run. */
  lemma CloseWaits(s: Server, k: nat)
    requires Reachable(s) && Step(s, Close(k)).Next?
    ensures k in s.open
    ensures Step(s, Close(k)).state == s.(open := s.open - {k}, removing := s.removing + {k})
  {
  }

  /** A server starts empty, at its first loop, and counts connections from 1. */
  lemma StartsEmpty(name: string, base: Loop, loops: seq<Loop>)
    ensures var s := Started(name, base, loops);
            && s.name == name && s.pool == Pool(base, loops, 0) && s.connections == map[] && s.accepted == []
            && s.nextConnId == 1
  {
  }
}
