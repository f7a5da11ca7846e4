/** `std::set<std::pair<Timestamp, Timer*>>` as a strictly sorted sequence. */
module TimerSet {

  /** `UINTPTR_MAX`, the address no allocator returns. */
  const ADDRESS_END: nat := 0xFFFF_FFFF_FFFF_FFFF

  datatype Entry = Entry(when: int, addr: nat)

  predicate Before(a: Entry, b: Entry) {
    a.when < b.when || (a.when == b.when && a.addr < b.addr)
  }

  ghost predicate Sorted(s: seq<Entry>) {
    forall i, j | 0 <= i < j < |s| :: Before(s[i], s[j])
  }

  /** Position of the first entry that is not before `e`. */
  function LowerBound(s: seq<Entry>, e: Entry): (k: nat)
    ensures k <= |s|
    ensures forall i | 0 <= i < k :: Before(s[i], e)
    ensures k < |s| ==> !Before(s[k], e)
  {
    if s == [] || !Before(s[0], e) then 0 else 1 + LowerBound(s[1..], e)
  }

  function Insert(s: seq<Entry>, e: Entry): seq<Entry> {
    var k := LowerBound(s, e);
    if k < |s| && s[k] == e then s else s[..k] + [e] + s[k..]
  }

  function Erase(s: seq<Entry>, e: Entry): seq<Entry> {
    var k := LowerBound(s, e);
    if k < |s| && s[k] == e then s[..k] + s[k + 1..] else s
  }

  /** Insertion keeps the order, adds exactly `e`, and `begin()` becomes the earlier of `e` and the old one. */
  lemma InsertSpec(s: seq<Entry>, e: Entry)
    requires Sorted(s)
    ensures Sorted(Insert(s, e))
    ensures forall x :: x in Insert(s, e) <==> x in s || x == e
    ensures Insert(s, e) != []
    ensures Insert(s, e)[0] == if s == [] || Before(e, s[0]) then e else s[0]
    ensures e !in s ==> |Insert(s, e)| == |s| + 1
  {
    var k := LowerBound(s, e);
    var r := Insert(s, e);
    if k < |s| && s[k] == e {
    } else {
      forall x | x in s ensures x in r {
        var i :| 0 <= i < |s| && s[i] == x;
        assert r[if i < k then i else i + 1] == x;
      }
      assert r[k] == e;
      forall i, j | 0 <= i < j < |r| ensures Before(r[i], r[j]) {
        if j == k { assert r[i] == s[i]; }
        if i == k && k < |s| { assert r[j] == s[j - 1]; }
      }
    }
  }

  /** Erasing removes exactly `e`, and `begin()` never becomes earlier. */
  lemma EraseSpec(s: seq<Entry>, e: Entry)
    requires Sorted(s) && e in s
    ensures Sorted(Erase(s, e))
    ensures forall x :: x in Erase(s, e) <==> x in s && x != e
    ensures |Erase(s, e)| == |s| - 1
    ensures Erase(s, e) != [] ==> s[0].when <= Erase(s, e)[0].when
  {
    var k := LowerBound(s, e);
    var i :| 0 <= i < |s| && s[i] == e;
    assert k == i;
    var r := Erase(s, e);
    forall x | x in s && x != e ensures x in r {
      var j :| 0 <= j < |s| && s[j] == x;
      assert r[if j < k then j else j - 1] == x;
    }
  }

  /** The cut `lower_bound((now, UINTPTR_MAX))` separates the entries due at `now` from the later ones. */
  lemma CutSpec(s: seq<Entry>, now: int)
    requires Sorted(s) && forall x | x in s :: x.addr < ADDRESS_END
    ensures var k := LowerBound(s, Entry(now, ADDRESS_END));
            && Sorted(s[..k]) && Sorted(s[k..])
            && (forall x :: x in s[..k] <==> x in s && x.when <= now)
            && (forall x :: x in s[k..] <==> x in s && now < x.when)
  {
    var k := LowerBound(s, Entry(now, ADDRESS_END));
    CutOrder(s, now);
    forall x | x in s && x.when <= now ensures x in s[..k] { InPrefix(s, k, x, now); }
    forall x | x in s && now < x.when ensures x in s[k..] { InPrefix(s, k, x, now); }
    assert forall i | 0 <= i < |s[k..]| :: s[k..][i] == s[k + i];
  }

  lemma CutOrder(s: seq<Entry>, now: int)
    requires Sorted(s) && forall x | x in s :: x.addr < ADDRESS_END
    ensures var k := LowerBound(s, Entry(now, ADDRESS_END));
            forall i | 0 <= i < |s| :: s[i].when <= now <==> i < k
  {
    var k := LowerBound(s, Entry(now, ADDRESS_END));
    forall i | 0 <= i < |s| ensures s[i].when <= now <==> i < k {
      if k < i {
        assert s[k] in s && Before(s[k], s[i]);
      } else {
        assert s[i] in s;
      }
    }
  }

  lemma InPrefix(s: seq<Entry>, k: nat, x: Entry, now: int)
    requires k <= |s| && x in s && forall i | 0 <= i < |s| :: s[i].when <= now <==> i < k
    ensures if x.when <= now then x in s[..k] else x in s[k..]
  {
    var i :| 0 <= i < |s| && s[i] == x;
    if i < k { assert s[..k][i] == x; } else { assert s[k..][i - k] == x; }
  }
}
