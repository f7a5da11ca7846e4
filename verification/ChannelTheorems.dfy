/** What `handleEvent` makes of the reported flags. */
module ChannelTheorems {
  import opened ChannelModel

  /** Which callbacks are made. */
  lemma DispatchExactly(r: Ready)
    ensures Close in Dispatch(r) <==> r.hup && !r.pollin
    ensures Error in Dispatch(r) <==> r.err || r.nval
    ensures Read in Dispatch(r) <==> r.pollin || r.pri
    ensures Write in Dispatch(r) <==> r.out
  {
    var c := if r.hup && !r.pollin then [Close] else [];
    var e := if r.err || r.nval then [Error] else [];
    var d := if r.pollin || r.pri then [Read] else [];
    var w := if r.out then [Write] else [];
    assert Dispatch(r) == c + e + d + w;
    assert forall x :: x in Dispatch(r) <==> x in c || x in e || x in d || x in w;
  }

  ghost function Rank(c: Callback): nat {
    match c
    case Close => 0
    case Error => 1
    case Read => 2
    case Write => 3
  }

  /** In which order: close, error, read, write, each at most once. */
  lemma DispatchInOrder(r: Ready, i: nat, j: nat)
    requires i < j < |Dispatch(r)|
    ensures Rank(Dispatch(r)[i]) < Rank(Dispatch(r)[j])
  {
  }

  /** Data that arrived with a hang-up is read before anything closes. */
  lemma DataBeforeClose(r: Ready)
    requires r.pollin
    ensures Close !in Dispatch(r) && Read in Dispatch(r)
  {
    DispatchExactly(r);
  }

  /** A channel's slot is ignored once its mask was empty, and its mask is the last one set. */
  lemma ReregisterExactly(r: Registration, events: Interest)
    ensures Reregister(r, events).events == events
    ensures Reregister(r, events).muted <==> r.muted || (!events.read && !events.write)
  {
  }
}
