/** The sliding-window buffer on sequences, against a plain byte queue. */
module BufferModel {
  import opened Machine

  type Byte = bv8

  const CHEAP_PREPEND: nat := 8
  const INITIAL_SIZE: nat := 1024
  const EXTRA: nat := 65536

  /** `data` is the whole backing store; `peak` records the largest readable size so far. */
  datatype Buf = Buf(data: seq<Byte>, rd: nat, wr: nat, peak: nat)

  datatype Event =
    | Append(bytes: seq<Byte>)
    | Prepend(bytes: seq<Byte>)
    | Retrieve(len: nat)
    | RetrieveAll
    | ReadFd(bytes: seq<Byte>)     // what readv() delivers

  function Zeros(n: nat): seq<Byte> {
    seq(n, _ => 0)
  }

  function Init(): Buf {
    Buf(Zeros(CHEAP_PREPEND + INITIAL_SIZE), CHEAP_PREPEND, CHEAP_PREPEND, 0)
  }

  predicate Inv(b: Buf) {
    && b.rd <= b.wr <= |b.data| && b.wr - b.rd <= b.peak
    && |b.data| <= SpaceBound(b.peak)
  }

  /** The bound on the backing store. */
  function SpaceBound(peak: nat): nat {
    if 2 * peak + 7 < CHEAP_PREPEND + INITIAL_SIZE then CHEAP_PREPEND + INITIAL_SIZE else 2 * peak + 7
  }

  /** The readable region. */
  function Readable(b: Buf): seq<Byte>
    requires b.rd <= b.wr <= |b.data|
  {
    b.data[b.rd..b.wr]
  }

  function Noted(b: Buf): Buf
    requires b.rd <= b.wr
  {
    b.(peak := if b.wr - b.rd > b.peak then b.wr - b.rd else b.peak)
  }

  /** Puts `bytes` over `data` from `k` on. */
  function Overlay(data: seq<Byte>, k: nat, bytes: seq<Byte>): seq<Byte>
    requires k + |bytes| <= |data|
  {
    data[..k] + bytes + data[k + |bytes|..]
  }

  function MakeSpace(b: Buf, len: nat): Outcome<Buf>
    requires b.rd <= b.wr <= |b.data|
  {
    if (|b.data| - b.wr) + b.rd < len + CHEAP_PREPEND then
      var n := b.wr + len;
      Next(b.(data := if n <= |b.data| then b.data[..n] else b.data + Zeros(n - |b.data|)))
    else if b.rd <= CHEAP_PREPEND then Fault
    else
      Next(b.(data := Overlay(b.data, CHEAP_PREPEND, Readable(b)), rd := CHEAP_PREPEND,
          wr := CHEAP_PREPEND + (b.wr - b.rd)))
  }

  function EnsureWritable(b: Buf, len: nat): Outcome<Buf>
    requires b.rd <= b.wr <= |b.data|
  {
    if |b.data| - b.wr < len then MakeSpace(b, len) else Next(b)
  }

  function AppendBytes(b: Buf, bytes: seq<Byte>): Outcome<Buf>
    requires b.rd <= b.wr <= |b.data|
  {
    match EnsureWritable(b, |bytes|)
    case Next(c) =>
      if c.wr > |c.data| || |c.data| - c.wr < |bytes| || c.rd > c.wr then Fault else
      Next(Noted(c.(data := Overlay(c.data, c.wr, bytes), wr := c.wr + |bytes|)))
    case o => o
  }

  function Step(b: Buf, e: Event): Outcome<Buf>
  {
    if !(b.rd <= b.wr <= |b.data|) then Fault else
    match e
    case Append(bytes) => AppendBytes(b, bytes)
    case Prepend(bytes) =>
      if |bytes| > b.rd then Fault else
      Next(Noted(b.(data := Overlay(b.data, b.rd - |bytes|, bytes), rd := b.rd - |bytes|)))
    case Retrieve(len) =>
      if len > b.wr - b.rd then Fault else Next(b.(rd := b.rd + len))
    case RetrieveAll => if |b.data| < CHEAP_PREPEND then Fault else Next(b.(rd := CHEAP_PREPEND, wr := CHEAP_PREPEND))
    case ReadFd(bytes) =>
      var writable := |b.data| - b.wr;
      if |bytes| > writable + EXTRA then Disabled
      else if |bytes| <= writable then
        Next(Noted(b.(data := Overlay(b.data, b.wr, bytes), wr := b.wr + |bytes|)))
      else
        AppendBytes(Noted(b.(data := Overlay(b.data, b.wr, bytes[..writable]), wr := |b.data|)), bytes[writable..])
  }

  /** The reference: a queue of bytes.  What its caller must respect shows in `Accepts`. */
  function Queue(q: seq<Byte>, e: Event): seq<Byte> {
    match e
    case Append(bytes) => q + bytes
    case Prepend(bytes) => bytes + q
    case Retrieve(len) => if len <= |q| then q[len..] else []
    case RetrieveAll => []
    case ReadFd(bytes) => q + bytes
  }

  /** The callers' obligations: not to retrieve more than is there, not to prepend more than fits. */
  predicate Accepts(b: Buf, e: Event) {
    match e
    case Prepend(bytes) => |bytes| <= b.rd
    case Retrieve(len) => len <= b.wr - b.rd
    case _ => true
  }

  ghost predicate Good(b: Buf) {
    Inv(b) && CHEAP_PREPEND + INITIAL_SIZE <= |b.data|
  }

  lemma OverlayReads(data: seq<Byte>, k: nat, bytes: seq<Byte>, i: nat)
    requires i <= k && k + |bytes| <= |data|
    ensures Overlay(data, k, bytes)[i..k] == data[i..k]
    ensures Overlay(data, k, bytes)[k..k + |bytes|] == bytes
    ensures Overlay(data, k, bytes)[i..k + |bytes|] == data[i..k] + bytes
    ensures Overlay(data, k, bytes)[k + |bytes|..] == data[k + |bytes|..]
  {
  }

  /** Making space never fails its assertion, keeps the contents, and leaves enough room within the bound. */
  lemma SpaceMade(b: Buf, len: nat)
    requires b.rd <= b.wr <= |b.data| && |b.data| <= SpaceBound(b.peak)
    ensures var o := EnsureWritable(b, len);
            && o.Next? && o.state.rd <= o.state.wr && o.state.wr + len <= |o.state.data|
            && Readable(o.state) == Readable(b) && o.state.peak == b.peak && |b.data| <= |o.state.data|
            && |o.state.data| <= SpaceBound(if b.wr - b.rd + len > b.peak then b.wr - b.rd + len else b.peak)
  {
    var c := EnsureWritable(b, len).state;
    if |b.data| - b.wr < len && (|b.data| - b.wr) + b.rd >= len + CHEAP_PREPEND {
      OverlayReads(b.data, CHEAP_PREPEND, Readable(b), CHEAP_PREPEND);
    }
  }

  lemma AppendRefines(b: Buf, bytes: seq<Byte>)
    requires b.rd <= b.wr <= |b.data| && |b.data| <= SpaceBound(b.peak)
    ensures var o := AppendBytes(b, bytes);
            && o.Next? && Inv(o.state) && Readable(o.state) == Readable(b) + bytes && |b.data| <= |o.state.data|
            && o.state.peak == if |Readable(b)| + |bytes| > b.peak then |Readable(b)| + |bytes| else b.peak
  {
    SpaceMade(b, |bytes|);
    var c := EnsureWritable(b, |bytes|).state;
    OverlayReads(c.data, c.wr, bytes, c.rd);
    assert |Readable(c)| == c.wr - c.rd && |Readable(b)| == b.wr - b.rd;
  }

  /** Each operation does to the readable region what it does to the queue, fails only if its caller is wrong,
      and keeps the backing store within the bound. */
  lemma StepRefines(b: Buf, e: Event)
    requires Good(b)
    ensures Step(b, e).Fault? <==> !Accepts(b, e)
    ensures Step(b, e).Next? ==> var c := Step(b, e).state;
              && Good(c) && Readable(c) == Queue(Readable(b), e)
              && c.peak == if |Readable(c)| > b.peak then |Readable(c)| else b.peak
  {
    match e
    case Append(bytes) => AppendRefines(b, bytes);
    case Prepend(bytes) => if |bytes| <= b.rd { PrependRefines(b, bytes); }
    case Retrieve(len) =>
    case RetrieveAll =>
    case ReadFd(bytes) =>
      if |bytes| <= |b.data| - b.wr {
        ReadInPlace(b, bytes);
      } else if |bytes| <= |b.data| - b.wr + EXTRA {
        ReadSpills(b, bytes);
      }
  }

  lemma PrependRefines(b: Buf, bytes: seq<Byte>)
    requires b.rd <= b.wr <= |b.data| && |bytes| <= b.rd
    ensures var d, k := Overlay(b.data, b.rd - |bytes|, bytes), b.rd - |bytes|;
            |d| == |b.data| && d[k..b.wr] == bytes + Readable(b)
  {
    var k := b.rd - |bytes|;
    var d := Overlay(b.data, k, bytes);
    OverlayReads(b.data, k, bytes, k);
    assert d[b.rd..b.wr] == b.data[b.rd..b.wr];
    assert d[k..b.wr] == d[k..b.rd] + d[b.rd..b.wr];
  }

  /** What readv() delivered fits behind the contents. */
  lemma ReadInPlace(b: Buf, bytes: seq<Byte>)
    requires b.rd <= b.wr && b.wr + |bytes| <= |b.data|
    ensures var d := Overlay(b.data, b.wr, bytes); |d| == |b.data| && d[b.rd..b.wr + |bytes|] == Readable(b) + bytes
  {
    OverlayReads(b.data, b.wr, bytes, b.rd);
  }

  /** The writable region filled up by the first part of what readv() delivered. */
  function FilledUp(b: Buf, bytes: seq<Byte>): Buf
    requires b.rd <= b.wr <= |b.data| && |b.data| - b.wr <= |bytes|
  {
    Noted(b.(data := Overlay(b.data, b.wr, bytes[..|b.data| - b.wr]), wr := |b.data|))
  }

  lemma FillsUp(b: Buf, bytes: seq<Byte>)
    requires Good(b) && |b.data| - b.wr < |bytes|
    ensures var c := FilledUp(b, bytes);
            && Good(c) && Readable(c) == Readable(b) + bytes[..|b.data| - b.wr]
            && c.peak == if |Readable(c)| > b.peak then |Readable(c)| else b.peak
  {
    ReadInPlace(b, bytes[..|b.data| - b.wr]);
  }

  /** It does not, and the rest comes from the spill area. */
  lemma ReadSpills(b: Buf, bytes: seq<Byte>)
    requires Good(b) && |b.data| - b.wr < |bytes| <= |b.data| - b.wr + EXTRA
    ensures var o := Step(b, ReadFd(bytes));
            && o.Next? && Good(o.state) && Readable(o.state) == Readable(b) + bytes
            && o.state.peak == if |Readable(o.state)| > b.peak then |Readable(o.state)| else b.peak
  {
    var writable := |b.data| - b.wr;
    FillsUp(b, bytes);
    SpillStep(b, bytes);
    AppendRefines(FilledUp(b, bytes), bytes[writable..]);
    Joined(Readable(b), bytes, writable);
  }

  lemma SpillStep(b: Buf, bytes: seq<Byte>)
    requires b.rd <= b.wr && |b.data| - b.wr < |bytes| <= |b.data| - b.wr + EXTRA && b.wr <= |b.data|
    ensures Step(b, ReadFd(bytes)) == AppendBytes(FilledUp(b, bytes), bytes[|b.data| - b.wr..])
  {
  }

  lemma Joined(q: seq<Byte>, bytes: seq<Byte>, n: nat)
    requires n <= |bytes|
    ensures q + bytes[..n] + bytes[n..] == q + bytes
  {
  }

  ghost function QueueRun(q: seq<Byte>, es: seq<Event>): seq<Byte>
    decreases |es|
  {
    if es == [] then q else QueueRun(Queue(q, es[0]), es[1..])
  }

  /** Over every run of a fresh buffer the readable region is the queue, and the backing store never exceeds
      max(1032, 2 * peak + 7), where `peak` is the largest size the queue has had. */
  lemma BufferIsQueue(es: seq<Event>)
    requires Run(Step, Init(), es).Next?
    ensures var b := Run(Step, Init(), es).state;
            Good(b) && Readable(b) == QueueRun([], es) && b.peak == Peak([], es) && |b.data| <= SpaceBound(Peak([], es))
  {
    assert Readable(Init()) == [];
    RunRefines(Init(), es);
  }

  ghost function Peak(q: seq<Byte>, es: seq<Event>): nat
    decreases |es|
  {
    if es == [] then |q| else
    var rest := Peak(Queue(q, es[0]), es[1..]);
    if |q| > rest then |q| else rest
  }

  lemma {:induction false} RunRefines(b: Buf, es: seq<Event>)
    requires Good(b)
    ensures Run(Step, b, es).Next? ==> var c := Run(Step, b, es).state;
              && Good(c) && Readable(c) == QueueRun(Readable(b), es)
              && c.peak == (var p := Peak(Readable(b), es); if p > b.peak then p else b.peak)
    decreases |es|
  {
    if es != [] && Step(b, es[0]).Next? {
      StepRefines(b, es[0]);
      RunRefines(Step(b, es[0]).state, es[1..]);
    }
  }

  // ---------- shrink ----------

  /** `shrink` moves the bytes to the front of a new store and leaves both indices where they were. */
  function Shrink(b: Buf, reserve: nat): Buf
    requires b.rd <= b.wr <= |b.data|
  {
    b.(data := Zeros(CHEAP_PREPEND) + Readable(b) + Zeros(reserve))
  }

  /** The indices are inside the new store and delimit the same bytes. */
  ghost predicate ShrinkKeeps(b: Buf, reserve: nat)
    requires b.rd <= b.wr <= |b.data|
  {
    var c := Shrink(b, reserve);
    c.wr <= |c.data| && Readable(c) == Readable(b)
  }

  /** Whatever the bytes are, `shrink` is right exactly when the data already starts at offset 8, or when there is
      no data and the indices stay inside the new store. */
  lemma ShrinkExactly(rd: nat, len: nat, reserve: nat)
    ensures (forall b: Buf | b.rd == rd && b.wr == rd + len <= |b.data| :: ShrinkKeeps(b, reserve))
            <==> rd == CHEAP_PREPEND || (len == 0 && rd <= CHEAP_PREPEND + reserve)
  {
    if rd == CHEAP_PREPEND || (len == 0 && rd <= CHEAP_PREPEND + reserve) {
      forall b: Buf | b.rd == rd && b.wr == rd + len <= |b.data| ensures ShrinkKeeps(b, reserve) {
        assert Shrink(b, reserve).data[CHEAP_PREPEND..CHEAP_PREPEND + len] == Readable(b);
      }
    } else {
      var mark := if rd < CHEAP_PREPEND || len == 0 then 0 else len - 1;
      var data := seq(rd + len, i => if i == rd + mark then 1 else 0);
      var b := Buf(data, rd, rd + len, len);
      var c := Shrink(b, reserve);
      assert Readable(b) == seq(len, i => if i == mark then 1 else 0);
      if len > 0 && c.wr <= |c.data| {
        assert Readable(b)[mark] == 1;
        assert Readable(c)[mark] == c.data[rd + mark];
        assert Readable(c)[mark] == 0;
      }
      assert !ShrinkKeeps(b, reserve);
    }
  }
}
