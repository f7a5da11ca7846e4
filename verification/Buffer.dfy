/** `Buffer` itself: one array and two indices.

    Each method makes its step of `BufferModel`; what the step does to the
    readable bytes is `BufferModel.StepRefines`.
 */
module BufferClass {
  import opened Machine
  import opened BufferModel

  /** What readv(2) did. */
  datatype ReadvResult = Delivered(bytes: seq<Byte>) | Failed(errno: int)

  class Buffer {
    var buffer: array<Byte>
    var readerIndex: nat
    var writerIndex: nat

    ghost var peak: nat

    ghost function View(): Buf
      reads this, buffer
    {
      Buf(buffer[..], readerIndex, writerIndex, peak)
    }

    ghost predicate Valid()
      reads this, buffer
    {
      Good(View())
    }

    constructor ()
      ensures View() == Init() && Valid() && fresh(buffer)
    {
      buffer := new Byte[CHEAP_PREPEND + INITIAL_SIZE](_ => 0);
      readerIndex, writerIndex, peak := CHEAP_PREPEND, CHEAP_PREPEND, 0;
      new;
      assert buffer[..] == Zeros(CHEAP_PREPEND + INITIAL_SIZE);
    }

    function ReadableBytes(): nat
      reads this
      requires readerIndex <= writerIndex
    {
      writerIndex - readerIndex
    }

    function WritableBytes(): nat
      reads this, buffer
      requires writerIndex <= buffer.Length
    {
      buffer.Length - writerIndex
    }

    method Retrieve(len: nat)
      requires Valid() && Accepts(View(), BufferModel.Retrieve(len))
      modifies this
      ensures buffer == old(buffer) && Step(old(View()), BufferModel.Retrieve(len)) == Next(View()) && Valid()
      ensures Readable(View()) == old(Readable(View()))[len..]
    {
      StepRefines(View(), BufferModel.Retrieve(len));
      assert len <= ReadableBytes();
      readerIndex := readerIndex + len;
    }

    method RetrieveAll()
      requires Valid()
      modifies this
      ensures buffer == old(buffer) && Step(old(View()), BufferModel.RetrieveAll) == Next(View()) && Valid()
    {
      StepRefines(View(), BufferModel.RetrieveAll);
      readerIndex := CHEAP_PREPEND;
      writerIndex := CHEAP_PREPEND;
    }

    method RetrieveAsString() returns (str: seq<Byte>)
      requires Valid()
      modifies this
      ensures Valid() && str == old(Readable(View())) && Readable(View()) == [] && buffer == old(buffer)
    {
      str := buffer[readerIndex..writerIndex];
      RetrieveAll();
    }

    /** `std::copy` forward, over itself: the destination does not start after the source. */
    method CopyDown(from: nat, to: nat, n: nat)
      requires to <= from && from + n <= buffer.Length
      modifies buffer
      ensures buffer[..] == Overlay(old(buffer[..]), to, old(buffer[from..from + n]))
    {
      ghost var was := buffer[..];
      var i := 0;
      while i < n
        invariant 0 <= i <= n
        invariant buffer[..to] == was[..to] && buffer[to..to + i] == was[from..from + i]
                  && buffer[to + i..] == was[to + i..]
      {
        assert buffer[from + i] == buffer[to + i..][from - to] == was[from + i];
        assert buffer[to + i + 1..] == buffer[to + i..][1..];
        buffer[to + i] := buffer[from + i];
        i := i + 1;
      }
      assert buffer[..] == buffer[..to] + buffer[to..to + n] + buffer[to + n..];
    }

    /** `std::copy` of outside bytes into the store. */
    method CopyIn(bytes: seq<Byte>, to: nat)
      requires to + |bytes| <= buffer.Length
      modifies buffer
      ensures buffer[..] == Overlay(old(buffer[..]), to, bytes)
    {
      var i := 0;
      while i < |bytes|
        invariant 0 <= i <= |bytes|
        invariant forall j | 0 <= j < i :: buffer[to + j] == bytes[j]
        invariant forall j | 0 <= j < buffer.Length && !(to <= j < to + i) :: buffer[j] == old(buffer[j])
      {
        buffer[to + i] := bytes[i];
        i := i + 1;
      }
    }

    /** `std::vector::resize`: a longer store starts with the old bytes and ends with zeros. */
    method Resize(n: nat)
      requires buffer.Length <= n
      modifies this`buffer
      ensures fresh(buffer) && buffer[..] == old(buffer[..]) + Zeros(n - old(buffer.Length))
    {
      var bigger := new Byte[n](_ => 0);
      var i := 0;
      while i < buffer.Length
        invariant 0 <= i <= buffer.Length
        invariant buffer == old(buffer) && buffer[..] == old(buffer[..]) && bigger.Length == n
        invariant forall j | 0 <= j < i :: bigger[j] == buffer[j]
        invariant forall j | i <= j < n :: bigger[j] == 0
      {
        bigger[i] := buffer[i];
        i := i + 1;
      }
      buffer := bigger;
    }

    method MakeSpace(len: nat)
      requires readerIndex <= writerIndex <= buffer.Length && WritableBytes() < len
               && BufferModel.MakeSpace(View(), len).Next?
      modifies this, buffer
      ensures buffer == old(buffer) || fresh(buffer)
      ensures BufferModel.MakeSpace(old(View()), len) == Next(View())
    {
      if WritableBytes() + readerIndex < len + CHEAP_PREPEND {
        Resize(writerIndex + len);
      } else {
        assert CHEAP_PREPEND < readerIndex;
        var readable := ReadableBytes();
        CopyDown(readerIndex, CHEAP_PREPEND, readable);
        readerIndex := CHEAP_PREPEND;
        writerIndex := readerIndex + readable;
        assert readable == ReadableBytes();
      }
    }

    method EnsureWritableBytes(len: nat)
      requires readerIndex <= writerIndex <= buffer.Length && EnsureWritable(View(), len).Next?
      modifies this, buffer
      ensures buffer == old(buffer) || fresh(buffer)
      ensures EnsureWritable(old(View()), len) == Next(View())
    {
      if WritableBytes() < len {
        MakeSpace(len);
      }
    }

    method Append(bytes: seq<Byte>)
      requires readerIndex <= writerIndex <= buffer.Length && AppendBytes(View(), bytes).Next?
      modifies this, buffer
      ensures buffer == old(buffer) || fresh(buffer)
      ensures AppendBytes(old(View()), bytes) == Next(View())
      ensures old(Valid()) ==> Valid() && Readable(View()) == old(Readable(View())) + bytes
    {
      AppendKeeps(View(), bytes);
      EnsureWritableBytes(|bytes|);
      assert WritableBytes() >= |bytes|;
      Fill(bytes);
    }

    static lemma AppendKeeps(b: Buf, bytes: seq<Byte>)
      requires b.rd <= b.wr <= |b.data| && AppendBytes(b, bytes).Next?
      ensures Good(b) ==>
                var c := AppendBytes(b, bytes).state; Good(c) && Readable(c) == Readable(b) + bytes
    {
      if Good(b) { AppendRefines(b, bytes); }
    }

    ghost method Note()
      requires readerIndex <= writerIndex
      modifies this`peak
      ensures View() == Noted(old(View()))
    {
      peak := if writerIndex - readerIndex > peak then writerIndex - readerIndex else peak;
    }

    method Prepend(bytes: seq<Byte>)
      requires Valid() && Accepts(View(), BufferModel.Prepend(bytes))
      modifies this, buffer
      ensures buffer == old(buffer) && Step(old(View()), BufferModel.Prepend(bytes)) == Next(View()) && Valid()
      ensures Readable(View()) == bytes + old(Readable(View()))
    {
      StepRefines(View(), BufferModel.Prepend(bytes));
      readerIndex := readerIndex - |bytes|;
      CopyIn(bytes, readerIndex);
      Note();
    }

    /** Bytes arrive in the writable region. */
    method Fill(bytes: seq<Byte>)
      requires readerIndex <= writerIndex && writerIndex + |bytes| <= buffer.Length
      modifies this, buffer
      ensures buffer == old(buffer)
      ensures View() == Noted(old(View()).(data := Overlay(old(buffer[..]), old(writerIndex), bytes),
              wr := old(writerIndex) + |bytes|))
    {
      CopyIn(bytes, writerIndex);
      writerIndex := writerIndex + |bytes|;
      Note();
    }

    /** `readFd`: readv() has delivered bytes over the writable region and the spill area, or failed.  `savedErrno` is
        written in the second case only. */
    method ReadFd(answer: ReadvResult, oldErrno: int) returns (n: int, savedErrno: int)
      requires Valid() && (answer.Delivered? ==> Step(View(), BufferModel.ReadFd(answer.bytes)).Next?)
      modifies this, buffer
      ensures Valid() && (buffer == old(buffer) || fresh(buffer))
      ensures answer.Delivered? ==>
                && n == |answer.bytes| && savedErrno == oldErrno
                && Step(old(View()), BufferModel.ReadFd(answer.bytes)) == Next(View())
                && Readable(View()) == old(Readable(View())) + answer.bytes
      ensures answer.Failed? ==> n == -1 && savedErrno == answer.errno && View() == old(View())
    {
      savedErrno := oldErrno;
      var writable := WritableBytes();
      match answer
      case Failed(errno) =>
        n, savedErrno := -1, errno;
      case Delivered(bytes) =>
        StepRefines(View(), BufferModel.ReadFd(bytes));
        n := |bytes|;
        Receive(bytes, writable);
    }

    method Receive(bytes: seq<Byte>, writable: nat)
      requires Step(View(), BufferModel.ReadFd(bytes)).Next? && writable == buffer.Length - writerIndex
      modifies this, buffer
      ensures buffer == old(buffer) || fresh(buffer)
      ensures Step(old(View()), BufferModel.ReadFd(bytes)) == Next(View())
    {
      if |bytes| <= writable {
        Fill(bytes);
      } else {
        Fill(bytes[..writable]);
        Append(bytes[writable..]);
      }
    }
  }
}
