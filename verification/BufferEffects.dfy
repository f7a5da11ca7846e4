/** Where the buffer keeps its bytes: when it moves them, when it grows, and how much room there is, in numbers. */
module BufferEffects {
  import opened Machine
  import opened BufferModel

  /** A new buffer has 8 bytes for prepending and 1024 for writing. */
  lemma NewBuffer()
    ensures var b := Init(); Readable(b) == [] && b.rd == 8 && |b.data| - b.wr == 1024 && |b.data| == 1032
  {
  }

  /** An append that fits writes in place; one that fits only with the space before the data moves the data down to
      offset 8; any other grows the store to exactly the end of the new data, and moves nothing. */
  lemma AppendPlaces(b: Buf, bytes: seq<Byte>)
    requires Good(b)
    ensures Step(b, Append(bytes)).Next?
    ensures var c, n := Step(b, Append(bytes)).state, |bytes|;
            && Readable(c) == Readable(b) + bytes
            && (if n <= |b.data| - b.wr then |c.data| == |b.data| && c.rd == b.rd
                else if n + 8 <= |b.data| - b.wr + b.rd then |c.data| == |b.data| && c.rd == 8
                else |c.data| == b.wr + n && c.rd == b.rd && c.wr == |c.data|)
  {
    StepRefines(b, Append(bytes));
  }

  /** A prepend takes the space right before the data, and a retrieve leaves it; neither moves anything. */
  lemma FrontMoves(b: Buf, bytes: seq<Byte>, len: nat)
    requires Good(b)
    ensures |bytes| <= b.rd ==>
              && Step(b, Prepend(bytes)).Next?
              && var c := Step(b, Prepend(bytes)).state;
              c.rd == b.rd - |bytes| && c.wr == b.wr && |c.data| == |b.data| && Readable(c) == bytes + Readable(b)
    ensures len <= b.wr - b.rd ==> Step(b, Retrieve(len)) == Next(b.(rd := b.rd + len))
    ensures Step(b, RetrieveAll) == Next(b.(rd := 8, wr := 8))
  {
    StepRefines(b, Prepend(bytes));
  }

  /** One read takes in at most what is writable and 65536 bytes more, all of it. */
  lemma ReadTakesIn(b: Buf, bytes: seq<Byte>)
    requires Good(b)
    ensures Step(b, ReadFd(bytes)).Next? <==> |bytes| <= |b.data| - b.wr + 65536
    ensures Step(b, ReadFd(bytes)).Next? ==> Readable(Step(b, ReadFd(bytes)).state) == Readable(b) + bytes
  {
    StepRefines(b, ReadFd(bytes));
  }

  /** The bound in numbers: max(1032, 2 * peak + 7). */
  lemma BoundInNumbers(peak: nat)
    ensures SpaceBound(peak) == if 2 * peak + 7 < 1032 then 1032 else 2 * peak + 7
  {
  }

  /** `shrink` copies the data to offset 8 of a store with `reserve` bytes behind it, and leaves the indices. */
  lemma ShrinkMoves(b: Buf, reserve: nat)
    requires b.rd <= b.wr <= |b.data|
    ensures var c := Shrink(b, reserve);
            && |c.data| == 8 + (b.wr - b.rd) + reserve && c.data[8..8 + (b.wr - b.rd)] == Readable(b)
            && c.rd == b.rd && c.wr == b.wr
  {
  }
}
