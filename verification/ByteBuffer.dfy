/** The growable byte buffer: one array, a reader index and a writer index. */
module ByteBuffer {
  import opened Wrappers
  import opened Bytes

  const CHEAP_PREPEND: nat := 8
  const INITIAL_SIZE: nat := 1024
  const EXTRA_SIZE: nat := 65536

  /** What the kernel answers to one readv: an error, or the bytes it copied out. */
  datatype ReadResult = ReadFailed(errno: int) | ReadOk(bytes: string)

  function Max(a: nat, b: nat): nat { if a < b then b else a }

  class Buffer {
    var buffer: array<char>
    var readerIndex: nat
    var writerIndex: nat

    ghost predicate Valid()
      reads this
    {
      CHEAP_PREPEND <= readerIndex <= writerIndex <= buffer.Length
    }

    /** The readable bytes, oldest first. */
    function Contents(): (s: string)
      reads this, buffer
      requires Valid()
      ensures |s| == writerIndex - readerIndex
    {
      buffer[readerIndex..writerIndex]
    }

    function Shape(): Geometry
      reads this
    {
      Geometry(buffer.Length, readerIndex, writerIndex)
    }

    constructor ()
      ensures Valid() && fresh(buffer)
      ensures Contents() == "" && Shape() == FreshGeometry()
    {
      buffer := new char[CHEAP_PREPEND + INITIAL_SIZE];
      readerIndex, writerIndex := CHEAP_PREPEND, CHEAP_PREPEND;
    }

    function ReadableBytes(): (n: nat)
      reads this, buffer
      requires Valid()
      ensures n == |Contents()|
    {
      writerIndex - readerIndex
    }

    function WritableBytes(): nat
      reads this
      requires Valid()
    {
      buffer.Length - writerIndex
    }

    function FindCRLF(): Option<nat>
      reads this, buffer
      requires Valid()
    {
      FindLineEnd(Contents())
    }

    /** Drops the first `len` readable bytes, or all of them when there are no more. */
    method Retrieve(len: nat)
      requires Valid()
      modifies this`readerIndex, this`writerIndex
      ensures Valid() && Shape() == RetrieveGeometry(old(Shape()), len)
      ensures Contents() == (if len < |old(Contents())| then old(Contents())[len..] else "")
    {
      if len < ReadableBytes() {
        readerIndex := readerIndex + len;
      } else {
        RetrieveAll();
      }
    }

    method RetrieveAll()
      requires Valid()
      modifies this`readerIndex, this`writerIndex
      ensures Valid() && Contents() == ""
      ensures readerIndex == writerIndex == CHEAP_PREPEND
    {
      readerIndex, writerIndex := CHEAP_PREPEND, CHEAP_PREPEND;
    }

    /** Retrieval up to a position inside the readable bytes, counted from the first of them. */
    method RetrieveUntil(end: nat)
      requires Valid() && end <= |Contents()|
      modifies this`readerIndex, this`writerIndex
      ensures Valid() && Contents() == old(Contents())[end..]
      ensures Shape() == RetrieveGeometry(old(Shape()), end)
    {
      Retrieve(end);
    }

    method RetrieveAsString(len: nat) returns (result: string)
      requires Valid() && len <= |Contents()|
      modifies this`readerIndex, this`writerIndex
      ensures Valid() && result + Contents() == old(Contents()) && |result| == len
    {
      result := buffer[readerIndex..readerIndex + len];
      Retrieve(len);
    }

    /** Reallocates, or slides the readable bytes to the front; they never change. */
    method MakeSpace(len: nat)
      requires Valid() && WritableBytes() < len
      modifies this, buffer
      ensures Valid() && len <= WritableBytes()
      ensures Contents() == old(Contents())
      ensures Shape() == SpaceGeometry(old(Shape()), len)
      ensures buffer == old(buffer) || fresh(buffer)
    {
      ghost var was := Contents();
      if readerIndex + WritableBytes() < len + CHEAP_PREPEND {
        var bigger := new char[writerIndex + len](_ => '\0');
        forall k | 0 <= k < buffer.Length {
          bigger[k] := buffer[k];
        }
        buffer := bigger;
      } else {
        var readable := ReadableBytes();
        forall k | 0 <= k < readable {
          buffer[CHEAP_PREPEND + k] := buffer[readerIndex + k];
        }
        readerIndex := CHEAP_PREPEND;
        writerIndex := readerIndex + readable;
      }
      assert Contents() == was;
    }

    method EnsureWritableBytes(len: nat)
      requires Valid()
      modifies this, buffer
      ensures Valid() && len <= WritableBytes()
      ensures Contents() == old(Contents())
      ensures Shape() == EnsureGeometry(old(Shape()), len)
      ensures buffer == old(buffer) || fresh(buffer)
    {
      if WritableBytes() < len {
        MakeSpace(len);
      }
    }

    method Append(data: string)
      requires Valid()
      modifies this, buffer
      ensures Valid() && Contents() == old(Contents()) + data
      ensures Shape() == AppendGeometry(old(Shape()), |data|)
      ensures buffer == old(buffer) || fresh(buffer)
    {
      EnsureWritableBytes(|data|);
      WriteTail(data);
    }

    /** The overload for whole strings. */
    method AppendString(str: string)
      requires Valid()
      modifies this, buffer
      ensures Valid() && Contents() == old(Contents()) + str
      ensures Shape() == AppendGeometry(old(Shape()), |str|)
      ensures buffer == old(buffer) || fresh(buffer)
    {
      Append(str);
    }

    /** memcpy behind the writer index, into room that is already there. */
    method WriteTail(data: string)
      requires Valid() && |data| <= WritableBytes()
      modifies this`writerIndex, buffer
      ensures Valid() && Contents() == old(Contents()) + data
      ensures writerIndex == old(writerIndex) + |data|
    {
      ghost var was := Contents();
      var start := writerIndex;
      forall k | 0 <= k < |data| {
        buffer[start + k] := data[k];
      }
      writerIndex := start + |data|;
      assert buffer[readerIndex..start] == was;
      assert buffer[start..writerIndex] == data;
      assert buffer[readerIndex..writerIndex] == buffer[readerIndex..start] + buffer[start..writerIndex];
    }

    /** How much one readv may deliver: the free tail, plus the stack block when the tail is small. */
    function ReadCapacity(): nat
      reads this
      requires Valid()
    {
      RoomFor(Shape())
    }

    /** One scattered read: the free tail first, the overflow through the stack block. */
    method ReadFd(answer: ReadResult) returns (n: int)
      requires Valid()
      requires answer.ReadOk? ==> |answer.bytes| <= ReadCapacity()
      modifies this, buffer
      ensures Valid() && (buffer == old(buffer) || fresh(buffer))
      ensures answer.ReadFailed? ==> n == -1 && Contents() == old(Contents()) && Shape() == old(Shape())
      ensures answer.ReadOk? ==> n == |answer.bytes| && Contents() == old(Contents()) + answer.bytes
      ensures answer.ReadOk? ==> Shape() == ReadGeometry(old(Shape()), |answer.bytes|)
    {
      if answer.ReadFailed? {
        return -1;
      }
      var bytes := answer.bytes;
      n := |bytes|;
      var writable := WritableBytes();
      if n <= writable {
        WriteTail(bytes);
      } else {
        WriteTail(bytes[..writable]);
        Append(bytes[writable..]);
        assert bytes == bytes[..writable] + bytes[writable..];
      }
    }
  }

  // ---------------------------------------------------------------------------
  // How the allocation moves: the size bound over whole runs.

  datatype Geometry = Geometry(size: nat, reader: nat, writer: nat) {
    ghost predicate Ok() { CHEAP_PREPEND <= reader <= writer <= size }
    function Readable(): int { writer - reader }
  }

  function FreshGeometry(): Geometry {
    Geometry(CHEAP_PREPEND + INITIAL_SIZE, CHEAP_PREPEND, CHEAP_PREPEND)
  }

  function RetrieveGeometry(g: Geometry, len: nat): Geometry
    requires g.Ok()
  {
    if len < g.Readable() then g.(reader := g.reader + len)
    else g.(reader := CHEAP_PREPEND, writer := CHEAP_PREPEND)
  }

  function SpaceGeometry(g: Geometry, len: nat): Geometry
    requires g.Ok()
  {
    if g.reader + (g.size - g.writer) < len + CHEAP_PREPEND then g.(size := g.writer + len)
    else g.(reader := CHEAP_PREPEND, writer := CHEAP_PREPEND + (g.writer - g.reader))
  }

  function EnsureGeometry(g: Geometry, len: nat): Geometry
    requires g.Ok()
  {
    if g.size - g.writer < len then SpaceGeometry(g, len) else g
  }

  function AppendGeometry(g: Geometry, len: nat): Geometry
    requires g.Ok()
  {
    var e := EnsureGeometry(g, len);
    e.(writer := e.writer + len)
  }

  function ReadGeometry(g: Geometry, n: nat): Geometry
    requires g.Ok()
  {
    if n <= g.size - g.writer then g.(writer := g.writer + n)
    else AppendGeometry(g.(writer := g.size), n - (g.size - g.writer))
  }

  function RoomFor(g: Geometry): nat
    requires g.Ok()
  {
    g.size - g.writer + (if g.size - g.writer < EXTRA_SIZE then EXTRA_SIZE else 0)
  }

  datatype Op = OpAppend(data: string) | OpRetrieve(len: nat) | OpRead(bytes: string)

  /** The effect of one operation on the readable bytes, as the contracts of the class state it. */
  function Applied(bytes: string, op: Op): string {
    match op
    case OpAppend(data) => bytes + data
    case OpRetrieve(len) => if len < |bytes| then bytes[len..] else ""
    case OpRead(read) => bytes + read
  }

  function AppliedAll(bytes: string, ops: seq<Op>): string
    decreases |ops|
  {
    if ops == [] then bytes else AppliedAll(Applied(bytes, ops[0]), ops[1..])
  }

  /** The bytes one operation writes, and how many it takes out. */
  function Wrote(op: Op): string {
    match op
    case OpAppend(data) => data
    case OpRetrieve(_) => ""
    case OpRead(read) => read
  }

  function Takes(bytes: string, op: Op): nat {
    if op.OpRetrieve? then (if op.len < |bytes| then op.len else |bytes|) else 0
  }

  function Written(ops: seq<Op>): string {
    if ops == [] then "" else Wrote(ops[0]) + Written(ops[1..])
  }

  function Taken(bytes: string, ops: seq<Op>): nat
    decreases |ops|
  {
    if ops == [] then 0 else Takes(bytes, ops[0]) + Taken(Applied(bytes, ops[0]), ops[1..])
  }

  lemma StepIsFifo(bytes: string, op: Op, rest: string)
    ensures Takes(bytes, op) <= |bytes|
    ensures Applied(bytes, op) + rest == (bytes + (Wrote(op) + rest))[Takes(bytes, op)..]
  {
  }

  lemma DropTwice(s: string, m: nat, n: nat)
    requires m <= |s| && n <= |s[m..]|
    ensures s[m..][n..] == s[m + n..]
  {
  }

  /** FIFO over any run: what is readable is what was written minus the prefix already taken. */
  lemma {:induction false} RunIsFifo(bytes: string, ops: seq<Op>)
    ensures Taken(bytes, ops) <= |bytes + Written(ops)|
    ensures AppliedAll(bytes, ops) == (bytes + Written(ops))[Taken(bytes, ops)..]
    decreases |ops|
  {
    if ops == [] {
      assert bytes + "" == bytes;
    } else {
      var now, rest := Applied(bytes, ops[0]), ops[1..];
      RunIsFifo(now, rest);
      StepIsFifo(bytes, ops[0], Written(rest));
      DropTwice(bytes + Written(ops), Takes(bytes, ops[0]), Taken(now, rest));
    }
  }

  datatype Run = Run(shape: Geometry, bytes: string)

  const NEW_RUN := Run(FreshGeometry(), "")

  ghost predicate RunOk(r: Run) {
    r.shape.Ok() && |r.bytes| == r.shape.Readable()
  }

  function Apply(r: Run, op: Op): (r': Run)
    requires RunOk(r)
    ensures RunOk(r')
  {
    var shape := match op
      case OpAppend(data) => AppendGeometry(r.shape, |data|)
      case OpRetrieve(len) => RetrieveGeometry(r.shape, len)
      case OpRead(read) => ReadGeometry(r.shape, |read|);
    Run(shape, Applied(r.bytes, op))
  }

  function ApplyAll(r: Run, ops: seq<Op>): (r': Run)
    requires RunOk(r)
    ensures RunOk(r')
    decreases |ops|
  {
    if ops == [] then r else ApplyAll(Apply(r, ops[0]), ops[1..])
  }

  /** Every read of a run delivers no more than the kernel was offered room for. */
  ghost predicate Feasible(r: Run, ops: seq<Op>)
    requires RunOk(r)
    decreases |ops|
  {
    ops == [] ||
    (&& (ops[0].OpRead? ==> |ops[0].bytes| <= RoomFor(r.shape))
     && Feasible(Apply(r, ops[0]), ops[1..]))
  }

  /** A buffer object goes through any run as the values do, in contents and in allocation. */
  method Perform(buf: Buffer, ops: seq<Op>)
    requires buf.Valid() && Feasible(Run(buf.Shape(), buf.Contents()), ops)
    modifies buf, buf.buffer
    ensures buf.Valid() && (buf.buffer == old(buf.buffer) || fresh(buf.buffer))
    ensures Run(buf.Shape(), buf.Contents()) == ApplyAll(old(Run(buf.Shape(), buf.Contents())), ops)
  {
    ghost var start := Run(buf.Shape(), buf.Contents());
    for i := 0 to |ops|
      invariant buf.Valid() && (buf.buffer == old(buf.buffer) || fresh(buf.buffer))
      invariant Feasible(Run(buf.Shape(), buf.Contents()), ops[i..])
      invariant ApplyAll(Run(buf.Shape(), buf.Contents()), ops[i..]) == ApplyAll(start, ops)
    {
      assert ops[i..][0] == ops[i] && ops[i..][1..] == ops[i + 1..];
      PerformOne(buf, ops[i]);
    }
  }

  method PerformOne(buf: Buffer, op: Op)
    requires buf.Valid() && (op.OpRead? ==> |op.bytes| <= RoomFor(buf.Shape()))
    modifies buf, buf.buffer
    ensures buf.Valid() && (buf.buffer == old(buf.buffer) || fresh(buf.buffer))
    ensures Run(buf.Shape(), buf.Contents()) == Apply(old(Run(buf.Shape(), buf.Contents())), op)
  {
    match op {
      case OpAppend(data) => buf.Append(data);
      case OpRetrieve(len) => buf.Retrieve(len);
      case OpRead(bytes) => var _ := buf.ReadFd(ReadOk(bytes));
    }
  }

  /** The appends of a run never exceed `most` bytes and never find more than `held` readable. */
  ghost predicate Within(r: Run, ops: seq<Op>, held: nat, most: nat)
    requires RunOk(r)
    decreases |ops|
  {
    ops == [] ||
    (&& Within(Apply(r, ops[0]), ops[1..], held, most)
     && (ops[0].OpAppend? ==> |r.bytes| <= held && |ops[0].data| <= most)
     && (ops[0].OpRead? ==> ReadAppendWithin(r, |ops[0].bytes|, held, most)))
  }

  /** A read that overflows the free tail appends the overflow to a full array. */
  ghost predicate ReadAppendWithin(r: Run, n: nat, held: nat, most: nat)
    requires RunOk(r)
  {
    var free := r.shape.size - r.shape.writer;
    n <= free || (|r.bytes| + free <= held && n - free <= most)
  }

  lemma AppendBound(g: Geometry, len: nat)
    requires g.Ok()
    ensures AppendGeometry(g, len).Ok()
    ensures AppendGeometry(g, len).size <= Max(g.size, g.Readable() + 2 * len + 7)
  {
  }

  /** The array stays within the larger of its first size and R + 2L + 7. */
  lemma {:induction false} SizeBound(r: Run, ops: seq<Op>, held: nat, most: nat)
    requires RunOk(r) && Within(r, ops, held, most)
    requires r.shape.size <= Max(CHEAP_PREPEND + INITIAL_SIZE, held + 2 * most + 7)
    ensures ApplyAll(r, ops).shape.size <= Max(CHEAP_PREPEND + INITIAL_SIZE, held + 2 * most + 7)
    decreases |ops|
  {
    if ops == [] {
    } else {
      match ops[0] {
        case OpAppend(data) => AppendBound(r.shape, |data|);
        case OpRetrieve(_) =>
        case OpRead(bytes) =>
          var free := r.shape.size - r.shape.writer;
          if |bytes| > free {
            AppendBound(r.shape.(writer := r.shape.size), |bytes| - free);
          }
      }
      SizeBound(Apply(r, ops[0]), ops[1..], held, most);
    }
  }

  /** From a new buffer: 1032 bytes, or what the traffic itself needs. */
  lemma FreshSizeBound(ops: seq<Op>, held: nat, most: nat)
    requires Within(NEW_RUN, ops, held, most)
    ensures ApplyAll(NEW_RUN, ops).shape.size <= Max(1032, held + 2 * most + 7)
  {
    SizeBound(NEW_RUN, ops, held, most);
  }

  // ---------------------------------------------------------------------------
  // The exact worst case

  /** The largest array any run can lead to that appends at most `most` bytes at a time to at most
      `held` readable ones: the first size as long as sliding always helps; otherwise one
      reallocation at the worst moment. A drained buffer starts over at the front. */
  function WorstCase(held: nat, most: nat): nat {
    if most == 0 || held + most + 7 < CHEAP_PREPEND + INITIAL_SIZE then CHEAP_PREPEND + INITIAL_SIZE
    else if held == 0 then most + 8
    else held + 2 * most + 7
  }

  /** What every run from a new buffer keeps. */
  ghost predicate Roomy(r: Run, held: nat, most: nat) {
    && RunOk(r)
    && CHEAP_PREPEND + INITIAL_SIZE <= r.shape.size <= WorstCase(held, most)
    && (r.bytes == "" ==> r.shape.reader == CHEAP_PREPEND)
  }

  lemma AppendKeepsRoomy(g: Geometry, len: nat, held: nat, most: nat)
    requires g.Ok() && g.Readable() <= held && len <= most
    requires CHEAP_PREPEND + INITIAL_SIZE <= g.size <= WorstCase(held, most)
    requires g.Readable() == 0 ==> g.reader == CHEAP_PREPEND
    ensures var h := AppendGeometry(g, len);
            && h.Ok() && CHEAP_PREPEND + INITIAL_SIZE <= h.size <= WorstCase(held, most)
            && (h.Readable() == 0 ==> h.reader == CHEAP_PREPEND)
  {
  }

  lemma StepKeepsRoomy(r: Run, op: Op, held: nat, most: nat)
    requires Roomy(r, held, most) && Within(r, [op], held, most)
    ensures Roomy(Apply(r, op), held, most)
  {
    match op {
      case OpAppend(data) => AppendKeepsRoomy(r.shape, |data|, held, most);
      case OpRetrieve(_) =>
      case OpRead(bytes) =>
        var free := r.shape.size - r.shape.writer;
        if |bytes| > free {
          AppendKeepsRoomy(r.shape.(writer := r.shape.size), |bytes| - free, held, most);
        }
    }
  }

  lemma {:induction false} RunKeepsRoomy(r: Run, ops: seq<Op>, held: nat, most: nat)
    requires Roomy(r, held, most) && Within(r, ops, held, most)
    ensures Roomy(ApplyAll(r, ops), held, most)
    decreases |ops|
  {
    if ops == [] {
    } else {
      StepKeepsRoomy(r, ops[0], held, most);
      RunKeepsRoomy(Apply(r, ops[0]), ops[1..], held, most);
    }
  }

  lemma {:induction false} ApplyJoin(r: Run, a: seq<Op>, b: seq<Op>, held: nat, most: nat)
    requires RunOk(r)
    ensures ApplyAll(r, a + b) == ApplyAll(ApplyAll(r, a), b)
    ensures Within(r, a + b, held, most) <==> Within(r, a, held, most) && Within(ApplyAll(r, a), b, held, most)
    decreases |a|
  {
    if a == [] {
      assert a + b == b;
    } else {
      assert (a + b)[0] == a[0] && (a + b)[1..] == a[1..] + b;
      ApplyJoin(Apply(r, a[0]), a[1..], b, held, most);
    }
  }

  function Zeros(n: nat): string { seq(n, _ => '0') }

  /** n appends of one byte each. */
  function Trickle(n: nat): seq<Op> {
    if n == 0 then [] else Trickle(n - 1) + [OpAppend(Zeros(1))]
  }

  lemma {:induction false} TrickleFills(n: nat, held: nat, most: nat)
    requires n <= held && 1 <= most
    ensures var r := ApplyAll(NEW_RUN, Trickle(n));
            && r.shape == Geometry(Max(1032, 8 + n), 8, 8 + n) && |r.bytes| == n
    ensures Within(NEW_RUN, Trickle(n), held, most)
    decreases n
  {
    if n == 0 {
    } else {
      TrickleFills(n - 1, held, most);
      ApplyJoin(NEW_RUN, Trickle(n - 1), [OpAppend(Zeros(1))], held, most);
      OneOp(ApplyAll(NEW_RUN, Trickle(n - 1)), OpAppend(Zeros(1)), held, most);
      TrickleGrows(ApplyAll(NEW_RUN, Trickle(n - 1)), n - 1);
    }
  }

  lemma TrickleGrows(r: Run, n: nat)
    requires r.shape == Geometry(Max(1032, 8 + n), 8, 8 + n) && |r.bytes| == n
    ensures var s := Apply(r, OpAppend(Zeros(1)));
            s.shape == Geometry(Max(1032, 9 + n), 8, 9 + n) && |s.bytes| == n + 1
  {
  }

  lemma OneOp(r: Run, op: Op, held: nat, most: nat)
    requires RunOk(r) && !op.OpRead?
    ensures ApplyAll(r, [op]) == Apply(r, op)
    ensures Within(r, [op], held, most) <==> (op.OpAppend? ==> |r.bytes| <= held && |op.data| <= most)
  {
    assert [op][1..] == [];
  }

  /** Fill up to `held`, one append more, free as much at the front as does not help, one last append. */
  function WorstRun(held: nat, most: nat): seq<Op>
    requires most > 0
  {
    if held == 0 then [OpAppend(Zeros(most))]
    else Trickle(held) + [OpAppend(Zeros(most - 1))] + [OpRetrieve(most - 1)] + [OpAppend(Zeros(most))]
  }

  lemma WorstRunReaches(held: nat, most: nat)
    requires most > 0 && held + most + 7 >= 1032
    ensures Within(NEW_RUN, WorstRun(held, most), held, most)
    ensures ApplyAll(NEW_RUN, WorstRun(held, most)).shape.size == WorstCase(held, most)
  {
    if held == 0 {
      OneOp(NEW_RUN, OpAppend(Zeros(most)), held, most);
    } else {
      var a, b, c := OpAppend(Zeros(most - 1)), OpRetrieve(most - 1), OpAppend(Zeros(most));
      TrickleFills(held, held, most);
      var r0 := ApplyAll(NEW_RUN, Trickle(held));
      OneOp(r0, a, held, most);
      var r1 := Apply(r0, a);
      assert r1.shape == Geometry(held + most + 7, 8, held + most + 7);
      OneOp(r1, b, held, most);
      var r2 := Apply(r1, b);
      assert r2.shape == Geometry(held + most + 7, most + 7, held + most + 7);
      OneOp(r2, c, held, most);
      ApplyJoin(NEW_RUN, Trickle(held), [a], held, most);
      ApplyJoin(NEW_RUN, Trickle(held) + [a], [b], held, most);
      ApplyJoin(NEW_RUN, Trickle(held) + [a] + [b], [c], held, most);
    }
  }

  /** The bound for runs from a new buffer, exactly: no run exceeds the worst case, and some run
      reaches it. */
  lemma SizeBoundIsTight(held: nat, most: nat)
    ensures forall ops :: Within(NEW_RUN, ops, held, most) ==>
              ApplyAll(NEW_RUN, ops).shape.size <= WorstCase(held, most)
    ensures exists ops :: Within(NEW_RUN, ops, held, most)
              && ApplyAll(NEW_RUN, ops).shape.size == WorstCase(held, most)
  {
    forall ops | Within(NEW_RUN, ops, held, most)
      ensures ApplyAll(NEW_RUN, ops).shape.size <= WorstCase(held, most)
    {
      RunKeepsRoomy(NEW_RUN, ops, held, most);
    }
    if most == 0 || held + most + 7 < 1032 {
      var none: seq<Op> := [];
      assert Within(NEW_RUN, none, held, most) && ApplyAll(NEW_RUN, none) == NEW_RUN;
    } else {
      WorstRunReaches(held, most);
    }
  }
}
