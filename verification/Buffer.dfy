/** The byte buffer: a vector of bytes with a read index and a write index. */
module Buffer {
  import opened Network

  const CHEAP_PREPEND: nat := 8
  const INITIAL_SIZE: nat := 1024
  const EXTRA_SIZE: nat := 65536

  datatype ReadResult = Bytes(data: seq<Byte>) | Error(errno: int)

  /** Where the readable bytes `s` lie: from index `reader` in a vector of `size` bytes. */
  datatype Layout = Layout(reader: nat, size: nat, s: seq<Byte>)
  {
    predicate Valid() { reader + |s| <= size && CHEAP_PREPEND <= size }

    function Room(): nat
      requires Valid()
    {
      size - reader - |s|
    }
  }

  /** ensureWritableBytes: enough room already, or a larger vector, or the bytes moved to the front. */
  function Roomy(a: Layout, len: nat): (r: Layout)
    requires a.Valid()
    ensures r.Valid() && r.s == a.s && r.Room() >= len && (r.reader == a.reader || r.reader == CHEAP_PREPEND < a.reader)
  {
    if a.Room() >= len then a
    else if a.Room() + a.reader < len + CHEAP_PREPEND then a.(size := a.reader + |a.s| + len)
    else a.(reader := CHEAP_PREPEND)
  }

  class Buffer {
    var buffer: array<Byte>
    var readerIndex: nat
    var writerIndex: nat

    predicate Valid()
      reads this
    {
      readerIndex <= writerIndex <= buffer.Length && CHEAP_PREPEND <= buffer.Length
    }

    /** The readable bytes. */
    function Contents(): seq<Byte>
      requires Valid()
      reads this, buffer
    {
      buffer[readerIndex..writerIndex]
    }

    ghost function View(): (a: Layout)
      requires Valid()
      ensures a.Valid()
      reads this, buffer
    {
      Layout(readerIndex, buffer.Length, Contents())
    }

    function ReadableBytes(): nat
      requires Valid()
      reads this
    {
      writerIndex - readerIndex
    }

    function WritableBytes(): nat
      requires Valid()
      reads this
    {
      buffer.Length - writerIndex
    }

    function PrependableBytes(): nat
      reads this
    {
      readerIndex
    }

    constructor (initialSize: nat)
      ensures Valid() && fresh(buffer) && Contents() == []
      ensures WritableBytes() == initialSize && PrependableBytes() == CHEAP_PREPEND
      ensures View() == Layout(CHEAP_PREPEND, CHEAP_PREPEND + initialSize, [])
    {
      buffer := new Byte[CHEAP_PREPEND + initialSize](_ => 0);
      readerIndex, writerIndex := CHEAP_PREPEND, CHEAP_PREPEND;
    }

    // ---------- retrieve ----------

    method RetrieveAll()
      requires Valid()
      modifies this`readerIndex, this`writerIndex
      ensures Valid() && Contents() == [] && PrependableBytes() == CHEAP_PREPEND
    {
      readerIndex, writerIndex := CHEAP_PREPEND, CHEAP_PREPEND;
    }

    method Retrieve(len: nat)
      requires Valid() && len <= ReadableBytes()
      modifies this`readerIndex, this`writerIndex
      ensures Valid() && Contents() == old(Contents())[len..]
      ensures readerIndex == if len < old(ReadableBytes()) then old(readerIndex) + len else CHEAP_PREPEND
    {
      if len < ReadableBytes() {
        readerIndex := readerIndex + len;
      } else {
        RetrieveAll();
      }
    }

    method RetrieveAsString(len: nat) returns (result: seq<Byte>)
      requires Valid() && len <= ReadableBytes()
      modifies this`readerIndex, this`writerIndex
      ensures Valid() && result + Contents() == old(Contents()) && |result| == len
    {
      result := buffer[readerIndex..readerIndex + len];
      Retrieve(len);
    }

    method Unwrite(len: nat)
      requires Valid() && len <= ReadableBytes()
      modifies this`writerIndex
      ensures Valid() && Contents() == old(Contents())[..old(ReadableBytes()) - len]
    {
      writerIndex := writerIndex - len;
    }

    // ---------- append and prepend ----------

    /** std::vector::resize to a larger size. */
    method Resize(size: nat)
      requires Valid() && size >= buffer.Length
      modifies this`buffer
      ensures Valid() && fresh(buffer) && buffer.Length == size && Contents() == old(Contents())
    {
      var was := buffer;
      buffer := new Byte[size](i reads was => if 0 <= i < was.Length then was[i] else 0);
    }

    /** Moves the readable bytes down to the cheap prepend area; source and target may overlap. */
    method MoveToFront()
      requires Valid() && CHEAP_PREPEND < readerIndex
      modifies this`readerIndex, this`writerIndex, buffer
      ensures Valid() && Contents() == old(Contents()) && PrependableBytes() == CHEAP_PREPEND
    {
      var readable := ReadableBytes();
      ghost var s := Contents();
      for i := 0 to readable
        invariant readerIndex == old(readerIndex) && writerIndex == old(writerIndex)
        invariant forall k {:trigger s[k]} :: 0 <= k < i ==> buffer[CHEAP_PREPEND + k] == s[k]
        invariant forall k {:trigger s[k]} :: i <= k < readable ==> buffer[readerIndex + k] == s[k]
      {
        buffer[CHEAP_PREPEND + i] := buffer[readerIndex + i];
      }
      readerIndex := CHEAP_PREPEND;
      writerIndex := readerIndex + readable;
      assert forall k {:trigger s[k]} :: 0 <= k < readable ==> Contents()[k] == s[k];
    }

    /** Called only when there is too little room to write. */
    method MakeSpace(len: nat)
      requires Valid() && WritableBytes() < len
      modifies this, buffer
      ensures Valid() && Contents() == old(Contents()) && WritableBytes() >= len
      ensures View() == Roomy(old(View()), len) && (buffer == old(buffer) || fresh(buffer))
      ensures if old(WritableBytes() + PrependableBytes()) >= len + CHEAP_PREPEND
              then buffer == old(buffer) && readerIndex == CHEAP_PREPEND
              else buffer.Length == old(writerIndex) + len && readerIndex == old(readerIndex)
    {
      if WritableBytes() + PrependableBytes() < len + CHEAP_PREPEND {
        Resize(writerIndex + len);
      } else {
        assert CHEAP_PREPEND < readerIndex;
        MoveToFront();
      }
    }

    method EnsureWritableBytes(len: nat)
      requires Valid()
      modifies this, buffer
      ensures Valid() && Contents() == old(Contents()) && WritableBytes() >= len
      ensures View() == Roomy(old(View()), len) && (buffer == old(buffer) || fresh(buffer))
    {
      if WritableBytes() < len {
        MakeSpace(len);
      }
    }

    /** Copies `data` to the write position. */
    method CopyIn(data: seq<Byte>)
      requires Valid() && |data| <= WritableBytes()
      modifies this`writerIndex, buffer
      ensures Valid() && Contents() == old(Contents()) + data
      ensures writerIndex == old(writerIndex) + |data|
    {
      for i := 0 to |data|
        invariant writerIndex == old(writerIndex)
        invariant buffer[..writerIndex] == old(buffer[..writerIndex])
        invariant buffer[writerIndex..writerIndex + i] == data[..i]
      {
        buffer[writerIndex + i] := data[i];
        assert buffer[writerIndex..writerIndex + i + 1] == buffer[writerIndex..writerIndex + i] + [data[i]];
      }
      writerIndex := writerIndex + |data|;
      assert buffer[..old(writerIndex)][readerIndex..] == old(Contents());
      assert Contents() == buffer[readerIndex..old(writerIndex)] + buffer[old(writerIndex)..writerIndex];
    }

    method Append(data: seq<Byte>)
      requires Valid()
      modifies this, buffer
      ensures Valid() && Contents() == old(Contents()) + data
      ensures View() == After(Op.Append(data), old(View())) && (buffer == old(buffer) || fresh(buffer))
    {
      EnsureWritableBytes(|data|);
      CopyIn(data);
    }

    method Prepend(data: seq<Byte>)
      requires Valid() && |data| <= PrependableBytes()
      modifies this`readerIndex, buffer
      ensures Valid() && Contents() == data + old(Contents()) && readerIndex == old(readerIndex) - |data|
    {
      ghost var s := Contents();
      readerIndex := readerIndex - |data|;
      for i := 0 to |data|
        invariant readerIndex == old(readerIndex) - |data|
        invariant forall k {:trigger data[k]} :: 0 <= k < i ==> buffer[readerIndex + k] == data[k]
        invariant forall k {:trigger s[k]} :: 0 <= k < |s| ==> buffer[old(readerIndex) + k] == s[k]
      {
        buffer[readerIndex + i] := data[i];
      }
      assert buffer[readerIndex..old(readerIndex)] == data && buffer[old(readerIndex)..writerIndex] == s;
      assert Contents() == buffer[readerIndex..old(readerIndex)] + buffer[old(readerIndex)..writerIndex];
    }

    // ---------- shrink and readFd ----------

    /** A fresh buffer with the same contents takes over. */
    method Shrink(reserve: nat)
      requires Valid()
      modifies this
      ensures Valid() && fresh(buffer) && Contents() == old(Contents())
      ensures WritableBytes() >= reserve && View() == After(Op.Shrink(reserve), old(View()))
    {
      var other := new Buffer(INITIAL_SIZE);
      other.EnsureWritableBytes(ReadableBytes() + reserve);
      other.Append(Contents());
      buffer, readerIndex, writerIndex := other.buffer, other.readerIndex, other.writerIndex;
    }

    /** How much readv may return: the tail of the buffer, and the spill array if the tail is short. */
    function ReadLimit(): nat
      requires Valid()
      reads this
    {
      WritableBytes() + if WritableBytes() < EXTRA_SIZE then EXTRA_SIZE else 0
    }

    /** The kernel fills the tail first and the spill array after it. */
    method ReadFd(result: ReadResult) returns (n: int)
      requires Valid() && (result.Bytes? ==> |result.data| <= ReadLimit())
      modifies this, buffer
      ensures Valid() && (buffer == old(buffer) || fresh(buffer))
      ensures Contents() == old(Contents()) + if result.Bytes? then result.data else []
      ensures View() == After(Op.ReadFd(result), old(View()))
      ensures n == if result.Bytes? then |result.data| else -1
    {
      match result
      case Error(_) =>
        n := -1;
      case Bytes(data) =>
        var writable := WritableBytes();
        n := |data|;
        if n <= writable {
          CopyIn(data);
        } else {
          hide After;
          var extrabuf := data[writable..];
          SpillLayout(View(), data);
          CopyIn(data[..writable]);
          assert writerIndex == buffer.Length;
          Append(extrabuf);
          assert data == data[..writable] + extrabuf;
        }
    }

    // ---------- integers in network order ----------

    method AppendInt(x: int, n: nat)
      requires Valid() && Fits(x, n)
      modifies this, buffer
      ensures Valid() && Contents() == old(Contents()) + ToNetwork(x, n) && (buffer == old(buffer) || fresh(buffer))
    {
      Append(ToNetwork(x, n));
    }

    method PrependInt(x: int, n: nat)
      requires Valid() && Fits(x, n) && n <= PrependableBytes()
      modifies this`readerIndex, buffer
      ensures Valid() && Contents() == ToNetwork(x, n) + old(Contents())
    {
      Prepend(ToNetwork(x, n));
    }

    method PeekInt(n: nat) returns (x: int)
      requires Valid() && 0 < n <= ReadableBytes()
      ensures x == FromNetwork(Contents()[..n])
    {
      x := FromNetwork(buffer[readerIndex..readerIndex + n]);
      assert Contents()[..n] == buffer[readerIndex..readerIndex + n];
    }

    method ReadInt(n: nat) returns (x: int)
      requires Valid() && 0 < n <= ReadableBytes()
      modifies this`readerIndex, this`writerIndex
      ensures Valid() && x == FromNetwork(old(Contents())[..n]) && Contents() == old(Contents())[n..]
    {
      x := PeekInt(n);
      Retrieve(n);
    }
  }

  /** What was written in front of `tail` reads back, and leaves `tail`. */
  lemma ReadsBack(x: int, n: nat, tail: seq<Byte>)
    requires Fits(x, n)
    ensures var s := ToNetwork(x, n) + tail; FromNetwork(s[..n]) == x && s[n..] == tail
  {
    RoundTrip(x, n);
    assert (ToNetwork(x, n) + tail)[..n] == ToNetwork(x, n);
  }

  /** An integer prepended and one appended read back around whatever the buffer holds. */
  method IntRoundTrip(b: Buffer, x: int, y: int, n: nat) returns (x': int, rest: seq<Byte>, y': int)
    requires b.Valid() && Fits(x, n) && Fits(y, n) && n <= b.PrependableBytes()
    modifies b, b.buffer
    ensures b.Valid() && x' == x && rest == old(b.Contents()) && y' == y && b.Contents() == []
  {
    hide ToNetwork, FromNetwork;
    ghost var c := b.Contents();
    b.PrependInt(x, n);
    b.AppendInt(y, n);
    assert b.Contents() == ToNetwork(x, n) + (c + ToNetwork(y, n));
    ReadsBack(x, n, c + ToNetwork(y, n));
    x' := b.ReadInt(n);
    rest := b.RetrieveAsString(b.ReadableBytes() - n);
    assert rest == (c + ToNetwork(y, n))[..|c|] == c;
    assert b.Contents() == ToNetwork(y, n) + [];
    ReadsBack(y, n, []);
    y' := b.ReadInt(n);
  }

  // ---------- whole runs ----------

  datatype Op =
    | Append(data: seq<Byte>)
    | Prepend(data: seq<Byte>)
    | Retrieve(len: nat)
    | RetrieveAll
    | Unwrite(len: nat)
    | Shrink(reserve: nat)
    | ReadFd(result: ReadResult)

  /** The operation's DCHECK, or what the kernel can return. */
  predicate Legal(op: Op, a: Layout)
    requires a.Valid()
  {
    match op
    case Prepend(data) => |data| <= a.reader
    case Retrieve(len) => len <= |a.s|
    case Unwrite(len) => len <= |a.s|
    case ReadFd(result) =>
      result.Bytes? ==> |result.data| <= a.Room() + if a.Room() < EXTRA_SIZE then EXTRA_SIZE else 0
    case _ => true
  }

  /** What an operation does to the layout. */
  function After(op: Op, a: Layout): (r: Layout)
    requires a.Valid() && Legal(op, a)
    ensures r.Valid()
  {
    match op
    case Append(data) => var b := Roomy(a, |data|); b.(s := b.s + data)
    case Prepend(data) => Layout(a.reader - |data|, a.size, data + a.s)
    case Retrieve(len) =>
      if len < |a.s| then Layout(a.reader + len, a.size, a.s[len..]) else Layout(CHEAP_PREPEND, a.size, [])
    case RetrieveAll => Layout(CHEAP_PREPEND, a.size, [])
    case Unwrite(len) => a.(s := a.s[..|a.s| - len])
    case Shrink(reserve) =>
      var b := Roomy(Layout(CHEAP_PREPEND, CHEAP_PREPEND + INITIAL_SIZE, []), |a.s| + reserve);
      b.(s := a.s)
    case ReadFd(Error(_)) => a
    case ReadFd(Bytes(data)) =>
      if |data| <= a.Room() then a.(s := a.s + data)
      else
        var b := Roomy(a.(s := a.s + data[..a.Room()]), |data| - a.Room());
        b.(s := a.s + data)
  }

  /** A read that fills the vector appends the rest from the spill array. */
  lemma SpillLayout(a: Layout, data: seq<Byte>)
    requires a.Valid() && a.Room() < |data| && Legal(Op.ReadFd(Bytes(data)), a)
    ensures After(Op.ReadFd(Bytes(data)), a) == After(Op.Append(data[a.Room()..]), a.(s := a.s + data[..a.Room()]))
  {
    assert a.s + data[..a.Room()] + data[a.Room()..] == a.s + data;
  }

  /** What an operation does to a plain sequence of readable bytes. */
  function Effect(op: Op, s: seq<Byte>): seq<Byte> {
    match op
    case Append(data) => s + data
    case Prepend(data) => data + s
    case Retrieve(len) => if len <= |s| then s[len..] else s
    case RetrieveAll => []
    case Unwrite(len) => if len <= |s| then s[..|s| - len] else s
    case Shrink(_) => s
    case ReadFd(result) => if result.Bytes? then s + result.data else s
  }

  function Effects(ops: seq<Op>, s: seq<Byte>): seq<Byte> {
    if ops == [] then s else Effects(ops[1..], Effect(ops[0], s))
  }

  lemma AfterIsEffect(op: Op, a: Layout)
    requires a.Valid() && Legal(op, a)
    ensures After(op, a).s == Effect(op, a.s)
  {
  }

  /** Every operation is legal when its turn comes. */
  predicate LegalRun(ops: seq<Op>, a: Layout)
    requires a.Valid()
  {
    ops == [] || (Legal(ops[0], a) && LegalRun(ops[1..], After(ops[0], a)))
  }

  function AfterAll(ops: seq<Op>, a: Layout): (r: Layout)
    requires a.Valid() && LegalRun(ops, a)
    ensures r.Valid()
  {
    if ops == [] then a else AfterAll(ops[1..], After(ops[0], a))
  }

  /** In every layout the operations act on the readable bytes as they do on a plain sequence. */
  lemma {:induction false} AfterAllIsEffects(ops: seq<Op>, a: Layout)
    requires a.Valid() && LegalRun(ops, a)
    ensures AfterAll(ops, a).s == Effects(ops, a.s)
  {
    hide After, Effect, Legal;
    if ops != [] {
      AfterIsEffect(ops[0], a);
      AfterAllIsEffects(ops[1..], After(ops[0], a));
    }
  }

  /** Every retrieve and unwrite finds its bytes in a plain sequence, no read exceeds the spill array, and no more
      than `cheap` bytes are prepended in all. */
  predicate LegalOn(ops: seq<Op>, s: seq<Byte>, cheap: nat) {
    ops == [] ||
    (&& match ops[0] {
          case Prepend(data) => |data| <= cheap
          case Retrieve(len) => len <= |s|
          case Unwrite(len) => len <= |s|
          case ReadFd(result) => result.Bytes? ==> |result.data| <= EXTRA_SIZE
          case _ => true
        }
     && LegalOn(ops[1..], Effect(ops[0], s), CheapLeft(ops[0], cheap)))
  }

  function CheapLeft(op: Op, cheap: nat): nat {
    if op.Prepend? && |op.data| <= cheap then cheap - |op.data| else cheap
  }

  /** What a caller can tell from the bytes alone is enough: the cheap prepend area is there in every layout,
      however often the bytes were moved, grown or shrunk meanwhile. */
  lemma {:induction false} LegalAnywhere(ops: seq<Op>, a: Layout, cheap: nat)
    requires a.Valid() && cheap <= a.reader && cheap <= CHEAP_PREPEND && LegalOn(ops, a.s, cheap)
    ensures LegalRun(ops, a)
  {
    hide Roomy, Effect;
    if ops != [] {
      AfterIsEffect(ops[0], a);
      LegalAnywhere(ops[1..], After(ops[0], a), CheapLeft(ops[0], cheap));
    }
  }

  method Do(b: Buffer, op: Op)
    requires b.Valid() && Legal(op, b.View())
    modifies b, b.buffer
    ensures b.Valid() && b.View() == After(op, old(b.View())) && (b.buffer == old(b.buffer) || fresh(b.buffer))
  {
    match op
    case Append(data) => b.Append(data);
    case Prepend(data) => b.Prepend(data);
    case Retrieve(len) => b.Retrieve(len);
    case RetrieveAll => b.RetrieveAll();
    case Unwrite(len) => b.Unwrite(len);
    case Shrink(reserve) => b.Shrink(reserve);
    case ReadFd(result) =>
      var n := b.ReadFd(result);
  }

  /** Any run in which every operation is legal when its turn comes acts on the readable bytes as on a plain
      sequence, and leaves the vector and its indices as AfterAll says. */
  method Run(b: Buffer, ops: seq<Op>)
    requires b.Valid() && LegalRun(ops, b.View())
    modifies b, b.buffer
    ensures b.Valid() && b.View() == AfterAll(ops, old(b.View()))
    ensures b.Contents() == Effects(ops, old(b.Contents()))
  {
    hide After, Legal, Effect;
    AfterAllIsEffects(ops, b.View());
    for i := 0 to |ops|
      invariant b.Valid() && (b.buffer == old(b.buffer) || fresh(b.buffer))
      invariant LegalRun(ops[i..], b.View()) && AfterAll(ops[i..], b.View()) == AfterAll(ops, old(b.View()))
    {
      Do(b, ops[i]);
      assert ops[i..][1..] == ops[i + 1..];
    }
  }
}
