/** The circular byte buffer. */
module CircularBuffer {
  import opened Octets

  /** What a buffer of `room` slots holds once `all` has gone into it: whole
      turns around the buffer are lost. */
  function Wrapped(all: Bytes, room: nat): (c: Bytes)
    requires room > 0
    ensures |c| < room
    decreases |all|
  {
    if |all| < room then all else Wrapped(all[room..], room)
  }

  /** A write appends exactly if there is room for it. */
  lemma WriteAppends(c: Bytes, data: Bytes, room: nat)
    requires |c| < room
    ensures Wrapped(c + data, room) == c + data <==> |c| + |data| < room
  {
    assert |Wrapped(c + data, room)| < room;
  }

  /** Writing in pieces makes no difference. */
  lemma {:induction false} WrittenInPieces(all: Bytes, data: Bytes, room: nat)
    requires room > 0
    ensures Wrapped(Wrapped(all, room) + data, room) == Wrapped(all + data, room)
    decreases |all|
  {
    if |all| >= room {
      WrittenInPieces(all[room..], data, room);
      assert (all + data)[room..] == all[room..] + data;
    }
  }

  // ---------- whole histories ----------

  datatype Op = Put(data: Bytes) | Get(n: nat)

  /** The contents after an operation: of the buffer, and of a queue without bounds. */
  function RingStep(c: Bytes, op: Op, room: nat): (d: Bytes)
    requires room > 0
  {
    match op
    case Put(data) => Wrapped(c + data, room)
    case Get(n) => if |c| < n then c else c[n..]
  }

  function QueueStep(c: Bytes, op: Op): (d: Bytes) {
    match op
    case Put(data) => c + data
    case Get(n) => if |c| < n then c else c[n..]
  }

  function RingRun(c: Bytes, ops: seq<Op>, room: nat): (r: seq<Bytes>)
    requires room > 0
    decreases |ops|
  {
    if ops == [] then [] else var d := RingStep(c, ops[0], room); [d] + RingRun(d, ops[1..], room)
  }

  function QueueRun(c: Bytes, ops: seq<Op>): (r: seq<Bytes>)
    decreases |ops|
  {
    if ops == [] then [] else var d := QueueStep(c, ops[0]); [d] + QueueRun(d, ops[1..])
  }

  /** The buffer is a queue for exactly those histories in which the queue never
      holds more than the buffer was made for, one less than it has slots. */
  lemma {:induction false} RefinesQueue(c: Bytes, ops: seq<Op>, room: nat)
    requires |c| < room
    ensures RingRun(c, ops, room) == QueueRun(c, ops) <==> forall i :: 0 <= i < |QueueRun(c, ops)| ==> |QueueRun(c, ops)[i]| < room
    decreases |ops|
  {
    if ops != [] {
      var r, q := RingStep(c, ops[0], room), QueueStep(c, ops[0]);
      var rs, qs := RingRun(c, ops, room), QueueRun(c, ops);
      assert rs[0] == r && qs[0] == q && |r| < room;
      assert rs[1..] == RingRun(r, ops[1..], room) && qs[1..] == QueueRun(q, ops[1..]);
      if |q| < room {
        if ops[0].Put? {
          WriteAppends(c, ops[0].data, room);
        }
        assert r == q;
        RefinesQueue(q, ops[1..], room);
        assert forall i :: 0 <= i < |qs| - 1 ==> qs[1..][i] == qs[i + 1];
        assert rs == [q] + rs[1..] && qs == [q] + qs[1..];
        assert forall i :: 1 <= i < |qs| ==> qs[i] == qs[1..][i - 1];
      }
    }
  }

  /** A buffer made for two bytes that is given a third one is empty. */
  lemma ThirdByteEmptiesTwo()
    ensures RingRun([], [Put([1, 2]), Put([3])], 3) == [[1, 2], []]
    ensures QueueRun([], [Put([1, 2]), Put([3])]) == [[1, 2], [1, 2, 3]]
  {
    var ops := [Put([1, 2]), Put([3])];
    assert [] + [1, 2] == [1, 2] && [1, 2] + [3] == [1, 2, 3];
    assert Wrapped([1, 2, 3], 3) == Wrapped([], 3) by {
      assert [1, 2, 3][3..] == [];
    }
    assert ops[1..] == [Put([3])] && ops[1..][1..] == [];
  }

  /** A copy of the slots, or of the bytes of a reader, in which d is written from a place on. */
  ghost predicate Written(was: Bytes, now: Bytes, at: nat, d: Bytes) {
    && |now| == |was| && at + |d| <= |was|
    && (forall i :: 0 <= i < |was| && (i < at || at + |d| <= i) ==> now[i] == was[i])
    && forall i :: at <= i < at + |d| ==> now[i] == d[i - at]
  }

  class CircBuf {
    const start: array<Byte>
    var head: int
    var tail: int

    ghost predicate Valid()
      reads this
    {
      0 <= head < start.Length && 0 <= tail < start.Length
    }

    ghost function Contents(): (c: Bytes)
      requires Valid()
      reads this, start
      ensures |c| < start.Length
    {
      if head <= tail then start[head..tail] else start[head..] + start[..tail]
    }

    /** circbuf_init */
    constructor (size: nat)
      ensures Valid() && fresh(start) && start.Length == size + 1 && Contents() == []
    {
      start := new Byte[size + 1](_ => 0);
      head, tail := 0, 0;
    }

    /** circbuf_length */
    method Length() returns (len: int)
      requires Valid()
      ensures len == |Contents()|
    {
      len := 0;
      if head <= tail {
        len := tail - head;
      } else {
        var l1 := start.Length - head;
        var l2 := tail;
        len := l1 + l2;
      }
    }

    /** memcpy to the tail */
    method CopyIn(data: Bytes, from: nat, len: nat)
      requires Valid() && tail + len <= start.Length && from + len <= |data|
      modifies start
      ensures Written(old(start[..]), start[..], tail, data[from..from + len])
    {
      forall i | 0 <= i < len {
        start[tail + i] := data[from + i];
      }
    }

    /** One piece of a write, up to the end of the buffer. */
    method WritePiece(data: Bytes, from: nat, len: nat)
      requires Valid() && 0 < len <= start.Length - tail && from + len <= |data|
      modifies start, `tail
      ensures Valid() && Contents() == Wrapped(old(Contents()) + data[from..from + len], start.Length)
    {
      ghost var was, c, d, room, t := start[..], Contents(), data[from..from + len], start.Length, tail;
      CopyIn(data, from, len);
      tail := tail + len;
      if tail >= start.Length {
        tail := 0;
      }
      PieceIs(was, start[..], head, t, d);
    }

    /** circbuf_write: as much as there is room for is appended; beyond that,
        the tail overtakes the head. */
    method Write(data: Bytes)
      requires Valid()
      modifies start, `tail
      ensures Valid() && Contents() == Wrapped(old(Contents()) + data, start.Length)
    {
      var size, done := |data|, 0;
      ghost var all := Contents();
      assert all + data[..0] == all && Wrapped(all, start.Length) == all;
      hide Wrapped, Written, Contents;
      while size > 0
        invariant Valid() && 0 <= size && done + size == |data|
        invariant Contents() == Wrapped(all + data[..done], start.Length)
      {
        var len := Min(start.Length - tail, size);
        WrittenInPieces(all + data[..done], data[done..done + len], start.Length);
        assert all + data[..done] + data[done..done + len] == all + data[..done + len];
        WritePiece(data, done, len);
        done, size := done + len, size - len;
      }
      assert data[..done] == data;
    }

    /** memcpy from the head */
    method CopyOut(buf: array<Byte>, at: nat, len: nat)
      requires Valid() && head + len <= start.Length && at + len <= buf.Length && buf != start
      modifies buf
      ensures Written(old(buf[..]), buf[..], at, start[head..head + len])
    {
      forall i | 0 <= i < len {
        buf[at + i] := start[head + i];
      }
    }

    /** One piece of a read, up to the end of the buffer. */
    method ReadPiece(buf: array<Byte>, at: nat, len: nat)
      requires Valid() && head + len <= start.Length && at + len <= buf.Length && buf != start && len <= |Contents()|
      modifies buf, `head
      ensures Valid() && MovedOut(old(buf[..]), buf[..], at, old(Contents()), Contents(), len)
    {
      ghost var c := Contents();
      CopyOut(buf, at, len);
      assert c[..len] == start[head..head + len];
      head := head + len;
      if head >= start.Length {
        head := 0;
      }
    }

    /** Between two turns of the loop of circbuf_read. */
    ghost predicate Reading(buf: array<Byte>, was: Bytes, c: Bytes, done: nat, left: nat)
      reads this, start, buf
    {
      Valid() && done + left <= buf.Length && left <= |Contents()| && ReadSoFar(was, buf[..], c, done, Contents())
    }

    /** One turn. */
    method ReadTurn(buf: array<Byte>, done: nat, left: nat, ghost was: Bytes, ghost c: Bytes) returns (len: nat)
      requires buf != start && left > 0 && Reading(buf, was, c, done, left)
      modifies buf, `head
      ensures 0 < len <= left && Reading(buf, was, c, done + len, left - len)
    {
      hide Contents, ReadSoFar, MovedOut;
      len := Min(start.Length - head, left);
      ghost var b, x := buf[..], Contents();
      ReadPiece(buf, done, len);
      ReadOn(was, b, buf[..], c, done, x, Contents(), len);
    }

    /** The loop of circbuf_read. */
    method ReadPieces(buf: array<Byte>, bufSize: nat, ghost was: Bytes, ghost c: Bytes)
      requires buf != start && Reading(buf, was, c, 0, bufSize)
      modifies buf, `head
      ensures Reading(buf, was, c, bufSize, 0)
    {
      hide Reading;
      var left, done := bufSize, 0;
      while left > 0
        invariant 0 <= left && 0 <= done && left + done == bufSize && Reading(buf, was, c, done, left)
      {
        var len := ReadTurn(buf, done, left, was, c);
        done, left := done + len, left - len;
      }
    }

    /** circbuf_read: all or nothing. */
    method Read(buf: array<Byte>, bufSize: int) returns (r: int)
      requires Valid() && bufSize <= buf.Length && buf != start
      modifies buf, `head
      ensures Valid() && r == if |old(Contents())| < bufSize then -1 else 0
      ensures r == -1 ==> Contents() == old(Contents()) && buf[..] == old(buf[..])
      ensures r == 0 ==> var n := if bufSize < 0 then 0 else bufSize;
        Contents() == old(Contents())[n..] && Written(old(buf[..]), buf[..], 0, old(Contents())[..n])
    {
      var size := tail - head;
      if size < 0 {
        size := size + start.Length;
      }
      assert size == |Contents()|;
      if size < bufSize {
        return -1;
      }
      if bufSize > 0 {
        hide Contents, Written;
        NothingRead(buf[..], Contents());
        ReadPieces(buf, bufSize, buf[..], Contents());
      }
      r := 0;
    }
  }

  /** Of the contents c, `done` bytes have been written to what was `was`; x are left. */
  ghost predicate ReadSoFar(was: Bytes, now: Bytes, c: Bytes, done: nat, x: Bytes) {
    done <= |c| && Written(was, now, 0, c[..done]) && x == c[done..]
  }

  lemma NothingRead(was: Bytes, c: Bytes)
    ensures ReadSoFar(was, was, c, 0, c)
  {
  }

  /** The first bytes of x have been written to what was b, and y are left. */
  ghost predicate MovedOut(b: Bytes, now: Bytes, at: nat, x: Bytes, y: Bytes, len: nat) {
    len <= |x| && y == x[len..] && Written(b, now, at, x[..len])
  }

  lemma ReadOn(was: Bytes, b: Bytes, now: Bytes, c: Bytes, done: nat, x: Bytes, y: Bytes, len: nat)
    requires ReadSoFar(was, b, c, done, x) && MovedOut(b, now, done, x, y, len)
    ensures ReadSoFar(was, now, c, done + len, y) && |y| == |x| - len
  {
    assert forall i :: 0 <= i < len ==> x[..len][i] == c[done + i];
  }

  /** The contents of a buffer, given its slots. */
  ghost function Between(s: Bytes, head: nat, tail: nat): (c: Bytes)
    requires head < |s| && tail < |s|
    ensures |c| < |s|
  {
    if head <= tail then s[head..tail] else s[head..] + s[..tail]
  }

  lemma BetweenAt(s: Bytes, head: nat, tail: nat, i: nat)
    requires head < |s| && tail < |s| && i < |Between(s, head, tail)|
    ensures Between(s, head, tail)[i] == s[if head + i < |s| then head + i else head + i - |s|]
  {
  }

  lemma PieceFits(was: Bytes, now: Bytes, head: nat, tail: nat, d: Bytes)
    requires head < |was| && tail < |was| && d != [] && Written(was, now, tail, d)
    requires |Between(was, head, tail)| + |d| < |was|
    ensures Between(now, head, if tail + |d| == |was| then 0 else tail + |d|) == Between(was, head, tail) + d
  {
    var b, c := Between(now, head, if tail + |d| == |was| then 0 else tail + |d|), Between(was, head, tail);
    assert |b| == |c| + |d|;
    forall i | 0 <= i < |b| ensures b[i] == (c + d)[i] {
      BetweenAt(now, head, if tail + |d| == |was| then 0 else tail + |d|, i);
      if i < |c| {
        BetweenAt(was, head, tail, i);
      }
    }
  }

  lemma PieceLaps(was: Bytes, now: Bytes, head: nat, tail: nat, d: Bytes)
    requires head < |was| && tail < |was| && d != [] && Written(was, now, tail, d)
    requires |Between(was, head, tail)| + |d| >= |was|
    ensures Between(now, head, if tail + |d| == |was| then 0 else tail + |d|) == (Between(was, head, tail) + d)[|was|..]
  {
    var b, c := Between(now, head, if tail + |d| == |was| then 0 else tail + |d|), Between(was, head, tail);
    assert |b| == |c| + |d| - |was|;
    forall i | 0 <= i < |b| ensures b[i] == (c + d)[|was| + i] {
      BetweenAt(now, head, if tail + |d| == |was| then 0 else tail + |d|, i);
    }
  }

  lemma WrappedOnce(all: Bytes, room: nat)
    requires 0 < room && |all| < 2 * room
    ensures Wrapped(all, room) == if |all| < room then all else all[room..]
  {
  }

  lemma PieceIs(was: Bytes, now: Bytes, head: nat, tail: nat, d: Bytes)
    requires head < |was| && tail < |was| && d != [] && Written(was, now, tail, d)
    ensures |now| == |was|
    ensures Between(now, head, if tail + |d| == |was| then 0 else tail + |d|) == Wrapped(Between(was, head, tail) + d, |was|)
  {
    WrappedOnce(Between(was, head, tail) + d, |was|);
    hide Between, Wrapped;
    if |Between(was, head, tail)| + |d| < |was| {
      PieceFits(was, now, head, tail, d);
    } else {
      PieceLaps(was, now, head, tail, d);
    }
  }
}
