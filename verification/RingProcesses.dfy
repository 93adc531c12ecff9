/** Any number of processes sharing one ring. A step is one CAS, one memcpy,
    one update of a queue-head field, or a local decision; memory is
    sequentially consistent. */
module RingProcesses {
  import opened Bytes
  import opened Ring

  datatype Op = Put(data: seq<byte>) | Get(capacity: int)

  /** What an operation returns: its code, the length it reports, the bytes. */
  datatype Outcome = Outcome(code: int, size: int, bytes: seq<byte>)

  // ------------------------------------------------- the sequential FIFO

  /** A FIFO of byte strings that is full when the blocks would exceed len. */
  function FifoStep(len: nat, cs: seq<seq<byte>>, op: Op): (seq<seq<byte>>, Outcome) {
    match op
    case Put(data) =>
      if Total(cs) + |data| + OVERHEAD > len then (cs, Outcome(ERR_FULL, 0, []))
      else (cs + [data], Outcome(SUCCESS, 0, []))
    case Get(capacity) =>
      if cs == [] then (cs, Outcome(ERR_EMPTY, capacity, []))
      else if capacity < |cs[0]| then (cs, Outcome(ERR_BUF_SMALL, |cs[0]|, []))
      else (cs[1..], Outcome(SUCCESS, |cs[0]|, cs[0]))
  }

  /** The operations one after the other, from an empty queue. */
  function FifoRun(len: nat, ops: seq<Op>): (seq<seq<byte>>, seq<Outcome>)
  {
    if ops == [] then ([], [])
    else
      var (cs, outs) := FifoRun(len, ops[..|ops| - 1]);
      var (cs', out) := FifoStep(len, cs, ops[|ops| - 1]);
      (cs', outs + [out])
  }

  // ------------------------------------------------- one process's steps

  datatype Copy = Copy(at: int, bytes: seq<byte>)
  datatype Fetch = Fetch(at: int, n: int)

  /** Where a process is in Enqueue or Dequeue. */
  datatype Process =
    | Idle
    | Spinning(op: Op)
    | Entered(op: Op)
    | Copying(data: seq<byte>, copies: seq<Copy>)
    | MovingTail(data: seq<byte>)
    | CountingUp
    | FetchingHeader(capacity: int, todo: seq<Fetch>, got: seq<byte>)
    | FetchingBody(size: nat, at: int, todo: seq<Fetch>, got: seq<byte>)
    | FetchingTrailer(body: seq<byte>, todo: seq<Fetch>, got: seq<byte>)
    | MovingHead(body: seq<byte>, trailer: seq<byte>)
    | CountingDown(body: seq<byte>, trailer: seq<byte>)
    | Scanning(capacity: int, readIndex: int, tailFlagCount: int)
    | Emptying(capacity: int)
    | Leaving(outcome: Outcome)

  predicate InCritical(p: Process) {
    !p.Idle? && !p.Spinning?
  }

  /** memcpy into the ring; a copy that leaves it is not given a meaning. */
  function Poke(mem: seq<byte>, c: Copy): (r: seq<byte>)
    ensures |r| == |mem|
  {
    if 0 <= c.at && c.at + |c.bytes| <= |mem| then Splice(mem, c.at, c.bytes) else mem
  }

  function Peek(mem: seq<byte>, f: Fetch): seq<byte> {
    if 0 <= f.at && 0 <= f.n && f.at + f.n <= |mem| then mem[f.at..f.at + f.n] else []
  }

  function PokeAll(mem: seq<byte>, cs: seq<Copy>): (r: seq<byte>)
    ensures |r| == |mem|
    decreases |cs|
  {
    if cs == [] then mem else PokeAll(Poke(mem, cs[0]), cs[1..])
  }

  function PeekAll(mem: seq<byte>, fs: seq<Fetch>): seq<byte> {
    if fs == [] then [] else Peek(mem, fs[0]) + PeekAll(mem, fs[1..])
  }

  datatype Piece = Piece(copies: seq<Copy>, next: int, left: int)

  /** One of the three copies of the wrapping branch of Enqueue. */
  function CopyPiece(at: int, room: nat, bytes: seq<byte>, head: int, len: nat): Piece
    requires len > 0
  {
    if room >= |bytes| then
      Piece([Copy(at, bytes)], (at + |bytes|) % len, room - |bytes|)
    else
      var next := (|bytes| - room) % len;
      Piece([Copy(at, bytes[..room]), Copy(0, bytes[room..])], next, head - next)
  }

  predicate Shaped(r: RingState) {
    |r.mem| == r.len && InRing(r.head, r.len) && InRing(r.tail, r.len)
  }

  /** The memcpy calls of Enqueue for a block that fits. */
  function EnqueueCopies(r: RingState, data: seq<byte>): (cs: seq<Copy>)
    requires Shaped(r) && |data| + OVERHEAD <= FreeSpace(r)
    ensures |cs| <= 6
  {
    var header, right := Header(r.tail, |data|), r.len - r.tail;
    if r.tail < r.head || right >= |data| + OVERHEAD then
      [Copy(r.tail, header), Copy(r.tail + BLOCK_HEADER_SIZE, data), Copy(r.tail + BLOCK_HEADER_SIZE + |data|, TRAILER)]
    else
      var one := CopyPiece(r.tail, right, header, r.head, r.len);
      if one.left < 0 then [] else
      var two := CopyPiece(one.next, one.left, data, r.head, r.len);
      if two.left < 0 then [] else
      var three := CopyPiece(two.next, two.left, TRAILER, r.head, r.len);
      one.copies + two.copies + three.copies
  }

  /** The one or two memcpy calls that read n bytes. */
  function Fetches(at: int, right: int, n: int): (fs: seq<Fetch>)
    ensures |fs| <= 2
  {
    if right >= n then [Fetch(at, n)] else [Fetch(at, right), Fetch(0, n - right)]
  }

  /** headRightSpace after n bytes were read. */
  function RightAfter(at: int, right: int, n: int, len: nat): int
    requires len > 0
  {
    if right >= n then right - n else len - (n - right) % len
  }

  /** One step of the process holding the lock. */
  function Work(p: Process, r: RingState): (Process, RingState)
    requires InCritical(p) && !p.Leaving? && Shaped(r)
    ensures InCritical(Work(p, r).0) && Shaped(Work(p, r).1) && Work(p, r).1.len == r.len
  {
    match p
    case Entered(Put(data)) =>
      if FreeSpace(r) < |data| + OVERHEAD then (Leaving(Outcome(ERR_FULL, 0, [])), r)
      else (Copying(data, EnqueueCopies(r, data)), r)
    case Copying(data, copies) =>
      if copies == [] then (MovingTail(data), r)
      else (Copying(data, copies[1..]), r.(mem := Poke(r.mem, copies[0])))
    case MovingTail(data) =>
      if r.len == 0 then (CountingUp, r)
      else (CountingUp, r.(tail := (r.tail + |data| + OVERHEAD) % r.len))
    case CountingUp =>
      (Leaving(Outcome(SUCCESS, 0, [])), r.(blocks := r.blocks + 1))
    case Entered(Get(capacity)) =>
      if r.blocks > 0 || r.head != r.tail then
        (FetchingHeader(capacity, Fetches(r.head, r.len - r.head, BLOCK_HEADER_SIZE), []), r)
      else (Leaving(Outcome(ERR_EMPTY, capacity, [])), r)
    case FetchingHeader(capacity, todo, got) =>
      if todo != [] then (FetchingHeader(capacity, todo[1..], got + Peek(r.mem, todo[0])), r)
      else (HeaderRead(capacity, got, r), r)
    case FetchingBody(size, at, todo, got) =>
      if todo != [] then (FetchingBody(size, at, todo[1..], got + Peek(r.mem, todo[0])), r)
      else if r.len == 0 then (MovingHead(got, []), r)
      else
        var next := (at + size) % r.len;
        (FetchingTrailer(got, Fetches(next, RightAfter(at, r.len - at, size, r.len), TRAILER_SIZE), []), r)
    case FetchingTrailer(body, todo, got) =>
      if todo != [] then (FetchingTrailer(body, todo[1..], got + Peek(r.mem, todo[0])), r)
      else (MovingHead(body, got), r)
    case MovingHead(body, trailer) =>
      if r.len == 0 then (CountingDown(body, trailer), r)
      else (CountingDown(body, trailer), r.(head := (r.head + |body| + OVERHEAD) % r.len))
    case CountingDown(body, trailer) =>
      (Leaving(Outcome(if trailer == TRAILER then SUCCESS else ERR_DATE_TAIL, |body|, body)),
       r.(blocks := r.blocks - 1))
    case Scanning(capacity, readIndex, count) =>
      var count' := if 0 <= readIndex < r.len && r.mem[readIndex] == TAIL_FLAG then count + 1 else 0;
      var next := if r.len > 0 then (readIndex + 1) % r.len else 0;
      if count' == TRAILER_SIZE then
        (Leaving(Outcome(ERR_DATE_RESET, capacity, [])), r.(head := next, blocks := r.blocks - 1))
      else (Scanning(capacity, next, count'), r)
    case Emptying(capacity) =>
      (Leaving(Outcome(ERR_EMPTY, capacity, [])), r.(head := 0, tail := 0, blocks := 0))
  }

  /** What Dequeue does next, knowing the header it has read. */
  function HeaderRead(capacity: int, header: seq<byte>, r: RingState): (p: Process)
    ensures InCritical(p)
  {
    if |header| != BLOCK_HEADER_SIZE || r.len == 0 then Emptying(capacity) else
    var index, size := LoadInt(header[..4]), LoadInt(header[4..]);
    var readIndex := (r.head + BLOCK_HEADER_SIZE) % r.len;
    if capacity < size then Leaving(Outcome(ERR_BUF_SMALL, size, []))
    else if index != r.head then
      if r.blocks > 0 then Scanning(capacity, readIndex, 0) else Emptying(capacity)
    else if size < 0 then Emptying(capacity)
    else FetchingBody(size, readIndex, Fetches(readIndex, r.len - readIndex, size), [])
  }

  // --------------------------------------- what the holder of the lock owes

  /** The process p, holding the lock, has entered operation op when the ring
      held the blocks cs, and finishing its remaining steps from ring r gives
      what the sequential queue gives. */
  ghost predicate Doing(p: Process, op: Op, cs: seq<seq<byte>>, r: RingState) {
    && Shaped(r)
    && match p
       case Idle => false
       case Spinning(_) => false
       case Entered(o) => o == op && Intact(r, cs)
       case Copying(data, copies) =>
         && op == Put(data) && Total(cs) + |data| + OVERHEAD <= r.len && |copies| <= 6
         && Intact(TailMoved(r, data).(mem := PokeAll(r.mem, copies)), cs + [data])
       case MovingTail(data) =>
         && op == Put(data) && Total(cs) + |data| + OVERHEAD <= r.len
         && Intact(TailMoved(r, data), cs + [data])
       case CountingUp =>
         && op.Put? && Total(cs) + |op.data| + OVERHEAD <= r.len
         && Intact(r.(blocks := r.blocks + 1), cs + [op.data])
       case FetchingHeader(capacity, todo, got) =>
         && op == Get(capacity) && cs != [] && Intact(r, cs) && |todo| <= 2
         && got + PeekAll(r.mem, todo) == Header(r.head, |cs[0]|)
       case FetchingBody(size, at, todo, got) =>
         && op.Get? && cs != [] && Intact(r, cs) && BLOCK_HEADER_SIZE <= r.len && |todo| <= 2
         && size == |cs[0]| <= op.capacity && at == BodyAt(r)
         && got + PeekAll(r.mem, todo) == cs[0]
       case FetchingTrailer(body, todo, got) =>
         && op.Get? && cs != [] && Intact(r, cs) && |todo| <= 2
         && body == cs[0] && |body| <= op.capacity
         && got + PeekAll(r.mem, todo) == TRAILER
       case MovingHead(body, trailer) =>
         && op.Get? && cs != [] && Intact(r, cs)
         && body == cs[0] && |body| <= op.capacity && trailer == TRAILER
       case CountingDown(body, trailer) =>
         && op.Get? && cs != [] && Intact(r.(blocks := r.blocks - 1), cs[1..])
         && body == cs[0] && |body| <= op.capacity && trailer == TRAILER
       case Scanning(_, _, _) => false
       case Emptying(_) => false
       case Leaving(outcome) =>
         && outcome == FifoStep(r.len, cs, op).1
         && Intact(r, FifoStep(r.len, cs, op).0)
  }

  function TailMoved(r: RingState, data: seq<byte>): RingState
    requires Shaped(r) && |data| + OVERHEAD <= r.len
  {
    r.(tail := Wrap(r.tail + |data| + OVERHEAD, r.len), blocks := r.blocks + 1)
  }

  lemma {:induction false} PokeAppend(mem: seq<byte>, a: seq<Copy>, b: seq<Copy>)
    ensures PokeAll(mem, a + b) == PokeAll(PokeAll(mem, a), b)
    decreases |a|
  {
    if a == [] {
      assert a + b == b;
    } else {
      assert (a + b)[0] == a[0] && (a + b)[1..] == a[1..] + b;
      PokeAppend(Poke(mem, a[0]), a[1..], b);
    }
  }

  lemma PokeOne(mem: seq<byte>, c: Copy)
    ensures PokeAll(mem, [c]) == Poke(mem, c)
  {
    assert [c][1..] == [];
    assert PokeAll(Poke(mem, c), []) == Poke(mem, c);
  }

  /** What a copy of the wrapping branch may start from: `room` is what the
      code takes for the space to the right, `rest` what is still to be stored. */
  predicate RoomFor(at: int, room: int, rest: int, head: int, len: nat) {
    && 0 <= at < len && 0 <= head < len && 0 <= room && 0 <= rest <= len
    && (at + room == len || (at == 0 && room == 0) || (at + room == head && at + rest <= head))
    && (at + room == len ==> at + rest <= len + head)
    && (at == 0 && room == 0 ==> rest <= head)
  }

  /** Each of the three copies leaves room for the ones that follow ... */
  lemma PieceLeavesRoom(at: int, room: nat, bytes: seq<byte>, head: int, len: nat, rest: nat)
    requires RoomFor(at, room, rest, head, len) && |bytes| <= rest
    ensures var p := CopyPiece(at, room, bytes, head, len);
      RoomFor(p.next, p.left, rest - |bytes|, head, len) && p.next == Wrap(at + |bytes|, len)
  {
    if room >= |bytes| {
      WrapIsModulo(at + |bytes|, len);
    } else {
      WrapIsModulo(|bytes| - room, len);
    }
  }

  /** ... and stores its bytes at `at`, going round. */
  lemma PieceWrites(mem: seq<byte>, at: int, room: nat, bytes: seq<byte>, head: int, rest: nat)
    requires RoomFor(at, room, rest, head, |mem|) && |bytes| <= rest
    ensures PokeAll(mem, CopyPiece(at, room, bytes, head, |mem|).copies) == Write(mem, at, bytes)
  {
    hide Splice, Write, PokeAll;
    if room >= |bytes| {
      PokeOne(mem, Copy(at, bytes));
      WriteFits(mem, at, bytes);
    } else {
      var first, second := Copy(at, bytes[..room]), Copy(0, bytes[room..]);
      PokeAppend(mem, [first], [second]);
      assert [first] + [second] == [first, second];
      PokeOne(mem, first);
      PokeOne(Poke(mem, first), second);
      TwoPokes(mem, at, room, bytes);
    }
  }

  lemma TwoPokes(mem: seq<byte>, at: int, room: nat, bytes: seq<byte>)
    requires 0 <= at < |mem| && room < |bytes| <= |mem|
    requires at + room == |mem| || (at == 0 && room == 0)
    ensures Poke(Poke(mem, Copy(at, bytes[..room])), Copy(0, bytes[room..])) == Write(mem, at, bytes)
  {
    hide Write, Splice;
    if room == 0 {
      SpliceNothing(mem);
      assert bytes[..0] == [] && bytes[0..] == bytes;
      WriteFits(mem, at, bytes);
    } else {
      WriteWraps(mem, at, bytes);
    }
  }

  lemma SpliceNothing(mem: seq<byte>)
    ensures Splice(mem, 0, []) == mem
  {
  }

  lemma WriteWraps(mem: seq<byte>, at: nat, bytes: seq<byte>)
    requires at < |mem| < at + |bytes| && |bytes| <= |mem|
    ensures var room := |mem| - at;
      Write(mem, at, bytes) == Splice(Splice(mem, at, bytes[..room]), 0, bytes[room..])
  {
    hide Splice;
  }

  /** The planned copies store the whole block behind the tail. */
  lemma CopiesWriteBlock(r: RingState, data: seq<byte>)
    requires Shaped(r) && |data| + OVERHEAD <= FreeSpace(r)
    ensures PokeAll(r.mem, EnqueueCopies(r, data)) == Write(r.mem, r.tail, Block(r.tail, data))
  {
    hide Write, PokeAll, Header, CopyPiece;
    var header, right := Header(r.tail, |data|), r.len - r.tail;
    if r.tail < r.head || right >= |data| + OVERHEAD {
      OneGo(r.mem, r.tail, header, data);
    } else {
      ThreePieces(r.mem, r.tail, header, data, r.head);
    }
  }

  /** Three writes, each where the one before it ended. */
  lemma ThreeWrites(mem: seq<byte>, at: nat, a: seq<byte>, b: seq<byte>, c: seq<byte>)
    requires at < |mem| && |a| + |b| + |c| <= |mem|
    ensures var m1 := Write(mem, at, a); var p1 := Wrap(at + |a|, |mem|);
      var m2 := Write(m1, p1, b);
      |m1| == |mem| == |m2| && Write(m2, Wrap(p1 + |b|, |mem|), c) == Write(mem, at, a + b + c)
  {
    hide Write;
    WrapWrap(at, |a|, |b|, |mem|);
    WriteSplit(mem, at, a, b);
    WriteSplit(mem, at, a + b, c);
  }

  lemma ThreePokes(mem: seq<byte>, x: seq<Copy>, y: seq<Copy>, z: seq<Copy>)
    ensures PokeAll(mem, x + y + z) == PokeAll(PokeAll(PokeAll(mem, x), y), z)
  {
    hide PokeAll;
    PokeAppend(mem, x + y, z);
    PokeAppend(mem, x, y);
  }

  lemma ThreePieces(mem: seq<byte>, tail: int, header: seq<byte>, data: seq<byte>, head: int)
    requires 0 <= head <= tail < |mem|
    requires |mem| - tail + head >= |header| + |data| + TRAILER_SIZE
    requires |header| + |data| + TRAILER_SIZE <= |mem|
    ensures var one := CopyPiece(tail, |mem| - tail, header, head, |mem|);
      && 0 <= one.left
      && var two := CopyPiece(one.next, one.left, data, head, |mem|);
      && 0 <= two.left
      && var three := CopyPiece(two.next, two.left, TRAILER, head, |mem|);
      PokeAll(mem, one.copies + two.copies + three.copies) == Write(mem, tail, header + data + TRAILER)
  {
    hide Write, PokeAll, CopyPiece, Wrap, RoomFor;
    var len, rest := |mem|, |header| + |data| + TRAILER_SIZE;
    RoomAtStart(tail, rest, head, len);
    PieceDone(mem, tail, len - tail, header, head, rest);
    var one := CopyPiece(tail, len - tail, header, head, len);
    var m1 := PokeAll(mem, one.copies);
    PieceDone(m1, one.next, one.left, data, head, rest - |header|);
    var two := CopyPiece(one.next, one.left, data, head, len);
    var m2 := PokeAll(m1, two.copies);
    PieceDone(m2, two.next, two.left, TRAILER, head, TRAILER_SIZE);
    var three := CopyPiece(two.next, two.left, TRAILER, head, len);
    ThreeWrites(mem, tail, header, data, TRAILER);
    ThreePokes(mem, one.copies, two.copies, three.copies);
  }

  lemma RoomAtStart(tail: nat, rest: nat, head: nat, len: nat)
    requires head <= tail < len && rest <= len && rest <= len - tail + head
    ensures RoomFor(tail, len - tail, rest, head, len)
  {
  }

  lemma PieceDone(mem: seq<byte>, at: int, room: nat, bytes: seq<byte>, head: int, rest: nat)
    requires RoomFor(at, room, rest, head, |mem|) && |bytes| <= rest
    ensures var p := CopyPiece(at, room, bytes, head, |mem|);
      && 0 <= at && 0 <= p.left && p.next == Wrap(at + |bytes|, |mem|)
      && RoomFor(p.next, p.left, rest - |bytes|, head, |mem|)
      && PokeAll(mem, p.copies) == Write(mem, at, bytes)
  {
    hide CopyPiece, Write, PokeAll, Wrap;
    PieceLeavesRoom(at, room, bytes, head, |mem|, rest);
    PieceWrites(mem, at, room, bytes, head, rest);
  }

  lemma WrapWrap(at: nat, a: nat, b: nat, len: nat)
    requires InRing(at, len) && a + b <= len
    ensures Wrap(Wrap(at + a, len) + b, len) == Wrap(at + (a + b), len)
  {
  }

  lemma WriteFitsAt(mem: seq<byte>, at: nat, bytes: seq<byte>)
    requires at < |mem| && at + |bytes| <= |mem|
    ensures PokeAll(mem, [Copy(at, bytes)]) == Write(mem, at, bytes)
  {
    hide PokeAll, Write;
    PokeOne(mem, Copy(at, bytes));
    WriteFits(mem, at, bytes);
  }

  lemma NoWrap(at: nat, len: nat)
    requires at < len
    ensures Wrap(at, len) == at
  {
  }

  lemma ThreeFit(mem: seq<byte>, at: nat, a: seq<byte>, b: seq<byte>, c: seq<byte>)
    requires |c| > 0 && at + |a| + |b| + |c| <= |mem|
    ensures var x, y, z := Copy(at, a), Copy(at + |a|, b), Copy(at + |a| + |b|, c);
      PokeAll(mem, [x] + [y] + [z]) == Write(mem, at, a + b + c)
  {
    hide Write, PokeAll, Wrap;
    var x, y, z := Copy(at, a), Copy(at + |a|, b), Copy(at + |a| + |b|, c);
    ThreePokes(mem, [x], [y], [z]);
    ThreeWrites(mem, at, a, b, c);
    NoWrap(at + |a|, |mem|);
    NoWrap(at + |a| + |b|, |mem|);
    WriteFitsAt(mem, at, a);
    var m1 := Write(mem, at, a);
    WriteFitsAt(m1, at + |a|, b);
    WriteFitsAt(Write(m1, at + |a|, b), at + |a| + |b|, c);
  }

  lemma OneGo(mem: seq<byte>, at: nat, header: seq<byte>, data: seq<byte>)
    requires at < |mem| && at + |header| + |data| + TRAILER_SIZE <= |mem|
    ensures var cs := [Copy(at, header), Copy(at + |header|, data), Copy(at + |header| + |data|, TRAILER)];
      PokeAll(mem, cs) == Write(mem, at, header + data + TRAILER)
  {
    hide Write, PokeAll;
    ThreeFit(mem, at, header, data, TRAILER);
    var a, b, c := Copy(at, header), Copy(at + |header|, data), Copy(at + |header| + |data|, TRAILER);
    assert [a] + [b] + [c] == [a, b, c];
  }

  lemma PeekOne(mem: seq<byte>, f: Fetch)
    ensures PeekAll(mem, [f]) == Peek(mem, f)
  {
    assert PeekAll(mem, []) == [];
    assert PeekAll(mem, [f]) == Peek(mem, f) + [];
  }

  /** The one or two reads yield the n bytes at `at`, going round. */
  lemma FetchesRead(mem: seq<byte>, at: nat, right: nat, n: nat)
    requires at < |mem| && n <= |mem|
    requires at + right == |mem| || (at == 0 && right == 0)
    ensures PeekAll(mem, Fetches(at, right, n)) == Read(mem, at, n)
  {
    hide PeekAll, Peek, Read;
    if right >= n {
      PeekOne(mem, Fetch(at, n));
      PeekReads(mem, at, n);
    } else {
      var f, g := Fetch(at, right), Fetch(0, n - right);
      PeekOne(mem, g);
      PeekTwo(mem, f, g);
      PeekReads(mem, at, right);
      PeekReads(mem, 0, n - right);
      ReadSplit(mem, at, right, n - right);
    }
  }

  lemma PeekReads(mem: seq<byte>, at: nat, n: nat)
    requires at + n <= |mem|
    ensures Peek(mem, Fetch(at, n)) == Read(mem, at, n)
  {
  }

  lemma PeekTwo(mem: seq<byte>, f: Fetch, g: Fetch)
    ensures PeekAll(mem, [f, g]) == Peek(mem, f) + PeekAll(mem, [g])
  {
    assert [f, g][1..] == [g];
  }

  // ------------------------------------------ every step keeps the promise

  lemma PutKeeps(p: Process, op: Op, cs: seq<seq<byte>>, r: RingState)
    requires Doing(p, op, cs, r) && op.Put? && !p.Leaving?
    requires p.Entered? || p.Copying? || p.MovingTail? || p.CountingUp?
    ensures Doing(Work(p, r).0, op, cs, Work(p, r).1)
  {
    hide Holds, Header, Write, PokeAll, EnqueueCopies;
    match p
    case Entered(_) =>
      HoldsBounds(r, r.head, cs);
      FreeSpaceIsRest(r, r.head, cs);
      if FreeSpace(r) >= |op.data| + OVERHEAD {
        CopiesWriteBlock(r, op.data);
        AppendedHolds(r, r.head, cs, op.data);
        assert TailMoved(r, op.data).(mem := Write(r.mem, r.tail, Block(r.tail, op.data))) == Appended(r, op.data);
      }
    case Copying(data, copies) =>
      if copies == [] {
        PokeNone(r.mem);
        assert TailMoved(r, data).(mem := r.mem) == TailMoved(r, data);
      } else {
        PokeFirst(r.mem, copies);
        var r' := r.(mem := Poke(r.mem, copies[0]));
        assert TailMoved(r', data).(mem := PokeAll(r'.mem, copies[1..]))
            == TailMoved(r, data).(mem := PokeAll(r.mem, copies));
      }
    case MovingTail(data) =>
      WrapIsModulo(r.tail + |data| + OVERHEAD, r.len);
    case CountingUp =>
  }

  lemma PokeNone(mem: seq<byte>)
    ensures PokeAll(mem, []) == mem
  {
  }

  lemma PokeFirst(mem: seq<byte>, copies: seq<Copy>)
    requires copies != []
    ensures PokeAll(mem, copies) == PokeAll(Poke(mem, copies[0]), copies[1..])
  {
  }

  lemma PeekFirst(mem: seq<byte>, got: seq<byte>, todo: seq<Fetch>)
    ensures todo != [] ==>
      (got + Peek(mem, todo[0])) + PeekAll(mem, todo[1..]) == got + PeekAll(mem, todo)
    ensures todo == [] ==> got + PeekAll(mem, todo) == got
  {
    if todo != [] {
      Assoc(got, Peek(mem, todo[0]), PeekAll(mem, todo[1..]));
    }
  }

  lemma EnteredKeeps(p: Process, op: Op, cs: seq<seq<byte>>, r: RingState)
    requires Doing(p, op, cs, r) && op.Get? && p.Entered?
    ensures Doing(Work(p, r).0, op, cs, Work(p, r).1)
  {
    hide Holds, Header, Read, PeekAll, LoadInt, Fetches;
    HoldsBounds(r, r.head, cs);
    if cs != [] {
      OldestBlock(r, r.head, cs);
      FetchesRead(r.mem, r.head, r.len - r.head, BLOCK_HEADER_SIZE);
      assert [] + PeekAll(r.mem, Fetches(r.head, r.len - r.head, BLOCK_HEADER_SIZE)) == Header(r.head, |cs[0]|);
    }
  }

  lemma BodyFetched(p: Process, op: Op, cs: seq<seq<byte>>, r: RingState)
    requires Doing(p, op, cs, r) && op.Get? && p.FetchingBody?
    ensures Doing(Work(p, r).0, op, cs, Work(p, r).1)
  {
    hide Holds, Header, Read, PeekAll, LoadInt, Fetches;
    HoldsBounds(r, r.head, cs);
    var size, at := p.size, p.at;
    PeekFirst(r.mem, p.got, p.todo);
    if p.todo == [] {
      OldestBlock(r, r.head, cs);
      WrapIsModulo(at + size, r.len);
      var next, right := Wrap(at + size, r.len), RightAfter(at, r.len - at, size, r.len);
      if r.len - at < size {
        WrapIsModulo(size - (r.len - at), r.len);
      }
      FetchesRead(r.mem, next, right, TRAILER_SIZE);
      assert [] + PeekAll(r.mem, Fetches(next, right, TRAILER_SIZE)) == TRAILER;
    }
  }

  lemma GetKeeps(p: Process, op: Op, cs: seq<seq<byte>>, r: RingState)
    requires Doing(p, op, cs, r) && op.Get? && !p.Leaving?
    requires p.Entered? || p.FetchingHeader? || p.FetchingBody?
    ensures Doing(Work(p, r).0, op, cs, Work(p, r).1)
  {
    hide Holds, Header, Read, PeekAll, LoadInt, Fetches;
    if p.Entered? {
      EnteredKeeps(p, op, cs, r);
    } else if p.FetchingBody? {
      BodyFetched(p, op, cs, r);
    } else {
      HoldsBounds(r, r.head, cs);
      PeekFirst(r.mem, p.got, p.todo);
      if p.todo == [] {
        HeaderFields(r.head, |cs[0]|);
        OldestBlock(r, r.head, cs);
        WrapIsModulo(r.head + BLOCK_HEADER_SIZE, r.len);
        var at := BodyAt(r);
        FetchesRead(r.mem, at, r.len - at, |cs[0]|);
        assert [] + PeekAll(r.mem, Fetches(at, r.len - at, |cs[0]|)) == cs[0];
      }
    }
  }

  lemma GetFinishes(p: Process, op: Op, cs: seq<seq<byte>>, r: RingState)
    requires Doing(p, op, cs, r)
    requires p.FetchingTrailer? || p.MovingHead? || p.CountingDown?
    ensures Doing(Work(p, r).0, op, cs, Work(p, r).1)
  {
    hide Holds, Header, Read, PeekAll, Fetches;
    match p
    case FetchingTrailer(body, todo, got) =>
      PeekFirst(r.mem, got, todo);
    case MovingHead(body, trailer) =>
      HoldsBounds(r, r.head, cs);
      RemovedHolds(r, r.head, cs);
      WrapIsModulo(r.head + |body| + OVERHEAD, r.len);
      assert Removed(r, |body|) == Work(p, r).1.(blocks := r.blocks - 1);
    case CountingDown(body, trailer) =>
  }

  /** Whoever holds the lock stays on course, whatever its next step is. */
  lemma WorkKeeps(p: Process, op: Op, cs: seq<seq<byte>>, r: RingState)
    requires Doing(p, op, cs, r) && !p.Leaving?
    ensures Doing(Work(p, r).0, op, cs, Work(p, r).1)
    ensures Work(p, r).1.len == r.len
  {
    hide Holds, PokeAll, PeekAll, Header;
    if p.FetchingTrailer? || p.MovingHead? || p.CountingDown? {
      GetFinishes(p, op, cs, r);
    } else if op.Put? {
      PutKeeps(p, op, cs, r);
    } else {
      GetKeeps(p, op, cs, r);
    }
  }
}
