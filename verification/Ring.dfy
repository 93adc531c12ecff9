/** The byte ring behind ShmQueue: circular reads and writes, the image of a
    list of blocks in the ring, and how that image changes when a block is
    appended, removed, or found with a damaged index. */
module Ring {
  import opened Bytes

  // Return codes of ShmQueue.
  const SUCCESS := 0
  const ERR_FULL := -205
  const ERR_EMPTY := -206
  const ERR_BUF_SMALL := -207
  const ERR_DATE_RESET := -208
  const ERR_DATE_TAIL := -208

  const TAIL_FLAG: byte := 0xDD
  const TRAILER: seq<byte> := [0xDD, 0xDD, 0xDD, 0xDD, 0xDD, 0xDD]
  const BLOCK_HEADER_SIZE := 8
  const TRAILER_SIZE := 6
  const OVERHEAD := 14

  // ------------------------------------------------------ ring positions

  /** The offsets a head or a tail can have. */
  predicate InRing(i: int, len: nat) {
    0 <= i < len || (i == 0 && len == 0)
  }

  /** x modulo len for the sums of a position and a length that occur here. */
  function Wrap(x: nat, len: nat): (r: nat)
    requires x <= 2 * len
    ensures x < 2 * len ==> r < len
    ensures r <= len
  {
    if x < len then x else x - len
  }

  lemma WrapIsModulo(x: nat, len: nat)
    requires x < 2 * len
    ensures x % len == Wrap(x, len)
  {
    if x >= len {
      OnceAround(x / len, x % len, x, len);
    }
  }

  lemma OnceAround(q: int, r: nat, x: nat, len: nat)
    requires r < len <= x < 2 * len && x == q * len + r
    ensures r == x - len
  {
  }

  // ------------------------------------------- circular reads and writes

  function Read(mem: seq<byte>, at: nat, n: nat): (r: seq<byte>)
    requires at <= |mem| && n <= |mem|
    ensures |r| == n
  {
    if at + n <= |mem| then mem[at..at + n] else mem[at..] + mem[..at + n - |mem|]
  }

  lemma ReadIndex(mem: seq<byte>, at: nat, n: nat)
    requires at <= |mem| && n <= |mem|
    ensures forall k :: 0 <= k < n ==> Read(mem, at, n)[k] == mem[Wrap(at + k, |mem|)]
  {
  }

  /** How far offset i lies behind offset `at`, going round. */
  function Behind(at: nat, i: nat, len: nat): int {
    if i >= at then i - at else i + len - at
  }

  function Write(mem: seq<byte>, at: nat, bytes: seq<byte>): (r: seq<byte>)
    requires at <= |mem| && |bytes| <= |mem|
    ensures |r| == |mem|
  {
    if at + |bytes| <= |mem| then Splice(mem, at, bytes)
    else
      var room := |mem| - at;
      Splice(Splice(mem, at, bytes[..room]), 0, bytes[room..])
  }

  lemma WriteIndex(mem: seq<byte>, at: nat, bytes: seq<byte>)
    requires at <= |mem| && |bytes| <= |mem|
    ensures forall i :: 0 <= i < |mem| ==>
      (Write(mem, at, bytes)[i] == if Behind(at, i, |mem|) < |bytes| then bytes[Behind(at, i, |mem|)] else mem[i])
  {
  }

  lemma Assoc(a: seq<byte>, b: seq<byte>, c: seq<byte>)
    ensures (a + b) + c == a + (b + c)
  {
  }

  lemma Cancel(a: seq<byte>, b: seq<byte>, c: seq<byte>, d: seq<byte>)
    requires |a| == |c| && a + b == c + d
    ensures a == c && b == d
  {
    assert a == (a + b)[..|a|] && b == (a + b)[|a|..];
    assert c == (c + d)[..|a|] && d == (c + d)[|a|..];
  }

  lemma ReadSplit(mem: seq<byte>, at: nat, n: nat, m: nat)
    requires InRing(at, |mem|) && n + m <= |mem|
    ensures Read(mem, at, n + m) == Read(mem, at, n) + Read(mem, Wrap(at + n, |mem|), m)
  {
    hide Read;
    ReadIndex(mem, at, n + m);
    ReadIndex(mem, at, n);
    ReadIndex(mem, Wrap(at + n, |mem|), m);
    var whole, parts := Read(mem, at, n + m), Read(mem, at, n) + Read(mem, Wrap(at + n, |mem|), m);
    forall k | 0 <= k < n + m
      ensures whole[k] == parts[k]
    {
    }
    assert whole == parts;
  }

  lemma WriteFits(mem: seq<byte>, at: nat, bytes: seq<byte>)
    requires at + |bytes| <= |mem|
    ensures Write(mem, at, bytes) == Splice(mem, at, bytes)
  {
  }

  lemma WriteSplit(mem: seq<byte>, at: nat, a: seq<byte>, b: seq<byte>)
    requires InRing(at, |mem|) && |a| + |b| <= |mem|
    ensures Write(Write(mem, at, a), Wrap(at + |a|, |mem|), b) == Write(mem, at, a + b)
  {
    hide Write;
    var one, mid := Write(mem, at, a + b), Wrap(at + |a|, |mem|);
    var half := Write(mem, at, a);
    var two := Write(half, mid, b);
    WriteIndex(mem, at, a + b);
    WriteIndex(mem, at, a);
    WriteIndex(half, mid, b);
    forall i | 0 <= i < |mem|
      ensures one[i] == two[i]
    {
    }
    assert one == two;
  }

  /** Writing behind the n bytes at `at` leaves them and appends to them. */
  lemma ReadAfterWrite(mem: seq<byte>, at: nat, n: nat, bytes: seq<byte>)
    requires InRing(at, |mem|) && n + |bytes| <= |mem|
    ensures Read(Write(mem, Wrap(at + n, |mem|), bytes), at, n + |bytes|) == Read(mem, at, n) + bytes
  {
    hide Write, Read;
    var from := Wrap(at + n, |mem|);
    var mem' := Write(mem, from, bytes);
    WriteIndex(mem, from, bytes);
    ReadIndex(mem, at, n);
    ReadIndex(mem', at, n + |bytes|);
    var got, want := Read(mem', at, n + |bytes|), Read(mem, at, n) + bytes;
    forall k | 0 <= k < n + |bytes|
      ensures got[k] == want[k]
    {
    }
    assert got == want;
  }

  // ---------------------------------------------------------- block image

  function Header(index: int, size: nat): (b: seq<byte>)
    ensures |b| == BLOCK_HEADER_SIZE
  {
    StoreInt(index) + StoreInt(size)
  }

  function Block(index: int, data: seq<byte>): (b: seq<byte>)
    ensures |b| == |data| + OVERHEAD
  {
    Header(index, |data|) + data + TRAILER
  }

  /** Bytes a list of blocks takes up. */
  function Total(cs: seq<seq<byte>>): (n: nat)
    ensures n >= OVERHEAD * |cs|
  {
    if cs == [] then 0 else |cs[0]| + OVERHEAD + Total(cs[1..])
  }

  /** The bytes of the blocks cs when the first one starts at offset `at`:
      every block carries its own offset. */
  function Image(at: nat, len: nat, cs: seq<seq<byte>>): (b: seq<byte>)
    requires at <= len && Total(cs) <= len
    ensures |b| == Total(cs)
    decreases |cs|
  {
    if cs == [] then []
    else Block(at, cs[0]) + Image(Wrap(at + |cs[0]| + OVERHEAD, len), len, cs[1..])
  }

  lemma {:induction false} TotalAppend(cs: seq<seq<byte>>, d: seq<byte>)
    ensures Total(cs + [d]) == Total(cs) + |d| + OVERHEAD
  {
    if cs == [] {
      assert cs + [d] == [d];
    } else {
      assert (cs + [d])[1..] == cs[1..] + [d];
      TotalAppend(cs[1..], d);
    }
  }

  lemma WrapTwice(at: nat, n: nat, more: nat, len: nat)
    requires InRing(at, len) && n + more <= len
    ensures Wrap(Wrap(at + n, len) + more, len) == Wrap(at + (n + more), len)
  {
  }

  /** The image of one block and what follows it. */
  lemma ImageStep(at: nat, len: nat, cs: seq<seq<byte>>)
    requires at <= len && cs != [] && Total(cs) <= len
    ensures Total(cs) == |cs[0]| + OVERHEAD + Total(cs[1..])
    ensures Image(at, len, cs) == Block(at, cs[0]) + Image(Wrap(at + |cs[0]| + OVERHEAD, len), len, cs[1..])
  {
    hide Block, Wrap;
  }

  lemma ImageOfOne(at: nat, len: nat, d: seq<byte>)
    requires at <= len && |d| + OVERHEAD <= len
    ensures Total([d]) == |d| + OVERHEAD && Image(at, len, [d]) == Block(at, d)
  {
    hide Block, Wrap;
    assert [d][1..] == [];
    assert Total([]) == 0;
    assert Image(Wrap(at + |d| + OVERHEAD, len), len, []) == [];
  }

  lemma AppendedTail(cs: seq<seq<byte>>, d: seq<byte>)
    requires cs != []
    ensures (cs + [d])[0] == cs[0] && (cs + [d])[1..] == cs[1..] + [d]
  {
  }

  lemma {:induction false} ImageAppend(at: nat, len: nat, cs: seq<seq<byte>>, d: seq<byte>)
    requires InRing(at, len) && Total(cs) + |d| + OVERHEAD <= len
    requires Total(cs + [d]) == Total(cs) + |d| + OVERHEAD
    ensures Image(at, len, cs + [d]) == Image(at, len, cs) + Block(Wrap(at + Total(cs), len), d)
    decreases |cs|
  {
    hide Block, Image, Wrap, Total;
    if cs == [] {
      ImageAppendFirst(at, len, d);
    } else {
      ImageStep(at, len, cs);
      ImageStep(at, len, cs + [d]);
      AppendedTail(cs, d);
      StaysInRing(at, |cs[0]| + OVERHEAD, len);
      ImageAppend(Wrap(at + |cs[0]| + OVERHEAD, len), len, cs[1..], d);
      FrontThenBack(Block(at, cs[0]), at, len, cs, d);
    }
  }

  lemma ImageAppendFirst(at: nat, len: nat, d: seq<byte>)
    requires InRing(at, len) && |d| + OVERHEAD <= len
    ensures Total([]) == 0 && Total([] + [d]) == |d| + OVERHEAD
    ensures Image(at, len, [] + [d]) == Image(at, len, []) + Block(Wrap(at + 0, len), d)
  {
    ImageOfOne(at, len, d);
    NothingBefore(at, len);
    hide Block, Image, Wrap;
    assert [] + [d] == [d];
    assert [] + Block(at, d) == Block(at, d);
  }

  /** The last block lies behind the first one and what follows it. */
  lemma FrontThenBack(first: seq<byte>, at: nat, len: nat, cs: seq<seq<byte>>, d: seq<byte>)
    requires InRing(at, len) && cs != [] && Total(cs) + |d| + OVERHEAD <= len
    requires Total(cs) == |cs[0]| + OVERHEAD + Total(cs[1..])
    ensures var next := Wrap(at + |cs[0]| + OVERHEAD, len);
      InRing(next, len) && first + (Image(next, len, cs[1..]) + Block(Wrap(next + Total(cs[1..]), len), d))
      == (first + Image(next, len, cs[1..])) + Block(Wrap(at + Total(cs), len), d)
  {
    hide Block, Image, Total;
    var n, next := |cs[0]| + OVERHEAD, Wrap(at + |cs[0]| + OVERHEAD, len);
    WrapTwice(at, n, Total(cs[1..]), len);
    Assoc(first, Image(next, len, cs[1..]), Block(Wrap(at + Total(cs), len), d));
  }

  lemma NothingBefore(at: nat, len: nat)
    requires InRing(at, len)
    ensures Total([]) == 0 && Image(at, len, []) == [] && Wrap(at + 0, len) == at
  {
  }

  lemma StaysInRing(at: nat, n: nat, len: nat)
    requires InRing(at, len) && n <= len
    ensures at + n <= 2 * len && InRing(Wrap(at + n, len), len)
  {
  }

  // ------------------------------------------------------- representation

  /** The shared queue head plus the memory behind it. */
  datatype RingState = RingState(len: nat, head: nat, tail: nat, blocks: int, mem: seq<byte>)

  /** The offset that the oldest block ought to carry. */
  function Image1(stored: int, at: nat, len: nat, cs: seq<seq<byte>>): (b: seq<byte>)
    requires at <= len && Total(cs) <= len
    ensures |b| == Total(cs)
  {
    if cs == [] then []
    else Block(stored, cs[0]) + Image(Wrap(at + |cs[0]| + OVERHEAD, len), len, cs[1..])
  }

  /** r holds exactly the blocks cs, oldest first; the oldest one carries the
      index `stored`, which is its offset unless it was damaged. */
  ghost predicate Holds(r: RingState, stored: int, cs: seq<seq<byte>>) {
    && |r.mem| == r.len <= INT_MAX
    && InRing(r.head, r.len) && InRing(r.tail, r.len)
    && Total(cs) <= r.len
    && r.tail == RingTail(r, cs)
    && r.blocks == |cs|
    && IsInt(stored)
    && Read(r.mem, r.head, Total(cs)) == Image1(stored, r.head, r.len, cs)
  }

  lemma HoldsBounds(r: RingState, stored: int, cs: seq<seq<byte>>)
    requires Holds(r, stored, cs)
    ensures |r.mem| == r.len <= INT_MAX && InRing(r.head, r.len) && InRing(r.tail, r.len)
    ensures r.blocks == |cs| && Total(cs) <= r.len && IsInt(stored)
    ensures r.head == r.tail ==> Total(cs) == 0 || Total(cs) == r.len
    ensures cs == [] ==> r.head == r.tail
    ensures cs != [] ==> OVERHEAD + |cs[0]| <= Total(cs)
  {
  }

  function RingTail(r: RingState, cs: seq<seq<byte>>): (t: nat)
    requires r.head <= r.len && Total(cs) <= r.len
    ensures t <= r.len
  {
    Wrap(r.head + Total(cs), r.len)
  }

  /** Undamaged: the oldest block, if there is one, carries its own offset. */
  ghost predicate Intact(r: RingState, cs: seq<seq<byte>>) {
    Holds(r, r.head, cs)
  }

  // ------------------------------------------------------------- appending

  /** The free space computed from head, tail and block count. */
  function FreeSpace(r: RingState): int {
    if r.head < r.tail || (r.head == r.tail && r.blocks == 0) then r.len - (r.tail - r.head)
    else if r.head > r.tail then r.head - r.tail
    else 0
  }

  lemma FreeSpaceIsRest(r: RingState, stored: int, cs: seq<seq<byte>>)
    requires Holds(r, stored, cs)
    ensures FreeSpace(r) == r.len - Total(cs)
  {
  }

  function Appended(r: RingState, d: seq<byte>): RingState
    requires |r.mem| == r.len && InRing(r.tail, r.len) && |d| + OVERHEAD <= r.len
  {
    r.(mem := Write(r.mem, r.tail, Block(r.tail, d)),
       tail := Wrap(r.tail + |d| + OVERHEAD, r.len),
       blocks := r.blocks + 1)
  }

  lemma AppendedHolds(r: RingState, stored: int, cs: seq<seq<byte>>, d: seq<byte>)
    requires Holds(r, stored, cs) && Total(cs) + |d| + OVERHEAD <= r.len
    ensures Holds(Appended(r, d), if cs == [] then r.head else stored, cs + [d])
  {
    hide Block, Image1, Read, Write;
    TotalAppend(cs, d);
    ReadAfterWrite(r.mem, r.head, Total(cs), Block(r.tail, d));
    Image1Append(r.head, r.len, stored, cs, d);
  }

  lemma Image1Step(stored: int, at: nat, len: nat, cs: seq<seq<byte>>)
    requires at <= len && cs != [] && Total(cs) <= len
    ensures Total(cs) == |cs[0]| + OVERHEAD + Total(cs[1..])
    ensures Image1(stored, at, len, cs) == Block(stored, cs[0]) + Image(Wrap(at + |cs[0]| + OVERHEAD, len), len, cs[1..])
  {
    hide Block, Wrap, Image;
  }

  lemma Image1Append(at: nat, len: nat, stored: int, cs: seq<seq<byte>>, d: seq<byte>)
    requires InRing(at, len) && Total(cs) + |d| + OVERHEAD <= len
    requires Total(cs + [d]) == Total(cs) + |d| + OVERHEAD
    ensures Image1(if cs == [] then at else stored, at, len, cs + [d])
         == Image1(stored, at, len, cs) + Block(Wrap(at + Total(cs), len), d)
  {
    hide Block, Image, Image1, Wrap, Total;
    if cs == [] {
      ImageAppendFirst(at, len, d);
      FirstIsIntact(stored, at, len, d);
    } else {
      Image1Step(stored, at, len, cs);
      Image1Step(stored, at, len, cs + [d]);
      AppendedTail(cs, d);
      StaysInRing(at, |cs[0]| + OVERHEAD, len);
      ImageAppend(Wrap(at + |cs[0]| + OVERHEAD, len), len, cs[1..], d);
      FrontThenBack(Block(stored, cs[0]), at, len, cs, d);
    }
  }

  lemma FirstIsIntact(stored: int, at: nat, len: nat, d: seq<byte>)
    requires InRing(at, len) && Total([] + [d]) <= len && Total([]) <= len
    ensures Image1(at, at, len, [] + [d]) == Image(at, len, [] + [d])
    ensures Image1(stored, at, len, []) == Image(at, len, [])
  {
    hide Block, Wrap;
  }

  // -------------------------------------------------------------- removing

  function BodyAt(r: RingState): (p: nat)
    requires InRing(r.head, r.len) && BLOCK_HEADER_SIZE <= r.len
    ensures p < r.len
  {
    Wrap(r.head + BLOCK_HEADER_SIZE, r.len)
  }

  /** What the pieces read by Dequeue are, when there is a block. */
  lemma OldestBlock(r: RingState, stored: int, cs: seq<seq<byte>>)
    requires Holds(r, stored, cs) && cs != []
    ensures OVERHEAD + |cs[0]| <= r.len
    ensures Read(r.mem, r.head, BLOCK_HEADER_SIZE) == Header(stored, |cs[0]|)
    ensures Read(r.mem, BodyAt(r), |cs[0]|) == cs[0]
    ensures Read(r.mem, Wrap(BodyAt(r) + |cs[0]|, r.len), TRAILER_SIZE) == TRAILER
  {
    hide Header, Read;
    var n := |cs[0]|;
    FirstBlock(r, stored, cs);
    ReadSplit(r.mem, r.head, BLOCK_HEADER_SIZE, n + TRAILER_SIZE);
    ReadSplit(r.mem, BodyAt(r), n, TRAILER_SIZE);
    var head, body, end := Read(r.mem, r.head, BLOCK_HEADER_SIZE), Read(r.mem, BodyAt(r), n),
        Read(r.mem, Wrap(BodyAt(r) + n, r.len), TRAILER_SIZE);
    Assoc(head, body, end);
    Assoc(Header(stored, n), cs[0], TRAILER);
    Cancel(head, body + end, Header(stored, n), cs[0] + TRAILER);
    Cancel(body, end, cs[0], TRAILER);
  }

  lemma FirstBlock(r: RingState, stored: int, cs: seq<seq<byte>>)
    requires Holds(r, stored, cs) && cs != []
    ensures OVERHEAD + |cs[0]| <= r.len
    ensures Read(r.mem, r.head, |cs[0]| + OVERHEAD) == Block(stored, cs[0])
    ensures var next := Wrap(r.head + |cs[0]| + OVERHEAD, r.len);
      Read(r.mem, next, Total(cs[1..])) == Image(next, r.len, cs[1..])
  {
    hide Read, Block, Image;
    var size, rest := |cs[0]| + OVERHEAD, Total(cs[1..]);
    var next := Wrap(r.head + size, r.len);
    ReadSplit(r.mem, r.head, size, rest);
    Cancel(Read(r.mem, r.head, size), Read(r.mem, next, rest), Block(stored, cs[0]), Image(next, r.len, cs[1..]));
  }

  lemma BytesOfBody(r: RingState, stored: int, cs: seq<seq<byte>>)
    requires Holds(r, stored, cs) && cs != []
    ensures OVERHEAD + |cs[0]| <= r.len
    ensures forall k :: 0 <= k < |cs[0]| + TRAILER_SIZE ==>
      (cs[0] + TRAILER)[k] == r.mem[Wrap(BodyAt(r) + k, r.len)]
  {
    hide Header, Read;
    OldestBlock(r, stored, cs);
    ReadSplit(r.mem, BodyAt(r), |cs[0]|, TRAILER_SIZE);
    ReadIndex(r.mem, BodyAt(r), |cs[0]| + TRAILER_SIZE);
  }

  lemma HeaderFields(index: int, size: nat)
    requires IsInt(index) && size <= INT_MAX
    ensures LoadInt(Header(index, size)[..4]) == index
    ensures LoadInt(Header(index, size)[4..]) == size
  {
    assert Header(index, size)[..4] == StoreInt(index) && Header(index, size)[4..] == StoreInt(size);
    StoreLoad(index);
    StoreLoad(size);
  }

  function Removed(r: RingState, n: nat): RingState
    requires InRing(r.head, r.len) && n + OVERHEAD <= r.len
  {
    r.(head := Wrap(r.head + n + OVERHEAD, r.len), blocks := r.blocks - 1)
  }

  lemma RemovedHolds(r: RingState, stored: int, cs: seq<seq<byte>>)
    requires Holds(r, stored, cs) && cs != []
    ensures |cs[0]| + OVERHEAD <= r.len
    ensures Intact(Removed(r, |cs[0]|), cs[1..])
  {
    hide Image, Image1, Read, Block;
    FirstBlock(r, stored, cs);
    ImageIsImage1(Removed(r, |cs[0]|).head, r.len, cs[1..]);
  }

  lemma ImageIsImage1(at: nat, len: nat, cs: seq<seq<byte>>)
    requires at <= len && Total(cs) <= len
    ensures Image1(at, at, len, cs) == Image(at, len, cs)
  {
  }
}
