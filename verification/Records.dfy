/** The three files of a message group: records in the data file, (index,
    position) entries in the index file, bare indices in the consume file;
    and how they are read back. */
module Records {
  import opened Bytes
  import opened CommonDefs

  /** length, command, queue name, durable index, priority */
  const RECORD_HEADER := 42
  const ENTRY_SIZE := 8

  datatype Record = Record(index: int, priority: int, body: seq<byte>)

  /** Names and bodies that the fixed fields and buffers can carry. */
  predicate Storable(name: seq<byte>, r: Record) {
    && |name| < MAX_NAME_LENGTH && 0 !in name
    && 0 <= r.index <= INT_MAX && IsShort(r.priority)
    && RECORD_HEADER + |r.body| <= MAX_CLINT_PACKAGE_LENGTH
  }

  function NameField(name: seq<byte>): (f: seq<byte>)
    requires |name| < MAX_NAME_LENGTH
    ensures |f| == MAX_NAME_LENGTH
  {
    name + Zeros(MAX_NAME_LENGTH - |name|)
  }

  /** What SerializeDurableToString leaves in a zeroed buffer. */
  function Encode(name: seq<byte>, r: Record): (b: seq<byte>)
    requires |name| < MAX_NAME_LENGTH
    ensures |b| == RECORD_HEADER + |r.body|
  {
    EncodeShort(RECORD_HEADER + |r.body|) + EncodeShort(CMD_CREATE_PUBLISH) + NameField(name)
      + EncodeInt(r.index) + EncodeShort(r.priority) + r.body
  }

  /** There is a whole record at pos. */
  predicate Readable(data: seq<byte>, pos: int) {
    && 0 <= pos && pos + RECORD_HEADER <= |data|
    && RECORD_HEADER <= DecodeShort(data[pos..pos + 2])
    && pos + DecodeShort(data[pos..pos + 2]) <= |data|
  }

  /** The fields that recovery reads from the record at pos. The body passes
      through a C string. */
  function ReadAt(data: seq<byte>, pos: int): (seq<byte>, Record)
    requires Readable(data, pos)
  {
    var size := DecodeShort(data[pos..pos + 2]);
    (CString(data[pos + 4..pos + 36]),
     Record(DecodeInt(data[pos + 36..pos + 40]),
            DecodeSignedShort(data[pos + 40..pos + 42]),
            CString(data[pos + RECORD_HEADER..pos + size])))
  }

  /** How many pages a file of that size takes. */
  function Pages(size: nat): (n: nat)
    ensures size <= 4096 * n < size + 4096
  {
    (size + 4095) / 4096
  }

  /** A file as mmap shows it: the rest of its last page reads as zeros. */
  function Mapped(file: seq<byte>): (m: seq<byte>)
    ensures |file| <= |m| == 4096 * Pages(|file|) && m[..|file|] == file
  {
    file + Zeros(4096 * Pages(|file|) - |file|)
  }

  /** Pieces that begin inside the file end inside its pages. */
  lemma PiecesFit(size: nat, n: nat)
    ensures 8 * n < size + 8 ==> 8 * n <= 4096 * Pages(size)
    ensures 4 * n < size + 4 ==> 4 * n <= 4096 * Pages(size)
  {
    hide Pages;
    Rounded(size, n, Pages(size));
  }

  lemma Rounded(size: nat, n: nat, pages: nat)
    requires size <= 4096 * pages
    ensures 8 * n < size + 8 ==> n <= 512 * pages
    ensures 4 * n < size + 4 ==> n <= 1024 * pages
  {
  }

  /** How many entries a loop over an index file reads; the last one may be cut
      off by the end of the file. */
  function Entries(file: seq<byte>): (n: nat)
    ensures ENTRY_SIZE * n <= |Mapped(file)| && |file| <= ENTRY_SIZE * n < |file| + ENTRY_SIZE
  {
    hide Mapped, Pages;
    PiecesFit(|file|, (|file| + 7) / 8);
    (|file| + 7) / 8
  }

  /** The same for the numbers in a consume file. */
  function Numbers(file: seq<byte>): (n: nat)
    ensures 4 * n <= |Mapped(file)| && |file| <= 4 * n < |file| + 4
  {
    hide Mapped, Pages;
    PiecesFit(|file|, (|file| + 3) / 4);
    (|file| + 3) / 4
  }

  lemma EntryNumber(pos: nat, k: nat)
    requires pos == ENTRY_SIZE * k
    ensures pos / ENTRY_SIZE == k
  {
  }

  /** A whole record is read in the mapping as it is in the file. */
  lemma MappedRecord(data: seq<byte>, pos: int)
    requires Readable(data, pos)
    ensures Readable(Mapped(data), pos) && ReadAt(Mapped(data), pos) == ReadAt(data, pos)
  {
    hide DecodeShort, DecodeInt, DecodeSignedShort, CString, Mapped, Pages;
    var m := Mapped(data);
    SameSlice(data, m, pos, pos + 2);
    SameSlice(data, m, pos + 4, pos + 36);
    SameSlice(data, m, pos + 36, pos + 40);
    SameSlice(data, m, pos + 40, pos + 42);
    SameSlice(data, m, pos + RECORD_HEADER, pos + DecodeShort(data[pos..pos + 2]));
  }

  lemma SameSlice(file: seq<byte>, m: seq<byte>, i: nat, j: nat)
    requires i <= j <= |file| <= |m| && m[..|file|] == file
    ensures m[i..j] == file[i..j]
  {
    forall k | i <= k < j
      ensures m[k] == file[k]
    {
      assert m[k] == m[..|file|][k];
    }
  }

  /** A record as recovery sees it: the body ends at its first NUL. */
  function Cut(r: Record): (c: Record) {
    r.(body := CString(r.body))
  }

  lemma CutIsIdentity(r: Record)
    ensures Cut(r) == r <==> 0 !in r.body
  {
    CStringReadsBack(CString(r.body), []);
    if 0 !in r.body {
      CStringReadsBack(r.body, []);
      assert r.body + [] == r.body;
    }
  }

  lemma {:induction false} RecordRoundTrip(before: seq<byte>, name: seq<byte>, r: Record, after: seq<byte>)
    requires Storable(name, r)
    ensures var data := before + Encode(name, r) + after;
      Readable(data, |before|) && ReadAt(data, |before|) == (name, Cut(r))
  {
    hide EncodeShort, EncodeInt, DecodeShort, DecodeInt, DecodeSignedShort, CString;
    var data, pos := before + Encode(name, r) + after, |before|;
    var size := RECORD_HEADER + |r.body|;
    assert data[pos..pos + size] == Encode(name, r);
    assert data[pos..pos + 2] == EncodeShort(size);
    assert data[pos + 4..pos + 36] == NameField(name);
    assert data[pos + 36..pos + 40] == EncodeInt(r.index);
    assert data[pos + 40..pos + 42] == EncodeShort(r.priority);
    assert data[pos + 42..pos + size] == r.body;
    ShortRoundTrip(size);
    ShortRoundTrip(r.priority);
    IntRoundTrip(r.index);
    CStringReadsBack(name, Zeros(MAX_NAME_LENGTH - |name|));
  }

  // ------------------------------------------------------- whole files

  function DataBytes(name: seq<byte>, rs: seq<Record>): (b: seq<byte>)
    requires |name| < MAX_NAME_LENGTH
  {
    if rs == [] then []
    else DataBytes(name, rs[..|rs| - 1]) + Encode(name, rs[|rs| - 1])
  }

  function Entry(index: int, pos: int): (b: seq<byte>)
    ensures |b| == ENTRY_SIZE
  {
    EncodeInt(index) + EncodeInt(pos)
  }

  /** Every entry points at the start of its record. */
  function IndexBytes(name: seq<byte>, rs: seq<Record>): (b: seq<byte>)
    requires |name| < MAX_NAME_LENGTH
    ensures |b| == ENTRY_SIZE * |rs|
  {
    if rs == [] then []
    else
      var front := rs[..|rs| - 1];
      IndexBytes(name, front) + Entry(rs[|rs| - 1].index, |DataBytes(name, front)|)
  }

  function ConsumeBytes(indices: seq<int>): (b: seq<byte>)
    ensures |b| == 4 * |indices|
  {
    if indices == [] then []
    else ConsumeBytes(indices[..|indices| - 1]) + EncodeInt(indices[|indices| - 1])
  }

  lemma {:induction false} DataFront(name: seq<byte>, rs: seq<Record>, k: nat)
    requires |name| < MAX_NAME_LENGTH && k < |rs|
    ensures exists after ::
      DataBytes(name, rs) == DataBytes(name, rs[..k]) + Encode(name, rs[k]) + after
    decreases |rs|
  {
    hide Encode;
    var front, last := rs[..|rs| - 1], rs[|rs| - 1];
    if k == |rs| - 1 {
      assert DataBytes(name, rs) == DataBytes(name, front) + Encode(name, last) + [];
    } else {
      DataFront(name, front, k);
      assert front[..k] == rs[..k];
      var after :| DataBytes(name, front) == DataBytes(name, rs[..k]) + Encode(name, rs[k]) + after;
      var x := DataBytes(name, rs[..k]) + Encode(name, rs[k]);
      assert (x + after) + Encode(name, last) == x + (after + Encode(name, last));
    }
  }

  /** The record at the position given by the k-th entry is the k-th one. */
  lemma RecordAt(name: seq<byte>, rs: seq<Record>, k: nat)
    requires k < |rs| && Storable(name, rs[k])
    ensures var data, pos := DataBytes(name, rs), |DataBytes(name, rs[..k])|;
      Readable(data, pos) && ReadAt(data, pos) == (name, Cut(rs[k]))
  {
    hide DataBytes, Encode, ReadAt, Readable;
    DataFront(name, rs, k);
    var after :| DataBytes(name, rs) == DataBytes(name, rs[..k]) + Encode(name, rs[k]) + after;
    RecordRoundTrip(DataBytes(name, rs[..k]), name, rs[k], after);
  }

  function EntryAt(file: seq<byte>, k: nat): (int, int)
    requires ENTRY_SIZE * (k + 1) <= |file|
  {
    var at := ENTRY_SIZE * k;
    (DecodeInt(file[at..at + 4]), DecodeInt(file[at + 4..at + 8]))
  }

  lemma MappedEntry(file: seq<byte>, k: nat)
    requires ENTRY_SIZE * (k + 1) <= |file|
    ensures ENTRY_SIZE * (k + 1) <= |Mapped(file)| && EntryAt(Mapped(file), k) == EntryAt(file, k)
  {
    hide DecodeInt, Mapped;
    var m, at := Mapped(file), ENTRY_SIZE * k;
    assert m[at..at + 4] == m[..|file|][at..at + 4];
    assert m[at + 4..at + 8] == m[..|file|][at + 4..at + 8];
  }

  lemma {:induction false} EntryOf(name: seq<byte>, rs: seq<Record>, k: nat)
    requires |name| < MAX_NAME_LENGTH && k < |rs|
    requires IsInt(rs[k].index) && |DataBytes(name, rs[..k])| <= INT_MAX
    ensures EntryAt(IndexBytes(name, rs), k) == (rs[k].index, |DataBytes(name, rs[..k])|)
    decreases |rs|
  {
    hide EncodeInt, DecodeInt, DataBytes;
    var file, at := IndexBytes(name, rs), ENTRY_SIZE * k;
    var front := rs[..|rs| - 1];
    if k == |rs| - 1 {
      var index, pos := rs[k].index, |DataBytes(name, front)|;
      assert file[at..at + 4] == EncodeInt(index);
      assert file[at + 4..at + 8] == EncodeInt(pos);
      IntRoundTrip(index);
      IntRoundTrip(pos);
    } else {
      assert front[..k] == rs[..k];
      EntryOf(name, front, k);
      var prev := IndexBytes(name, front);
      assert prev <= file;
      assert file[at..at + 4] == prev[at..at + 4] && file[at + 4..at + 8] == prev[at + 4..at + 8];
    }
  }

  function IndexAt(file: seq<byte>, k: nat): int
    requires 4 * (k + 1) <= |file|
  {
    DecodeInt(file[4 * k..4 * k + 4])
  }

  lemma MappedIndex(file: seq<byte>, k: nat)
    requires 4 * (k + 1) <= |file|
    ensures 4 * (k + 1) <= |Mapped(file)| && IndexAt(Mapped(file), k) == IndexAt(file, k)
  {
    hide DecodeInt, Mapped;
    assert Mapped(file)[4 * k..4 * k + 4] == Mapped(file)[..|file|][4 * k..4 * k + 4];
  }

  lemma {:induction false} ConsumedAt(indices: seq<int>, k: nat)
    requires k < |indices| && IsInt(indices[k])
    ensures IndexAt(ConsumeBytes(indices), k) == indices[k]
    decreases |indices|
  {
    hide EncodeInt, DecodeInt;
    var file, front := ConsumeBytes(indices), indices[..|indices| - 1];
    if k == |indices| - 1 {
      assert file[4 * k..4 * k + 4] == EncodeInt(indices[k]);
      IntRoundTrip(indices[k]);
    } else {
      ConsumedAt(front, k);
      assert ConsumeBytes(front) <= file;
      assert file[4 * k..4 * k + 4] == ConsumeBytes(front)[4 * k..4 * k + 4];
    }
  }

  // --------------------------------------------------------- replaying

  /** The records whose index is not in `gone`. */
  function Remaining(rs: seq<Record>, gone: set<int>): (out: seq<Record>)
  {
    if rs == [] then []
    else
      var last := rs[|rs| - 1];
      Remaining(rs[..|rs| - 1], gone) + (if last.index in gone then [] else [last])
  }

  lemma {:induction false} RemainingMembers(rs: seq<Record>, gone: set<int>)
    ensures forall k :: 0 <= k < |Remaining(rs, gone)| ==>
      Remaining(rs, gone)[k] in rs && Remaining(rs, gone)[k].index !in gone
  {
    if rs != [] {
      RemainingMembers(rs[..|rs| - 1], gone);
    }
  }

  function CutAll(rs: seq<Record>): (out: seq<Record>)
    ensures |out| == |rs|
    ensures forall i :: 0 <= i < |rs| ==> out[i] == Cut(rs[i])
  {
    seq(|rs|, i requires 0 <= i < |rs| => Cut(rs[i]))
  }

  /** What the first k entries of an index file replay to; an entry without a
      record behind it would be read out of bounds. */
  function Replay(data: seq<byte>, index: seq<byte>, gone: set<int>, k: nat): (out: seq<Record>)
    requires ENTRY_SIZE * k <= |index|
  {
    if k == 0 then []
    else
      var (i, pos) := EntryAt(index, k - 1);
      Replay(data, index, gone, k - 1)
        + (if i in gone || !Readable(data, pos) then [] else [ReadAt(data, pos).1])
  }

  /** Replaying the files of a group gives its records that are not consumed. */
  lemma {:induction false} ReplayRestores(name: seq<byte>, rs: seq<Record>, gone: set<int>, k: nat)
    requires |name| < MAX_NAME_LENGTH && k <= |rs|
    requires forall i :: 0 <= i < |rs| ==> Storable(name, rs[i])
    requires forall i :: 0 <= i < |rs| ==> |DataBytes(name, rs[..i])| <= INT_MAX
    ensures ENTRY_SIZE * k <= |Mapped(IndexBytes(name, rs))|
    ensures Replay(Mapped(DataBytes(name, rs)), Mapped(IndexBytes(name, rs)), gone, k) == CutAll(Remaining(rs[..k], gone))
  {
    hide DataBytes, IndexBytes, EntryAt, ReadAt, Readable, Cut, Mapped;
    if k > 0 {
      ReplayRestores(name, rs, gone, k - 1);
      EntryOf(name, rs, k - 1);
      MappedEntry(IndexBytes(name, rs), k - 1);
      RecordAt(name, rs, k - 1);
      MappedRecord(DataBytes(name, rs), |DataBytes(name, rs[..k - 1])|);
      assert rs[..k][..k - 1] == rs[..k - 1];
    }
  }
}
