/** The durable log of one queue: its files, what the persistence server
    remembers about them, and the three things that happen to them: a record
    is written, an index is consumed, the server is restarted. */
module DurableLog {
  import opened Bytes
  import opened CommonDefs
  import opened Records
  import opened FileNames

  /** The directory of the queue; a missing write_offset.bin is []. */
  datatype Files = Files(data: map<string, seq<byte>>, index: map<string, seq<byte>>,
                         consume: map<string, seq<byte>>, offset: seq<byte>)

  /** Files, m_mMsgQueueTailFile, m_mMsgQueueIndexFile, m_mMsgQueueList. */
  datatype Log = Log(files: Files, tail: Option<string>, places: map<int, string>, groups: seq<string>)

  const EMPTY_LOG := Log(Files(map[], map[], map[], []), None, map[], [])

  function Content(m: map<string, seq<byte>>, name: string): seq<byte> {
    if name in m then m[name] else []
  }

  // ---------------------------------------------------------- operations

  /** stat() on the data file of the tail group must succeed. */
  predicate TailOnDisk(log: Log) {
    log.tail.Some? ==> log.tail.value in log.files.data
  }

  /** A record of `size` bytes goes to a new group. */
  predicate NeedsNewGroup(log: Log, size: nat) {
    || log.tail.None? || log.tail.value !in log.files.data
    || |log.files.data[log.tail.value]| + size > DURABLE_MESSAGE_FILE_SIZE
  }

  function InsertAbsent(m: map<int, string>, i: int, name: string): map<int, string> {
    if i in m then m else m[i := name]
  }

  /** OnPublishMessage for the packet `bytes` carrying durable index i. */
  function Publish(log: Log, bytes: seq<byte>, i: int): Log {
    var isNew := NeedsNewGroup(log, |bytes|);
    var name := if isNew then GroupName(i) else log.tail.value;
    var pos := if isNew then 0 else |log.files.data[name]|;
    var f := log.files;
    Log(f.(data := f.data[name := Content(f.data, name) + bytes],
           index := f.index[name := Content(f.index, name) + Entry(i, pos)],
           offset := EncodeInt(i)),
        Some(name),
        InsertAbsent(log.places, i, name),
        if isNew then log.groups + [name] else log.groups)
  }

  function Drop(groups: seq<string>, name: string): seq<string> {
    if groups == [] then []
    else (if groups[0] == name then [] else [groups[0]]) + Drop(groups[1..], name)
  }

  /** OnConsumeMessage for durable index i. */
  function Consume(log: Log, i: int): Log {
    if i !in log.places then log
    else
      var name, f := log.places[i], log.files;
      var consumed := Content(f.consume, name) + EncodeInt(i);
      if name !in f.index then log.(files := f.(consume := f.consume[name := consumed]))
      else if |consumed| / 4 == |f.index[name]| / ENTRY_SIZE then
        log.(files := f.(data := f.data - {name}, index := f.index - {name}, consume := f.consume - {name}),
             tail := if log.tail == Some(name) then None else log.tail,
             groups := Drop(log.groups, name))
      else log.(files := f.(consume := f.consume[name := consumed]))
  }

  /** ProcessIndexFile: the first k entries of an index file. */
  function PlaceEntries(places: map<int, string>, file: seq<byte>, name: string, k: nat): map<int, string>
    requires ENTRY_SIZE * k <= |file|
  {
    if k == 0 then places
    else InsertAbsent(PlaceEntries(places, file, name, k - 1), EntryAt(file, k - 1).0, name)
  }

  function PlaceFiles(index: map<string, seq<byte>>, names: seq<string>): map<int, string> {
    if names == [] then map[]
    else
      var last := names[|names| - 1];
      var file := Content(index, last);
      PlaceEntries(PlaceFiles(index, names[..|names| - 1]), Mapped(file), last, Entries(file))
  }

  /** InitFileInfo, given the sorted names of the index files. */
  function Restart(log: Log, names: seq<string>): Log {
    Log(log.files, None, PlaceFiles(log.files.index, names), names)
  }

  // --------------------------------------------------- what a log stands for

  /** A group of files: the records written to it and the indices consumed. */
  datatype Group = Group(records: seq<Record>, consumed: seq<int>)

  function Title(g: Group): string {
    if g.records == [] then "" else GroupName(g.records[0].index)
  }

  function Titles(gs: seq<Group>): set<string> {
    set i | 0 <= i < |gs| :: Title(gs[i])
  }

  ghost predicate Distinct(s: seq<int>) {
    forall i, j :: 0 <= i < j < |s| ==> s[i] != s[j]
  }

  predicate HasIndex(rs: seq<Record>, i: int) {
    exists k :: 0 <= k < |rs| && rs[k].index == i
  }

  ghost predicate SoundGroup(name: seq<byte>, g: Group) {
    && g.records != [] && |name| < MAX_NAME_LENGTH
    && (forall k :: 0 <= k < |g.records| ==> Storable(name, g.records[k]))
    && (forall j, k :: 0 <= j < k < |g.records| ==> g.records[j].index < g.records[k].index)
    && |DataBytes(name, g.records)| <= DURABLE_MESSAGE_FILE_SIZE
    && Distinct(g.consumed)
    && (forall k :: 0 <= k < |g.consumed| ==> HasIndex(g.records, g.consumed[k]))
    && |g.consumed| < |g.records|
  }

  function First(g: Group): int
    requires g.records != []
  {
    g.records[0].index
  }

  function Last(g: Group): int
    requires g.records != []
  {
    g.records[|g.records| - 1].index
  }

  /** Live groups in order, every index below `next`. */
  ghost predicate SoundGroups(name: seq<byte>, gs: seq<Group>, next: int) {
    && |name| < MAX_NAME_LENGTH && 0 !in name && 0 <= next <= INT_MAX + 1
    && (forall i :: 0 <= i < |gs| ==> SoundGroup(name, gs[i]) && Last(gs[i]) < next)
    && (forall i, j :: 0 <= i < j < |gs| ==> Last(gs[i]) < First(gs[j]))
  }

  /** The three files of a group hold its records and consumed indices. */
  ghost predicate GroupFiles(name: seq<byte>, f: Files, g: Group)
    requires |name| < MAX_NAME_LENGTH
  {
    var t := Title(g);
    && t in f.data && f.data[t] == DataBytes(name, g.records)
    && t in f.index && f.index[t] == IndexBytes(name, g.records)
    && Content(f.consume, t) == ConsumeBytes(g.consumed)
  }

  ghost predicate FilesMatch(name: seq<byte>, f: Files, gs: seq<Group>, next: int)
    requires |name| < MAX_NAME_LENGTH
  {
    && f.data.Keys == Titles(gs) && f.index.Keys == Titles(gs) && f.consume.Keys <= Titles(gs)
    && (forall i :: 0 <= i < |gs| ==> GroupFiles(name, f, gs[i]))
    && f.offset == (if next == 0 then [] else EncodeInt(next - 1))
  }

  ghost predicate MemoryMatches(log: Log, gs: seq<Group>) {
    && |log.groups| == |gs|
    && (forall i :: 0 <= i < |gs| ==> log.groups[i] == Title(gs[i]))
    && (log.tail.Some? ==> gs != [] && log.tail.value == Title(gs[|gs| - 1]))
    && (forall i, k :: 0 <= i < |gs| && 0 <= k < |gs[i].records| ==>
          gs[i].records[k].index in log.places && log.places[gs[i].records[k].index] == Title(gs[i]))
  }

  /** The log consists of exactly the groups gs; `next` is one above the last
      index ever written. */
  ghost predicate Represents(log: Log, name: seq<byte>, gs: seq<Group>, next: int) {
    && SoundGroups(name, gs, next)
    && FilesMatch(name, log.files, gs, next)
    && MemoryMatches(log, gs)
    && (forall i :: i in log.places ==> i < next)
  }

  function Gone(g: Group): set<int> {
    set k | 0 <= k < |g.consumed| :: g.consumed[k]
  }

  /** The records that were written and not consumed, in the order of the
      groups. */
  function Outstanding(gs: seq<Group>): seq<Record> {
    if gs == [] then []
    else Outstanding(gs[..|gs| - 1]) + Remaining(gs[|gs| - 1].records, Gone(gs[|gs| - 1]))
  }

  // ------------------------------------------------- titles identify groups

  lemma TitlesAscend(name: seq<byte>, gs: seq<Group>, next: int)
    requires SoundGroups(name, gs, next)
    ensures forall i, j :: 0 <= i < j < |gs| ==> Less(Title(gs[i]), Title(gs[j]))
    ensures forall i, j :: 0 <= i < |gs| && 0 <= j < |gs| && Title(gs[i]) == Title(gs[j]) ==> i == j
  {
    hide GroupName, Less;
    forall i, j | 0 <= i < |gs| && 0 <= j < |gs|
      ensures Less(Title(gs[i]), Title(gs[j])) <==> First(gs[i]) < First(gs[j])
      ensures Title(gs[i]) == Title(gs[j]) <==> First(gs[i]) == First(gs[j])
    {
      NameOrder(First(gs[i]), First(gs[j]));
    }
    forall i, j | 0 <= i < j < |gs|
      ensures First(gs[i]) < First(gs[j])
    {
      assert First(gs[i]) <= Last(gs[i]);
    }
  }

  lemma GroupsHaveRecords(name: seq<byte>, gs: seq<Group>, next: int)
    requires SoundGroups(name, gs, next)
    ensures forall i :: 0 <= i < |gs| ==> gs[i].records != []
  {
  }

  lemma FreshTitle(name: seq<byte>, gs: seq<Group>, next: int, i: int)
    requires SoundGroups(name, gs, next) && next <= i <= INT_MAX
    ensures forall k :: 0 <= k < |gs| ==> Title(gs[k]) != GroupName(i)
  {
    hide GroupName;
    forall k | 0 <= k < |gs|
      ensures Title(gs[k]) != GroupName(i)
    {
      assert First(gs[k]) <= Last(gs[k]);
      NameOrder(First(gs[k]), i);
    }
  }

  // -------------------------------------------------------------- writing

  /** The groups after a record was written. */
  function Written(log: Log, name: seq<byte>, gs: seq<Group>, r: Record): seq<Group>
    requires |name| < MAX_NAME_LENGTH
    requires log.tail.Some? ==> gs != []
  {
    if NeedsNewGroup(log, |Encode(name, r)|) then gs + [Group([r], [])]
    else
      var last := gs[|gs| - 1];
      gs[|gs| - 1 := last.(records := last.records + [r])]
  }

  lemma TailIsOnDisk(log: Log, name: seq<byte>, gs: seq<Group>, next: int)
    requires Represents(log, name, gs, next)
    ensures TailOnDisk(log)
    ensures log.tail.Some? ==> gs != [] && log.files.data[log.tail.value] == DataBytes(name, gs[|gs| - 1].records)
  {
  }

  lemma SingleRecord(name: seq<byte>, r: Record)
    requires |name| < MAX_NAME_LENGTH
    ensures DataBytes(name, [r]) == Encode(name, r)
    ensures IndexBytes(name, [r]) == Entry(r.index, 0)
    ensures ConsumeBytes([]) == []
  {
    hide Encode, Entry;
    assert [r][..0] == [];
    assert DataBytes(name, []) == [] && IndexBytes(name, []) == [];
  }

  lemma NewGroupIsSound(name: seq<byte>, gs: seq<Group>, next: int, r: Record)
    requires SoundGroups(name, gs, next) && Storable(name, r) && next <= r.index
    ensures SoundGroups(name, gs + [Group([r], [])], r.index + 1)
  {
    hide DataBytes, Encode;
    SingleRecord(name, r);
    var gs' := gs + [Group([r], [])];
    forall i | 0 <= i < |gs'|
      ensures SoundGroup(name, gs'[i]) && Last(gs'[i]) < r.index + 1
    {
    }
  }

  lemma TitlesAppend(gs: seq<Group>, g: Group)
    ensures Titles(gs + [g]) == Titles(gs) + {Title(g)}
  {
    hide Title;
    var gs' := gs + [g];
    forall t | t in Titles(gs)
      ensures t in Titles(gs')
    {
      var i :| 0 <= i < |gs| && Title(gs[i]) == t;
      assert Title(gs'[i]) == t;
    }
    assert Title(gs'[|gs|]) == Title(g);
  }

  lemma NewGroupFiles(log: Log, name: seq<byte>, gs: seq<Group>, next: int, r: Record)
    requires Represents(log, name, gs, next) && Storable(name, r) && next <= r.index
    requires GroupName(r.index) !in Titles(gs) && NeedsNewGroup(log, |Encode(name, r)|)
    ensures FilesMatch(name, Publish(log, Encode(name, r), r.index).files, gs + [Group([r], [])], r.index + 1)
  {
    hide DataBytes, IndexBytes, ConsumeBytes, Encode, Entry, GroupName, EncodeInt, SoundGroup, Titles, MemoryMatches;
    var g, t := Group([r], []), GroupName(r.index);
    SingleRecord(name, r);
    TitlesAppend(gs, g);
    assert Content(log.files.data, t) + Encode(name, r) == Encode(name, r);
    assert Content(log.files.index, t) + Entry(r.index, 0) == Entry(r.index, 0);
    forall i | 0 <= i < |gs|
      ensures Title(gs[i]) in Titles(gs)
    {
      TitleInTitles(gs, i);
    }
  }

  lemma NewGroupMemory(log: Log, bytes: seq<byte>, gs: seq<Group>, r: Record)
    requires MemoryMatches(log, gs) && NeedsNewGroup(log, |bytes|) && r.index !in log.places
    ensures MemoryMatches(Publish(log, bytes, r.index), gs + [Group([r], [])])
  {
    hide GroupName, NeedsNewGroup, EncodeInt, Entry;
    var g := Group([r], []);
    assert Title(g) == GroupName(r.index);
    hide Title;
  }

  lemma WriteNewGroup(log: Log, name: seq<byte>, gs: seq<Group>, next: int, r: Record)
    requires Represents(log, name, gs, next) && Storable(name, r) && next <= r.index
    requires TailOnDisk(log) && NeedsNewGroup(log, |Encode(name, r)|)
    ensures Represents(Publish(log, Encode(name, r), r.index), name, gs + [Group([r], [])], r.index + 1)
  {
    hide DataBytes, IndexBytes, ConsumeBytes, Encode, Entry, GroupName, EncodeInt, SoundGroup, Titles;
    FreshTitle(name, gs, next, r.index);
    NotATitle(gs, GroupName(r.index));
    NewGroupFiles(log, name, gs, next, r);
    NewGroupIsSound(name, gs, next, r);
    hide FilesMatch, SoundGroups, MemoryMatches, NeedsNewGroup;
    NewGroupMemory(log, Encode(name, r), gs, r);
  }

  lemma NotATitle(gs: seq<Group>, t: string)
    requires forall k :: 0 <= k < |gs| ==> Title(gs[k]) != t
    ensures t !in Titles(gs)
  {
  }

  lemma SameTitles(gs: seq<Group>, hs: seq<Group>)
    requires |gs| == |hs| && forall i :: 0 <= i < |gs| ==> Title(gs[i]) == Title(hs[i])
    ensures Titles(gs) == Titles(hs)
  {
  }

  lemma AppendedFiles(name: seq<byte>, rs: seq<Record>, r: Record)
    requires |name| < MAX_NAME_LENGTH
    ensures DataBytes(name, rs + [r]) == DataBytes(name, rs) + Encode(name, r)
    ensures IndexBytes(name, rs + [r]) == IndexBytes(name, rs) + Entry(r.index, |DataBytes(name, rs)|)
  {
    hide Encode, Entry;
    assert (rs + [r])[..|rs|] == rs;
  }

  lemma LongerGroup(name: seq<byte>, g: Group, r: Record)
    requires SoundGroup(name, g) && Storable(name, r) && Last(g) < r.index
    requires |DataBytes(name, g.records)| + |Encode(name, r)| <= DURABLE_MESSAGE_FILE_SIZE
    ensures var longer := g.(records := g.records + [r]);
      SoundGroup(name, longer) && Last(longer) == r.index && First(longer) == First(g)
  {
    hide DataBytes, Encode, Storable;
    var longer := g.(records := g.records + [r]);
    AppendedFiles(name, g.records, r);
    forall k | 0 <= k < |longer.consumed|
      ensures HasIndex(longer.records, longer.consumed[k])
    {
      var j :| 0 <= j < |g.records| && g.records[j].index == g.consumed[k];
      assert longer.records[j].index == g.consumed[k];
    }
    forall k | 0 <= k < |g.records|
      ensures g.records[k].index < r.index
    {
      assert g.records[k].index <= Last(g);
    }
  }

  lemma LongerGroupIsSound(name: seq<byte>, gs: seq<Group>, next: int, r: Record)
    requires SoundGroups(name, gs, next) && gs != [] && Storable(name, r) && next <= r.index
    requires var rs := gs[|gs| - 1].records;
      |DataBytes(name, rs)| + |Encode(name, r)| <= DURABLE_MESSAGE_FILE_SIZE
    ensures var last := gs[|gs| - 1];
      SoundGroups(name, gs[|gs| - 1 := last.(records := last.records + [r])], r.index + 1)
  {
    hide DataBytes, Encode, SoundGroup;
    GroupsHaveRecords(name, gs, next);
    LongerGroup(name, gs[|gs| - 1], r);
  }

  lemma LongerGroupFiles(log: Log, name: seq<byte>, gs: seq<Group>, next: int, r: Record)
    requires Represents(log, name, gs, next) && Storable(name, r)
    requires TailOnDisk(log) && !NeedsNewGroup(log, |Encode(name, r)|)
    ensures FilesMatch(name, Publish(log, Encode(name, r), r.index).files, Written(log, name, gs, r), r.index + 1)
  {
    hide DataBytes, IndexBytes, ConsumeBytes, Encode, Entry, GroupName, EncodeInt, SoundGroup, Titles;
    var n, gs' := |gs| - 1, Written(log, name, gs, r);
    GroupsHaveRecords(name, gs, next);
    AppendedFiles(name, gs[n].records, r);
    TitlesAscend(name, gs, next);
    hide SoundGroups;
    SameTitles(gs, gs');
    TitleInTitles(gs, n);
  }

  lemma WriteToTail(log: Log, name: seq<byte>, gs: seq<Group>, next: int, r: Record)
    requires Represents(log, name, gs, next) && Storable(name, r) && next <= r.index
    requires TailOnDisk(log) && !NeedsNewGroup(log, |Encode(name, r)|)
    ensures Represents(Publish(log, Encode(name, r), r.index), name, Written(log, name, gs, r), r.index + 1)
  {
    hide DataBytes, IndexBytes, ConsumeBytes, Encode, Entry, GroupName, EncodeInt, SoundGroup, Titles;
    LongerGroupFiles(log, name, gs, next, r);
    LongerGroupIsSound(name, gs, next, r);
    GroupsHaveRecords(name, gs, next);
    hide FilesMatch, SoundGroups;
    assert r.index !in log.places;
  }

  lemma TitleInTitles(gs: seq<Group>, i: nat)
    requires i < |gs|
    ensures Title(gs[i]) in Titles(gs)
  {
  }

  /** Writing a record with a new, larger index keeps the log sound. */
  lemma WriteKeeps(log: Log, name: seq<byte>, gs: seq<Group>, next: int, r: Record)
    requires Represents(log, name, gs, next) && Storable(name, r) && next <= r.index
    ensures TailOnDisk(log) && (log.tail.Some? ==> gs != [])
    ensures Represents(Publish(log, Encode(name, r), r.index), name, Written(log, name, gs, r), r.index + 1)
    ensures Outstanding(Written(log, name, gs, r)) == Outstanding(gs) + [r]
  {
    hide Represents, Publish, Encode, Outstanding, Remaining;
    TailIsOnDisk(log, name, gs, next);
    if NeedsNewGroup(log, |Encode(name, r)|) {
      WriteNewGroup(log, name, gs, next, r);
    } else {
      WriteToTail(log, name, gs, next, r);
    }
    if gs != [] {
      IndexNotConsumed(log, name, gs, next, r.index);
    }
    WrittenIsOutstanding(log, name, gs, r);
  }

  /** A write opens a group exactly when there is no tail, or when the record does
      not fit behind what the tail's data file holds; otherwise it goes there. */
  lemma GroupIsOpenedWhenFull(log: Log, name: seq<byte>, gs: seq<Group>, next: int, r: Record)
    requires Represents(log, name, gs, next) && Storable(name, r) && next <= r.index
    ensures log.tail.Some? ==> log.tail.value in log.files.data
    ensures var log', bytes, own := Publish(log, Encode(name, r), r.index), Encode(name, r), GroupName(r.index);
      if log.tail.None? || |log.files.data[log.tail.value]| + |bytes| > DURABLE_MESSAGE_FILE_SIZE then
        && own !in log.files.data && log'.files.data == log.files.data[own := bytes]
        && log'.groups == log.groups + [own] && log'.tail == Some(own)
      else
        && log'.files.data == log.files.data[log.tail.value := log.files.data[log.tail.value] + bytes]
        && log'.groups == log.groups && log'.tail == log.tail
  {
    hide Encode, Entry, EncodeInt, GroupName, Represents;
    TailIsOnDisk(log, name, gs, next);
    NewTitleIsFree(log, name, gs, next, r.index);
    assert [] + Encode(name, r) == Encode(name, r);
  }

  lemma NewTitleIsFree(log: Log, name: seq<byte>, gs: seq<Group>, next: int, i: int)
    requires Represents(log, name, gs, next) && next <= i <= INT_MAX
    ensures GroupName(i) !in log.files.data
  {
    hide DataBytes, IndexBytes, ConsumeBytes, GroupName, SoundGroup, MemoryMatches;
    FreshTitle(name, gs, next, i);
    NotATitle(gs, GroupName(i));
  }

  lemma OutstandingMore(gs: seq<Group>, g: Group)
    ensures Outstanding(gs + [g]) == Outstanding(gs) + Remaining(g.records, Gone(g))
  {
    hide Remaining, Gone;
    assert (gs + [g])[..|gs|] == gs;
  }

  lemma WrittenIsOutstanding(log: Log, name: seq<byte>, gs: seq<Group>, r: Record)
    requires TailOnDisk(log) && |name| < MAX_NAME_LENGTH && (log.tail.Some? ==> gs != [])
    requires gs != [] ==> r.index !in Gone(gs[|gs| - 1])
    ensures Outstanding(Written(log, name, gs, r)) == Outstanding(gs) + [r]
  {
    hide Encode, Remaining, Gone, Outstanding;
    var gs' := Written(log, name, gs, r);
    if NeedsNewGroup(log, |Encode(name, r)|) {
      OutstandingMore(gs, Group([r], []));
      RemainingOfOne(r);
    } else {
      LongerIsOutstanding(gs, r);
    }
  }

  lemma LongerIsOutstanding(gs: seq<Group>, r: Record)
    requires gs != [] && r.index !in Gone(gs[|gs| - 1])
    ensures var last := gs[|gs| - 1];
      Outstanding(gs[|gs| - 1 := last.(records := last.records + [r])]) == Outstanding(gs) + [r]
  {
    hide Remaining, Gone, Outstanding;
    var front, last := gs[..|gs| - 1], gs[|gs| - 1];
    var longer := last.(records := last.records + [r]);
    assert gs == front + [last] && gs[|gs| - 1 := longer] == front + [longer];
    OutstandingMore(front, last);
    OutstandingMore(front, longer);
    GoneDependsOnConsumed(last, longer);
    RemainingAppend(last.records, r, Gone(last));
    var mid := Remaining(last.records, Gone(last));
    assert Outstanding(front) + (mid + [r]) == (Outstanding(front) + mid) + [r];
  }

  lemma GoneDependsOnConsumed(g: Group, h: Group)
    requires g.consumed == h.consumed
    ensures Gone(g) == Gone(h)
  {
  }

  lemma RemainingOfOne(r: Record)
    ensures Remaining([r], Gone(Group([r], []))) == [r]
  {
    assert [r][..0] == [];
    assert Remaining([], {}) == [];
  }

  lemma IndexNotConsumed(log: Log, name: seq<byte>, gs: seq<Group>, next: int, i: int)
    requires Represents(log, name, gs, next) && gs != [] && next <= i
    ensures i !in Gone(gs[|gs| - 1])
  {
    hide FilesMatch, MemoryMatches, Storable, DataBytes;
    var last := gs[|gs| - 1];
    forall k | 0 <= k < |last.consumed|
      ensures last.consumed[k] != i
    {
      var j :| 0 <= j < |last.records| && last.records[j].index == last.consumed[k];
      assert last.records[j].index <= Last(last);
    }
  }

  lemma RemainingAppend(rs: seq<Record>, r: Record, gone: set<int>)
    ensures Remaining(rs + [r], gone) == Remaining(rs, gone) + (if r.index in gone then [] else [r])
  {
    assert (rs + [r])[..|rs|] == rs;
  }

  // ------------------------------------------------------------ consuming

  /** The groups after index i, held by group k, was consumed: a group goes
      away with its last unconsumed record. */
  function Consumed(gs: seq<Group>, k: nat, i: int): seq<Group>
    requires k < |gs|
  {
    var g := gs[k].(consumed := gs[k].consumed + [i]);
    if |g.consumed| == |g.records| then gs[..k] + gs[k + 1..] else gs[k := g]
  }

  function IndexSet(rs: seq<Record>): set<int> {
    set k | 0 <= k < |rs| :: rs[k].index
  }

  lemma {:induction false} IndexSetSize(rs: seq<Record>)
    ensures |IndexSet(rs)| <= |rs|
  {
    if rs != [] {
      var front, last := rs[..|rs| - 1], rs[|rs| - 1];
      IndexSetSize(front);
      assert IndexSet(rs) == IndexSet(front) + {last.index} by {
        forall i | i in IndexSet(rs)
          ensures i in IndexSet(front) + {last.index}
        {
          var k :| 0 <= k < |rs| && rs[k].index == i;
          if k < |front| {
            assert front[k].index == i;
          }
        }
        forall i | i in IndexSet(front)
          ensures i in IndexSet(rs)
        {
          var k :| 0 <= k < |front| && front[k].index == i;
          assert rs[k].index == i;
        }
      }
    }
  }

  lemma {:induction false} GoneSize(g: Group)
    requires Distinct(g.consumed)
    ensures |Gone(g)| == |g.consumed|
    decreases |g.consumed|
  {
    if g.consumed != [] {
      var n := |g.consumed| - 1;
      var front := g.(consumed := g.consumed[..n]);
      GoneSize(front);
      assert Gone(g) == Gone(front) + {g.consumed[n]};
      assert g.consumed[n] !in Gone(front);
    }
  }

  /** Counting is enough: distinct indices of the group that are as many as
      its records are all of them. */
  lemma AllConsumed(g: Group)
    requires Distinct(g.consumed) && |g.consumed| == |g.records|
    requires forall k :: 0 <= k < |g.consumed| ==> HasIndex(g.records, g.consumed[k])
    ensures forall k :: 0 <= k < |g.records| ==> g.records[k].index in Gone(g)
  {
    GoneSize(g);
    IndexSetSize(g.records);
    forall i | i in Gone(g)
      ensures i in IndexSet(g.records)
    {
      var k :| 0 <= k < |g.consumed| && g.consumed[k] == i;
      var j :| 0 <= j < |g.records| && g.records[j].index == g.consumed[k];
    }
    SubsetOfSameSize(Gone(g), IndexSet(g.records));
  }

  lemma SubsetOfSameSize(a: set<int>, b: set<int>)
    requires a <= b && |b| <= |a|
    ensures a == b
  {
    assert |b - a| == |b| - |a|;
    assert b - a == {};
  }

  lemma {:induction false} RemainingNothing(rs: seq<Record>, gone: set<int>)
    requires forall k :: 0 <= k < |rs| ==> rs[k].index in gone
    ensures Remaining(rs, gone) == []
  {
    if rs != [] {
      RemainingNothing(rs[..|rs| - 1], gone);
    }
  }

  lemma {:induction false} RemainingEverything(rs: seq<Record>, gone: set<int>)
    requires forall k :: 0 <= k < |rs| ==> rs[k].index !in gone
    ensures Remaining(rs, gone) == rs
  {
    if rs == [] {
      assert Remaining([], gone) == [];
    } else {
      hide Remaining;
      var front, last := rs[..|rs| - 1], rs[|rs| - 1];
      RemainingEverything(front, gone);
      RemainingAppend(front, last, gone);
      assert rs == front + [last];
    }
  }

  lemma {:induction false} RemainingConcat(a: seq<Record>, b: seq<Record>, gone: set<int>)
    ensures Remaining(a + b, gone) == Remaining(a, gone) + Remaining(b, gone)
    decreases |b|
  {
    if b == [] {
      assert a + b == a;
    } else {
      var front, last := b[..|b| - 1], b[|b| - 1];
      assert (a + b)[..|a + b| - 1] == a + front;
      assert (a + b)[|a + b| - 1] == last;
      RemainingConcat(a, front, gone);
    }
  }

  lemma {:induction false} RemainingTwice(rs: seq<Record>, gone: set<int>, more: set<int>)
    ensures Remaining(Remaining(rs, gone), more) == Remaining(rs, gone + more)
  {
    if rs == [] {
      assert Remaining([], gone) == [] && Remaining([], gone + more) == [];
    } else {
      hide Remaining;
      var front, last := rs[..|rs| - 1], rs[|rs| - 1];
      assert rs == front + [last];
      RemainingTwice(front, gone, more);
      RemainingAppend(front, last, gone);
      RemainingAppend(front, last, gone + more);
      var rest := Remaining(front, gone);
      assert rest + [] == rest;
      RemainingAppend(rest, last, more);
    }
  }

  lemma {:induction false} OutstandingConcat(a: seq<Group>, b: seq<Group>)
    ensures Outstanding(a + b) == Outstanding(a) + Outstanding(b)
    decreases |b|
  {
    hide Remaining, Gone;
    if b == [] {
      assert a + b == a;
    } else {
      var front, last := b[..|b| - 1], b[|b| - 1];
      assert (a + b)[..|a + b| - 1] == a + front;
      assert (a + b)[|a + b| - 1] == last;
      OutstandingConcat(a, front);
    }
  }

  lemma OutstandingOfOne(g: Group)
    ensures Outstanding([g]) == Remaining(g.records, Gone(g))
  {
    hide Remaining, Gone;
    assert [g][..0] == [];
    assert Outstanding([]) == [];
  }

  /** An index of one group does not occur in the others. */
  lemma {:induction false} OutstandingWithout(gs: seq<Group>, i: int)
    requires forall k, j :: 0 <= k < |gs| && 0 <= j < |gs[k].records| ==> gs[k].records[j].index != i
    ensures Remaining(Outstanding(gs), {i}) == Outstanding(gs)
  {
    hide Gone;
    if gs == [] {
      assert Remaining([], {i}) == [];
    } else {
      var front, last := gs[..|gs| - 1], gs[|gs| - 1];
      OutstandingWithout(front, i);
      var rest := Remaining(last.records, Gone(last));
      RemainingMembers(last.records, Gone(last));
      forall k | 0 <= k < |rest|
        ensures rest[k].index !in {i}
      {
        var j :| 0 <= j < |last.records| && last.records[j] == rest[k];
      }
      RemainingEverything(rest, {i});
      RemainingConcat(Outstanding(front), rest, {i});
    }
  }

  /** Consuming i takes it out of the one group that has it. */
  lemma OutstandingSplit(gs: seq<Group>, k: nat, i: int)
    requires k < |gs|
    requires forall m, n :: 0 <= m < |gs| && m != k && 0 <= n < |gs[m].records| ==> gs[m].records[n].index != i
    ensures Remaining(Outstanding(gs), {i})
         == Outstanding(gs[..k]) + (Remaining(gs[k].records, Gone(gs[k]) + {i}) + Outstanding(gs[k + 1..]))
  {
    hide Remaining, Outstanding, Gone;
    var before, g, after := gs[..k], gs[k], gs[k + 1..];
    var rest := Remaining(g.records, Gone(g));
    assert gs == before + ([g] + after);
    OutstandingConcat(before, [g] + after);
    OutstandingConcat([g], after);
    OutstandingOfOne(g);
    OutstandingWithout(before, i);
    OutstandingWithout(after, i);
    RemainingConcat(Outstanding(before), rest + Outstanding(after), {i});
    RemainingConcat(rest, Outstanding(after), {i});
    RemainingTwice(g.records, Gone(g), {i});
  }

  lemma ConsumedIsNotOutstanding(gs: seq<Group>, k: nat, j: nat, i: int)
    requires k < |gs| && j < |gs[k].records| && gs[k].records[j].index == i
    requires forall m, n :: 0 <= m < |gs| && m != k && 0 <= n < |gs[m].records| ==> gs[m].records[n].index != i
    requires |gs[k].consumed| + 1 == |gs[k].records| ==>
      var g := gs[k].(consumed := gs[k].consumed + [i]); forall n :: 0 <= n < |g.records| ==> g.records[n].index in Gone(g)
    ensures Outstanding(Consumed(gs, k, i)) == Remaining(Outstanding(gs), {i})
  {
    hide Remaining, Outstanding, Gone;
    var before, g, after := gs[..k], gs[k], gs[k + 1..];
    var g' := g.(consumed := g.consumed + [i]);
    OutstandingSplit(gs, k, i);
    GoneGrows(g, i);
    if |g'.consumed| == |g.records| {
      RemainingNothing(g.records, Gone(g'));
      OutstandingConcat(before, after);
    } else {
      assert gs[k := g'] == before + ([g'] + after);
      OutstandingConcat(before, [g'] + after);
      OutstandingConcat([g'], after);
      OutstandingOfOne(g');
    }
  }

  lemma GoneGrows(g: Group, i: int)
    ensures Gone(g.(consumed := g.consumed + [i])) == Gone(g) + {i}
  {
    var g' := g.(consumed := g.consumed + [i]);
    assert g'.consumed[|g.consumed|] == i;
    forall x | x in Gone(g)
      ensures x in Gone(g')
    {
      var k :| 0 <= k < |g.consumed| && g.consumed[k] == x;
      assert g'.consumed[k] == x;
    }
  }

  // --------------------------------------------- consuming, on the files

  lemma ConsumeBytesAppend(indices: seq<int>, i: int)
    ensures ConsumeBytes(indices + [i]) == ConsumeBytes(indices) + EncodeInt(i)
  {
    assert (indices + [i])[..|indices|] == indices;
  }

  lemma {:induction false} DropOne(names: seq<string>, k: nat)
    requires k < |names|
    requires forall m :: 0 <= m < |names| && m != k ==> names[m] != names[k]
    ensures Drop(names, names[k]) == names[..k] + names[k + 1..]
    decreases |names|
  {
    var t, rest := names[k], names[1..];
    if k == 0 {
      DropNone(rest, t);
      assert names[..0] == [] && Drop(names, t) == [] + Drop(rest, t);
    } else {
      DropOne(rest, k - 1);
      assert names[..k] == [names[0]] + rest[..k - 1];
      assert names[k + 1..] == rest[k..];
      assert ([names[0]] + rest[..k - 1]) + rest[k..] == [names[0]] + (rest[..k - 1] + rest[k..]);
    }
  }

  lemma {:induction false} DropNone(names: seq<string>, t: string)
    requires t !in names
    ensures Drop(names, t) == names
  {
    if names != [] {
      DropNone(names[1..], t);
      assert names == [names[0]] + names[1..];
    }
  }

  lemma MoreConsumed(name: seq<byte>, g: Group, i: int)
    requires SoundGroup(name, g) && HasIndex(g.records, i) && i !in Gone(g)
    ensures var g' := g.(consumed := g.consumed + [i]);
      && Distinct(g'.consumed) && |g'.consumed| <= |g'.records|
      && (forall k :: 0 <= k < |g'.consumed| ==> HasIndex(g'.records, g'.consumed[k]))
      && (|g'.consumed| < |g'.records| ==> SoundGroup(name, g'))
      && Title(g') == Title(g) && First(g') == First(g) && Last(g') == Last(g)
  {
    hide DataBytes, Storable, GroupName;
    var g' := g.(consumed := g.consumed + [i]);
    forall m | 0 <= m < |g.consumed|
      ensures g.consumed[m] != i
    {
    }
    forall k | 0 <= k < |g'.consumed|
      ensures HasIndex(g'.records, g'.consumed[k])
    {
    }
  }

  lemma ConsumeInGroup(log: Log, name: seq<byte>, gs: seq<Group>, next: int, k: nat, j: nat)
    requires Represents(log, name, gs, next) && k < |gs| && j < |gs[k].records|
    requires var i := gs[k].records[j].index; i !in Gone(gs[k]) && |gs[k].consumed| + 1 < |gs[k].records|
    ensures var i := gs[k].records[j].index;
      Represents(Consume(log, i), name, Consumed(gs, k, i), next)
  {
    hide DataBytes, IndexBytes, ConsumeBytes, GroupName, EncodeInt, SoundGroup, Titles, Storable, Gone;
    var i := gs[k].records[j].index;
    var gs', log' := Consumed(gs, k, i), Consume(log, i);
    assert HasIndex(gs[k].records, i);
    MoreConsumed(name, gs[k], i);
    GroupsHaveRecords(name, gs, next);
    TitlesAscend(name, gs, next);
    SameTitles(gs, gs');
    TitleInTitles(gs, k);
    ConsumeBytesAppend(gs[k].consumed, i);
    assert FilesMatch(name, log'.files, gs', next);
  }

  lemma TitlesWithout(gs: seq<Group>, k: nat)
    requires k < |gs|
    requires forall i, j :: 0 <= i < |gs| && 0 <= j < |gs| && Title(gs[i]) == Title(gs[j]) ==> i == j
    ensures Titles(gs[..k] + gs[k + 1..]) == Titles(gs) - {Title(gs[k])}
  {
    hide Title;
    var gs' := gs[..k] + gs[k + 1..];
    forall t
      ensures t in Titles(gs') <==> t in Titles(gs) - {Title(gs[k])}
    {
      if t in Titles(gs') {
        var m :| 0 <= m < |gs'| && Title(gs'[m]) == t;
        var n := if m < k then m else m + 1;
        assert gs[n] == gs'[m];
      }
      if t in Titles(gs) && t != Title(gs[k]) {
        var n :| 0 <= n < |gs| && Title(gs[n]) == t;
        assert gs'[if n < k then n else n - 1] == gs[n];
      }
    }
  }

  function Without(gs: seq<Group>, k: nat): seq<Group>
    requires k < |gs|
  {
    gs[..k] + gs[k + 1..]
  }

  function RemoveFiles(f: Files, t: string): Files {
    f.(data := f.data - {t}, index := f.index - {t}, consume := f.consume - {t})
  }

  lemma SoundWithout(name: seq<byte>, gs: seq<Group>, next: int, k: nat)
    requires SoundGroups(name, gs, next) && k < |gs|
    ensures SoundGroups(name, Without(gs, k), next)
  {
    hide SoundGroup;
    GroupsHaveRecords(name, gs, next);
  }

  lemma GroupFilesStay(name: seq<byte>, f: Files, g: Group, t: string)
    requires |name| < MAX_NAME_LENGTH && GroupFiles(name, f, g) && Title(g) != t
    ensures GroupFiles(name, RemoveFiles(f, t), g)
  {
    hide DataBytes, IndexBytes, ConsumeBytes, Title;
  }

  lemma FilesWithout(name: seq<byte>, f: Files, gs: seq<Group>, next: int, k: nat)
    requires |name| < MAX_NAME_LENGTH && FilesMatch(name, f, gs, next) && k < |gs|
    requires forall i, j :: 0 <= i < |gs| && 0 <= j < |gs| && Title(gs[i]) == Title(gs[j]) ==> i == j
    ensures FilesMatch(name, RemoveFiles(f, Title(gs[k])), Without(gs, k), next)
  {
    hide GroupFiles, EncodeInt, Titles, Title;
    TitlesWithout(gs, k);
    var gs', f' := Without(gs, k), RemoveFiles(f, Title(gs[k]));
    forall m | 0 <= m < |gs'|
      ensures GroupFiles(name, f', gs'[m])
    {
      var n := if m < k then m else m + 1;
      assert gs'[m] == gs[n];
      GroupFilesStay(name, f, gs[n], Title(gs[k]));
    }
  }

  lemma MemoryWithout(log: Log, gs: seq<Group>, k: nat, log': Log)
    requires MemoryMatches(log, gs) && k < |gs|
    requires forall i, j :: 0 <= i < |gs| && 0 <= j < |gs| && Title(gs[i]) == Title(gs[j]) ==> i == j
    requires log'.groups == Drop(log.groups, Title(gs[k])) && log'.places == log.places
    requires log'.tail == if log.tail == Some(Title(gs[k])) then None else log.tail
    ensures MemoryMatches(log', Without(gs, k))
  {
    hide Title, Drop;
    var gs' := Without(gs, k);
    DropOne(log.groups, k);
    forall m | 0 <= m < |gs'|
      ensures gs'[m] == gs[if m < k then m else m + 1] && log'.groups[m] == Title(gs'[m])
    {
    }
  }

  lemma ConsumeLast(log: Log, name: seq<byte>, gs: seq<Group>, next: int, k: nat, j: nat)
    requires Represents(log, name, gs, next) && k < |gs| && j < |gs[k].records|
    requires var i := gs[k].records[j].index; i !in Gone(gs[k]) && |gs[k].consumed| + 1 == |gs[k].records|
    ensures var i := gs[k].records[j].index;
      Represents(Consume(log, i), name, Consumed(gs, k, i), next)
  {
    hide DataBytes, IndexBytes, ConsumeBytes, EncodeInt, SoundGroup, Titles, Title, Gone, Drop;
    var i, t := gs[k].records[j].index, Title(gs[k]);
    TitlesAscend(name, gs, next);
    TitleInTitles(gs, k);
    ConsumeBytesAppend(gs[k].consumed, i);
    SoundWithout(name, gs, next, k);
    assert GroupFiles(name, log.files, gs[k]);
    FilesWithout(name, log.files, gs, next, k);
    MemoryWithout(log, gs, k, Consume(log, i));
  }

  /** The record with index i, if it is outstanding, is in one group only. */
  lemma {:induction false} FindOutstanding(gs: seq<Group>, i: int) returns (k: nat, j: nat)
    requires HasIndex(Outstanding(gs), i)
    ensures k < |gs| && j < |gs[k].records| && gs[k].records[j].index == i && i !in Gone(gs[k])
  {
    hide Gone;
    var n := |gs| - 1;
    var front, rest := Outstanding(gs[..n]), Remaining(gs[n].records, Gone(gs[n]));
    var m :| 0 <= m < |Outstanding(gs)| && Outstanding(gs)[m].index == i;
    if m < |front| {
      assert front[m].index == i;
      k, j := FindOutstanding(gs[..n], i);
    } else {
      var r := rest[m - |front|];
      RemainingMembers(gs[n].records, Gone(gs[n]));
      k := n;
      j :| 0 <= j < |gs[n].records| && gs[n].records[j] == r;
    }
  }

  lemma IndexInOneGroup(name: seq<byte>, gs: seq<Group>, next: int, k: nat, j: nat)
    requires SoundGroups(name, gs, next) && k < |gs| && j < |gs[k].records|
    ensures forall m, n :: 0 <= m < |gs| && m != k && 0 <= n < |gs[m].records| ==>
      gs[m].records[n].index != gs[k].records[j].index
  {
    hide DataBytes, Storable;
    forall m, n | 0 <= m < |gs| && 0 <= n < |gs[m].records|
      ensures First(gs[m]) <= gs[m].records[n].index <= Last(gs[m])
    {
    }
  }

  /** Consuming an outstanding index removes exactly its record, and a group
      of files disappears only when all its records are consumed. */
  lemma ConsumeKeeps(log: Log, name: seq<byte>, gs: seq<Group>, next: int, i: int) returns (k: nat)
    requires Represents(log, name, gs, next) && HasIndex(Outstanding(gs), i)
    ensures k < |gs| && HasIndex(gs[k].records, i)
    ensures Represents(Consume(log, i), name, Consumed(gs, k, i), next)
    ensures Outstanding(Consumed(gs, k, i)) == Remaining(Outstanding(gs), {i})
    ensures Title(gs[k]) !in Consume(log, i).files.data ==>
      Remaining(gs[k].records, Gone(gs[k]) + {i}) == []
  {
    hide Outstanding, Remaining, FilesMatch, MemoryMatches, Gone, DataBytes, Storable, Consume, Title;
    var j;
    k, j := FindOutstanding(gs, i);
    IndexInOneGroup(name, gs, next, k, j);
    MoreConsumed(name, gs[k], i);
    var g' := gs[k].(consumed := gs[k].consumed + [i]);
    if |g'.consumed| == |g'.records| {
      AllConsumed(g');
      GoneGrows(gs[k], i);
      RemainingNothing(g'.records, Gone(g'));
      ConsumeLast(log, name, gs, next, k, j);
    } else {
      ConsumeInGroup(log, name, gs, next, k, j);
      GroupOnDisk(Consume(log, i), name, Consumed(gs, k, i), next, k);
    }
    ConsumedIsNotOutstanding(gs, k, j, i);
  }

  /** Counting is safe only for distinct indices: when the last but one record
      is consumed a second time, the group goes away with a record that was
      never consumed. */
  lemma RepeatedConsumeLosesRecord(log: Log, name: seq<byte>, gs: seq<Group>, next: int, k: nat, i: int)
    requires Represents(log, name, gs, next) && k < |gs|
    requires i in Gone(gs[k]) && |gs[k].consumed| + 1 == |gs[k].records|
    ensures Title(gs[k]) !in Consume(log, i).files.data
    ensures Remaining(gs[k].records, Gone(gs[k])) != []
  {
    hide DataBytes, IndexBytes, ConsumeBytes, EncodeInt, Titles, Title, Storable;
    var g := gs[k];
    var m :| 0 <= m < |g.consumed| && g.consumed[m] == i;
    assert HasIndex(g.records, g.consumed[m]);
    var j :| 0 <= j < |g.records| && g.records[j].index == i;
    assert GroupFiles(name, log.files, g);
    ConsumeBytesAppend(g.consumed, i);
    SomeRecordLeft(name, g);
  }

  lemma {:induction false} IndexSetExact(rs: seq<Record>)
    requires forall j, k :: 0 <= j < k < |rs| ==> rs[j].index < rs[k].index
    ensures |IndexSet(rs)| == |rs|
  {
    if rs != [] {
      var front, last := rs[..|rs| - 1], rs[|rs| - 1];
      IndexSetExact(front);
      assert last.index !in IndexSet(front);
      IndexSetSize(rs);
      assert IndexSet(front) + {last.index} <= IndexSet(rs) by {
        forall i | i in IndexSet(front)
          ensures i in IndexSet(rs)
        {
          var k :| 0 <= k < |front| && front[k].index == i;
          assert rs[k].index == i;
        }
      }
      SubsetIsSmaller(IndexSet(front) + {last.index}, IndexSet(rs));
    }
  }

  lemma SubsetIsSmaller(a: set<int>, b: set<int>)
    requires a <= b
    ensures |a| <= |b|
  {
    assert |b - a| == |b| - |a|;
  }

  lemma SomeRecordLeft(name: seq<byte>, g: Group)
    requires SoundGroup(name, g)
    ensures Remaining(g.records, Gone(g)) != []
  {
    hide DataBytes, Storable;
    GoneSize(g);
    IndexSetExact(g.records);
    if Remaining(g.records, Gone(g)) == [] {
      forall k | 0 <= k < |g.records|
        ensures g.records[k].index in Gone(g)
      {
        if g.records[k].index !in Gone(g) {
          StaysRemaining(g.records, Gone(g), k);
        }
      }
      SubsetIsSmaller(IndexSet(g.records), Gone(g));
    }
  }

  lemma {:induction false} StaysRemaining(rs: seq<Record>, gone: set<int>, k: nat)
    requires k < |rs| && rs[k].index !in gone
    ensures rs[k] in Remaining(rs, gone)
  {
    var front, last := rs[..|rs| - 1], rs[|rs| - 1];
    if k == |rs| - 1 {
      assert Remaining(rs, gone) == Remaining(front, gone) + [last];
    } else {
      StaysRemaining(front, gone, k);
      assert front[k] == rs[k];
    }
  }

  lemma GroupOnDisk(log: Log, name: seq<byte>, gs: seq<Group>, next: int, k: nat)
    requires Represents(log, name, gs, next) && k < |gs|
    ensures Title(gs[k]) in log.files.data
  {
    assert GroupFiles(name, log.files, gs[k]);
  }

  // -------------------------------------------------------- restarting

  lemma {:induction false} EntriesPlaced(places: map<int, string>, name: seq<byte>, rs: seq<Record>, t: string, k: nat)
    requires |name| < MAX_NAME_LENGTH && k <= |rs|
    requires forall j :: 0 <= j < |rs| ==> IsInt(rs[j].index) && |DataBytes(name, rs[..j])| <= INT_MAX
    requires forall j :: 0 <= j < |rs| ==> rs[j].index !in places
    ensures var after := PlaceEntries(places, IndexBytes(name, rs), t, k);
      && (forall i :: i in places ==> i in after && after[i] == places[i])
      && (forall j :: 0 <= j < k ==> rs[j].index in after && after[rs[j].index] == t)
      && (forall i :: i in after ==> i in places || (HasIndex(rs, i) && after[i] == t))
  {
    hide IndexBytes, DataBytes, EntryAt;
    if k > 0 {
      EntriesPlaced(places, name, rs, t, k - 1);
      EntryOf(name, rs, k - 1);
    }
  }

  lemma PositionsFit(name: seq<byte>, rs: seq<Record>)
    requires |name| < MAX_NAME_LENGTH && |DataBytes(name, rs)| <= DURABLE_MESSAGE_FILE_SIZE
    ensures forall j :: 0 <= j < |rs| ==> |DataBytes(name, rs[..j])| <= INT_MAX
  {
    forall j | 0 <= j < |rs|
      ensures |DataBytes(name, rs[..j])| <= INT_MAX
    {
      DataFront(name, rs, j);
    }
  }

  /** Every record of the first m groups is placed in its group, and nothing
      else is placed. */
  ghost predicate PlacedUpTo(places: map<int, string>, gs: seq<Group>, m: nat)
    requires m <= |gs|
  {
    && (forall i, j :: 0 <= i < m && 0 <= j < |gs[i].records| ==>
          gs[i].records[j].index in places && places[gs[i].records[j].index] == Title(gs[i]))
    && (forall x :: x in places ==> exists i :: 0 <= i < m && HasIndex(gs[i].records, x))
  }

  lemma GroupPlaced(places: map<int, string>, name: seq<byte>, gs: seq<Group>, next: int, m: nat)
    requires SoundGroups(name, gs, next) && m < |gs| && PlacedUpTo(places, gs, m)
    ensures var rs := gs[m].records;
      PlacedUpTo(PlaceEntries(places, IndexBytes(name, rs), Title(gs[m]), |rs|), gs, m + 1)
  {
    hide IndexBytes, DataBytes, Title, PlaceEntries, Storable;
    var g := gs[m];
    PositionsFit(name, g.records);
    forall j | 0 <= j < |g.records|
      ensures g.records[j].index !in places && IsInt(g.records[j].index)
    {
      StorableIndex(name, g, j);
      IndexInOneGroup(name, gs, next, m, j);
    }
    EntriesPlaced(places, name, g.records, Title(g), |g.records|);
    hide SoundGroups;
    OneMorePlaced(places, gs, m, PlaceEntries(places, IndexBytes(name, g.records), Title(g), |g.records|));
  }

  lemma OneMorePlaced(places: map<int, string>, gs: seq<Group>, m: nat, after: map<int, string>)
    requires m < |gs| && PlacedUpTo(places, gs, m)
    requires forall i :: i in places ==> i in after && after[i] == places[i]
    requires forall j :: 0 <= j < |gs[m].records| ==>
      gs[m].records[j].index in after && after[gs[m].records[j].index] == Title(gs[m])
    requires forall i :: i in after ==> i in places || HasIndex(gs[m].records, i)
    ensures PlacedUpTo(after, gs, m + 1)
  {
    hide Title, HasIndex;
    forall x | x in after
      ensures exists i :: 0 <= i < m + 1 && HasIndex(gs[i].records, x)
    {
      if x in places {
        var i :| 0 <= i < m && HasIndex(gs[i].records, x);
      } else {
        assert HasIndex(gs[m].records, x);
      }
    }
  }

  lemma IndexFileOf(name: seq<byte>, f: Files, g: Group)
    requires |name| < MAX_NAME_LENGTH && GroupFiles(name, f, g)
    ensures Content(f.index, Title(g)) == IndexBytes(name, g.records)
    ensures Entries(Content(f.index, Title(g))) == |g.records|
  {
    hide DataBytes, IndexBytes, ConsumeBytes, Title;
  }

  lemma MatchedFiles(f: Files, name: seq<byte>, gs: seq<Group>, next: int, k: nat)
    requires SoundGroups(name, gs, next) && FilesMatch(name, f, gs, next) && k < |gs|
    ensures Content(f.index, Title(gs[k])) == IndexBytes(name, gs[k].records)
    ensures Entries(Content(f.index, Title(gs[k]))) == |gs[k].records|
    ensures |name| < MAX_NAME_LENGTH
  {
    hide Title, Titles, GroupFiles, Content, SoundGroup, IndexBytes;
    IndexFileOf(name, f, gs[k]);
  }

  /** Whole entries are read in the mapping as they are in the file. */
  lemma {:induction false} PlaceMapped(places: map<int, string>, file: seq<byte>, t: string, k: nat)
    requires ENTRY_SIZE * k <= |file|
    ensures ENTRY_SIZE * k <= |Mapped(file)|
    ensures PlaceEntries(places, Mapped(file), t, k) == PlaceEntries(places, file, t, k)
  {
    hide EntryAt, Mapped;
    if k > 0 {
      PlaceMapped(places, file, t, k - 1);
      MappedEntry(file, k - 1);
    }
  }

  lemma {:induction false} FilesPlaced(f: Files, name: seq<byte>, gs: seq<Group>, next: int, names: seq<string>, m: nat)
    requires SoundGroups(name, gs, next) && FilesMatch(name, f, gs, next)
    requires |names| == |gs| && (forall i :: 0 <= i < |gs| ==> names[i] == Title(gs[i])) && m <= |gs|
    ensures PlacedUpTo(PlaceFiles(f.index, names[..m]), gs, m)
  {
    hide Title, Titles, PlaceEntries, GroupFiles, PlaceFiles, Content, PlacedUpTo, SoundGroups, FilesMatch, IndexBytes,
      Mapped, Entries;
    if m == 0 {
      NothingPlaced(f.index, gs);
    } else {
      var g := gs[m - 1];
      FilesPlaced(f, name, gs, next, names, m - 1);
      MatchedFiles(f, name, gs, next, m - 1);
      assert names[..m][..m - 1] == names[..m - 1] && names[..m][m - 1] == Title(g);
      PlaceLastFile(f.index, names[..m]);
      PlaceMapped(PlaceFiles(f.index, names[..m - 1]), IndexBytes(name, g.records), Title(g), |g.records|);
      GroupPlaced(PlaceFiles(f.index, names[..m - 1]), name, gs, next, m - 1);
    }
  }

  lemma NothingPlaced(index: map<string, seq<byte>>, gs: seq<Group>)
    ensures PlacedUpTo(PlaceFiles(index, []), gs, 0)
  {
  }

  lemma PlaceLastFile(index: map<string, seq<byte>>, names: seq<string>)
    requires names != []
    ensures var last := names[|names| - 1];
      PlaceFiles(index, names) == PlaceEntries(PlaceFiles(index, names[..|names| - 1]), Mapped(Content(index, last)), last,
                                               Entries(Content(index, last)))
  {
    hide Mapped, Entries;
  }

  lemma StorableIndex(name: seq<byte>, g: Group, j: nat)
    requires SoundGroup(name, g) && j < |g.records|
    ensures IsInt(g.records[j].index) && g.records[j].index <= Last(g)
  {
    hide DataBytes;
  }

  lemma KeysAreTitles(log: Log, name: seq<byte>, gs: seq<Group>, next: int)
    requires Represents(log, name, gs, next)
    ensures log.files.index.Keys == Titles(gs) && SoundGroups(name, gs, next)
  {
    hide SoundGroup, MemoryMatches, Titles, GroupFiles;
  }

  function TitleList(gs: seq<Group>): (ts: seq<string>)
    ensures |ts| == |gs| && forall i :: 0 <= i < |gs| ==> ts[i] == Title(gs[i])
  {
    seq(|gs|, i requires 0 <= i < |gs| => Title(gs[i]))
  }

  lemma TitlesListed(gs: seq<Group>)
    requires forall i, j :: 0 <= i < j < |gs| ==> Less(Title(gs[i]), Title(gs[j]))
    ensures Ascending(TitleList(gs)) && forall t :: t in TitleList(gs) <==> t in Titles(gs)
  {
    hide Title, Less, TitleList;
    forall t | t in Titles(gs)
      ensures t in TitleList(gs)
    {
      var i :| 0 <= i < |gs| && Title(gs[i]) == t;
      assert TitleList(gs)[i] == t;
    }
  }

  lemma NamesMember(names: seq<string>, keys: set<string>)
    requires Lists(names, keys)
    ensures Ascending(names) && forall t :: t in names <==> t in keys
  {
  }

  lemma SortedNamesAreTitles(log: Log, name: seq<byte>, gs: seq<Group>, next: int, names: seq<string>)
    requires Represents(log, name, gs, next) && Lists(names, log.files.index.Keys)
    ensures |names| == |gs| && forall i :: 0 <= i < |gs| ==> names[i] == Title(gs[i])
  {
    hide Represents, SoundGroups, Title, Titles, Lists, Less, TitleList, Ascending;
    KeysAreTitles(log, name, gs, next);
    TitlesAscend(name, gs, next);
    TitlesListed(gs);
    NamesMember(names, log.files.index.Keys);
    ListingIsUnique(TitleList(gs), names);
  }

  /** The index files of a sound log can be listed. */
  lemma SomeListing(log: Log, name: seq<byte>, gs: seq<Group>, next: int) returns (names: seq<string>)
    requires Represents(log, name, gs, next)
    ensures Lists(names, log.files.index.Keys)
  {
    hide Represents, SoundGroups, Title, Titles, Less, TitleList, Ascending;
    KeysAreTitles(log, name, gs, next);
    TitlesAscend(name, gs, next);
    TitlesListed(gs);
    names := TitleList(gs);
  }

  lemma PlacedBelow(places: map<int, string>, name: seq<byte>, gs: seq<Group>, next: int)
    requires SoundGroups(name, gs, next) && PlacedUpTo(places, gs, |gs|)
    ensures forall i :: i in places ==> i < next
  {
    hide SoundGroup, Title, HasIndex;
    forall i | i in places
      ensures i < next
    {
      var k :| 0 <= k < |gs| && HasIndex(gs[k].records, i);
      IndexBelow(name, gs[k], i);
    }
  }

  lemma IndexBelow(name: seq<byte>, g: Group, i: int)
    requires SoundGroup(name, g) && HasIndex(g.records, i)
    ensures i <= Last(g)
  {
    hide SoundGroup;
    var j :| 0 <= j < |g.records| && g.records[j].index == i;
    StorableIndex(name, g, j);
  }

  lemma MemoryRebuilt(log: Log, gs: seq<Group>)
    requires PlacedUpTo(log.places, gs, |gs|) && log.tail.None?
    requires |log.groups| == |gs| && forall i :: 0 <= i < |gs| ==> log.groups[i] == Title(gs[i])
    ensures MemoryMatches(log, gs)
  {
    hide Title, HasIndex;
  }

  lemma Parts(log: Log, name: seq<byte>, gs: seq<Group>, next: int)
    requires Represents(log, name, gs, next)
    ensures SoundGroups(name, gs, next) && FilesMatch(name, log.files, gs, next) && MemoryMatches(log, gs)
  {
    hide SoundGroups, FilesMatch, MemoryMatches;
  }

  /** What is rebuilt at start agrees with what was kept before, on every
      group that is still there. */
  lemma RestartKeeps(log: Log, name: seq<byte>, gs: seq<Group>, next: int, names: seq<string>)
    requires Represents(log, name, gs, next) && Lists(names, log.files.index.Keys)
    ensures Represents(Restart(log, names), name, gs, next)
    ensures Restart(log, names).groups == log.groups
  {
    hide Represents, SoundGroups, FilesMatch, Lists, PlacedUpTo, PlaceFiles, Title;
    Parts(log, name, gs, next);
    SortedNamesAreTitles(log, name, gs, next, names);
    assert |gs| == |log.groups| && names == log.groups by {
      assert forall i :: 0 <= i < |gs| ==> names[i] == log.groups[i];
    }
    hide MemoryMatches;
    FilesPlaced(log.files, name, gs, next, names, |gs|);
    assert names[..|gs|] == names;
    var log' := Restart(log, names);
    PlacedBelow(log'.places, name, gs, next);
    MemoryRebuilt(log', gs);
    Whole(log', name, gs, next);
  }

  lemma Whole(log: Log, name: seq<byte>, gs: seq<Group>, next: int)
    requires SoundGroups(name, gs, next) && FilesMatch(name, log.files, gs, next) && MemoryMatches(log, gs)
    requires forall i :: i in log.places ==> i < next
    ensures Represents(log, name, gs, next)
  {
    hide SoundGroups, FilesMatch, MemoryMatches;
  }
}
