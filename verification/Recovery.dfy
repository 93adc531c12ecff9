/** Recovery of a queue from its files, and the main result about the log: in
    every legal run, recovery rebuilds what was published and not consumed. */
module Recovery {
  import opened Bytes
  import opened CommonDefs
  import opened Records
  import opened FileNames
  import opened DurableLog

  /** The indices in a consume file. */
  function ConsumedIn(file: seq<byte>): set<int> {
    set k | 0 <= k < Numbers(file) :: IndexAt(Mapped(file), k)
  }

  /** ProcessDurableMsgFile for one group: nothing when a file is missing or
      empty, else the records of the index file that are not consumed. */
  function ReplayGroup(f: Files, name: string): (out: seq<Record>) {
    if name !in f.index || f.index[name] == [] || name !in f.data || f.data[name] == [] then []
    else
      Replay(Mapped(f.data[name]), Mapped(f.index[name]), ConsumedIn(Content(f.consume, name)),
             Entries(f.index[name]))
  }

  /** OnInitMsg for the directory of one queue, groups in sorted order. */
  function Recover(f: Files, names: seq<string>): (out: seq<Record>) {
    if names == [] then []
    else Recover(f, names[..|names| - 1]) + ReplayGroup(f, names[|names| - 1])
  }

  /** The next durable index a restarted broker uses, if it finds one. */
  function NextIndex(f: Files): Option<int> {
    if |f.offset| != 4 then None else Some(DecodeInt(f.offset) + 1)
  }

  lemma ConsumedInIsGone(g: Group)
    requires forall k :: 0 <= k < |g.consumed| ==> IsInt(g.consumed[k])
    ensures ConsumedIn(ConsumeBytes(g.consumed)) == Gone(g)
  {
    hide ConsumeBytes, IndexAt, Mapped;
    var file := ConsumeBytes(g.consumed);
    forall k | 0 <= k < |g.consumed|
      ensures 4 * (k + 1) <= |Mapped(file)| && IndexAt(Mapped(file), k) == g.consumed[k]
    {
      ConsumedAt(g.consumed, k);
      MappedIndex(file, k);
    }
    assert Numbers(file) == |g.consumed|;
    forall i | i in Gone(g)
      ensures i in ConsumedIn(file)
    {
      var k :| 0 <= k < |g.consumed| && g.consumed[k] == i;
      assert IndexAt(Mapped(file), k) == i;
    }
    forall i | i in ConsumedIn(file)
      ensures i in Gone(g)
    {
      var k :| 0 <= k < |g.consumed| && IndexAt(Mapped(file), k) == i;
    }
  }

  lemma ConsumedAreInts(name: seq<byte>, g: Group)
    requires SoundGroup(name, g)
    ensures forall k :: 0 <= k < |g.consumed| ==> IsInt(g.consumed[k])
    ensures DataBytes(name, g.records) != [] && IndexBytes(name, g.records) != []
    ensures |name| < MAX_NAME_LENGTH && |DataBytes(name, g.records)| <= DURABLE_MESSAGE_FILE_SIZE
    ensures forall k :: 0 <= k < |g.records| ==> Storable(name, g.records[k])
  {
    hide Encode, Storable, EncodeInt;
    assert Storable(name, g.records[0]);
    StorableInts(name, g.records);
    forall k | 0 <= k < |g.consumed|
      ensures IsInt(g.consumed[k])
    {
      assert HasIndex(g.records, g.consumed[k]);
    }
    assert |Encode(name, g.records[|g.records| - 1])| > 0;
  }

  lemma StorableInts(name: seq<byte>, rs: seq<Record>)
    requires forall k :: 0 <= k < |rs| ==> Storable(name, rs[k])
    ensures forall k :: 0 <= k < |rs| ==> IsInt(rs[k].index)
  {
  }

  lemma FilesOfGroup(name: seq<byte>, f: Files, g: Group)
    requires |name| < MAX_NAME_LENGTH && GroupFiles(name, f, g)
    requires DataBytes(name, g.records) != [] && IndexBytes(name, g.records) != []
    ensures ENTRY_SIZE * |g.records| <= |Mapped(IndexBytes(name, g.records))|
    ensures ReplayGroup(f, Title(g)) == Replay(Mapped(DataBytes(name, g.records)), Mapped(IndexBytes(name, g.records)),
                                               ConsumedIn(ConsumeBytes(g.consumed)), |g.records|)
  {
    hide DataBytes, IndexBytes, ConsumeBytes, Title, Replay, ConsumedIn, Mapped;
  }

  lemma GroupReplays(name: seq<byte>, f: Files, g: Group)
    requires SoundGroup(name, g) && GroupFiles(name, f, g)
    ensures ReplayGroup(f, Title(g)) == CutAll(Remaining(g.records, Gone(g)))
  {
    ConsumedAreInts(name, g);
    hide SoundGroup, GroupFiles, Title, Remaining, Replay, Gone, ConsumeBytes, DataBytes, IndexBytes, CutAll, Storable;
    hide ReplayGroup, ConsumedIn, Mapped;
    ConsumedInIsGone(g);
    FilesOfGroup(name, f, g);
    PositionsFit(name, g.records);
    ReplayRestores(name, g.records, Gone(g), |g.records|);
    assert g.records[..|g.records|] == g.records;
  }

  lemma CutAllConcat(a: seq<Record>, b: seq<Record>)
    ensures CutAll(a + b) == CutAll(a) + CutAll(b)
  {
  }

  lemma {:induction false} GroupsReplay(name: seq<byte>, f: Files, gs: seq<Group>, names: seq<string>, m: nat)
    requires |name| < MAX_NAME_LENGTH && m <= |gs| == |names|
    requires forall i :: 0 <= i < |gs| ==> SoundGroup(name, gs[i]) && GroupFiles(name, f, gs[i])
    requires forall i :: 0 <= i < |gs| ==> names[i] == Title(gs[i])
    ensures Recover(f, names[..m]) == CutAll(Outstanding(gs[..m]))
  {
    hide SoundGroup, GroupFiles, Title, Remaining, Gone, ReplayGroup, CutAll;
    if m == 0 {
      assert CutAll([]) == [];
    } else {
      GroupsReplay(name, f, gs, names, m - 1);
      GroupReplays(name, f, gs[m - 1]);
      assert names[..m][..m - 1] == names[..m - 1] && gs[..m][..m - 1] == gs[..m - 1];
      CutAllConcat(Outstanding(gs[..m - 1]), Remaining(gs[m - 1].records, Gone(gs[m - 1])));
    }
  }

  /** Replaying a sound log gives its outstanding records, in order. */
  lemma RecoverRestores(log: Log, name: seq<byte>, gs: seq<Group>, next: int, names: seq<string>)
    requires Represents(log, name, gs, next) && Lists(names, log.files.index.Keys)
    ensures Recover(log.files, names) == CutAll(Outstanding(gs))
    ensures NextIndex(log.files) == if next == 0 then None else Some(next)
  {
    hide SoundGroup, GroupFiles, Title, Titles, MemoryMatches, Recover, Outstanding, EncodeInt, DecodeInt;
    SortedNamesAreTitles(log, name, gs, next, names);
    GroupsReplay(name, log.files, gs, names, |gs|);
    assert names[..|gs|] == names && gs[..|gs|] == gs;
    if next > 0 {
      IntRoundTrip(next - 1);
    }
  }

  // -------------------------------------------------------------- runs

  /** What happens to the log of a queue: a record arrives, an index is
      consumed, the persistence server is restarted. */
  datatype Event = Write(r: Record) | Eat(i: int) | Reboot(names: seq<string>)

  /** The log together with everything ever published and consumed. */
  datatype History = History(log: Log, published: seq<Record>, eaten: set<int>, next: int)

  function Step(name: seq<byte>, h: History, e: Event): History
    requires |name| < MAX_NAME_LENGTH
  {
    match e
    case Write(r) =>
      History(Publish(h.log, Encode(name, r), r.index), h.published + [r], h.eaten, r.index + 1)
    case Eat(i) => h.(log := Consume(h.log, i), eaten := h.eaten + {i})
    case Reboot(names) => h.(log := Restart(h.log, names))
  }

  function After(name: seq<byte>, events: seq<Event>): History
    requires |name| < MAX_NAME_LENGTH
  {
    if events == [] then History(EMPTY_LOG, [], {}, 0)
    else Step(name, After(name, events[..|events| - 1]), events[|events| - 1])
  }

  /** Indices grow, a consumed index is outstanding, and a restart sees the
      directory as it is. */
  ghost predicate Allowed(name: seq<byte>, h: History, e: Event) {
    match e
    case Write(r) => Storable(name, r) && h.next <= r.index
    case Eat(i) => HasIndex(h.published, i) && i !in h.eaten
    case Reboot(names) => Lists(names, h.log.files.index.Keys)
  }

  ghost predicate Legal(name: seq<byte>, events: seq<Event>)
    requires |name| < MAX_NAME_LENGTH
  {
    events == [] ||
    (var prev := events[..|events| - 1];
     Legal(name, prev) && Allowed(name, After(name, prev), events[|events| - 1]))
  }

  lemma EmptyLogIsSound(name: seq<byte>)
    requires |name| < MAX_NAME_LENGTH && 0 !in name
    ensures Represents(EMPTY_LOG, name, [], 0) && Outstanding([]) == []
  {
  }

  lemma {:induction false} HasIndexRemains(rs: seq<Record>, gone: set<int>, i: int)
    requires HasIndex(rs, i) && i !in gone
    ensures HasIndex(Remaining(rs, gone), i)
  {
    var k :| 0 <= k < |rs| && rs[k].index == i;
    var front, last := rs[..|rs| - 1], rs[|rs| - 1];
    var out := Remaining(rs, gone);
    if k == |rs| - 1 {
      assert out[|out| - 1].index == i;
    } else {
      assert front[k].index == i;
      HasIndexRemains(front, gone, i);
      var j :| 0 <= j < |Remaining(front, gone)| && Remaining(front, gone)[j].index == i;
      assert out[j].index == i;
    }
  }

  /** The groups account for everything published and consumed. */
  ghost predicate Accurate(name: seq<byte>, h: History, gs: seq<Group>) {
    && Represents(h.log, name, gs, h.next)
    && Outstanding(gs) == Remaining(h.published, h.eaten)
    && (forall k :: 0 <= k < |h.published| ==> Storable(name, h.published[k]) && h.published[k].index < h.next)
    && (forall i :: i in h.eaten ==> i < h.next)
    && (h.published != [] ==> h.next == h.published[|h.published| - 1].index + 1)
  }

  lemma WriteAccurate(name: seq<byte>, h: History, gs: seq<Group>, r: Record) returns (gs': seq<Group>)
    requires |name| < MAX_NAME_LENGTH && Accurate(name, h, gs) && Storable(name, r) && h.next <= r.index
    ensures Accurate(name, Step(name, h, Write(r)), gs')
  {
    hide Represents, Outstanding, Remaining, Publish, Storable, Encode;
    WriteKeeps(h.log, name, gs, h.next, r);
    gs' := Written(h.log, name, gs, r);
    RemainingAppend(h.published, r, h.eaten);
  }

  lemma EatAccurate(name: seq<byte>, h: History, gs: seq<Group>, i: int) returns (gs': seq<Group>)
    requires |name| < MAX_NAME_LENGTH && Accurate(name, h, gs) && HasIndex(h.published, i) && i !in h.eaten
    ensures Accurate(name, Step(name, h, Eat(i)), gs')
  {
    hide Represents, Outstanding, Remaining, Consume, Storable;
    HasIndexRemains(h.published, h.eaten, i);
    var k := ConsumeKeeps(h.log, name, gs, h.next, i);
    gs' := Consumed(gs, k, i);
    RemainingTwice(h.published, h.eaten, {i});
  }

  lemma RebootAccurate(name: seq<byte>, h: History, gs: seq<Group>, names: seq<string>)
    requires |name| < MAX_NAME_LENGTH && Accurate(name, h, gs) && Lists(names, h.log.files.index.Keys)
    ensures Accurate(name, Step(name, h, Reboot(names)), gs)
  {
    hide Represents, Outstanding, Remaining, Restart, Storable;
    RestartKeeps(h.log, name, gs, h.next, names);
  }

  /** In every legal run the log is sound and its outstanding records are the
      published ones that were not consumed. */
  lemma {:induction false} RunIsSound(name: seq<byte>, events: seq<Event>) returns (gs: seq<Group>)
    requires |name| < MAX_NAME_LENGTH && 0 !in name && Legal(name, events)
    ensures Accurate(name, After(name, events), gs)
  {
    if events == [] {
      gs := [];
      EmptyLogIsSound(name);
      RemainingEverything([], {});
    } else {
      hide Accurate, Step;
      var prev, e := events[..|events| - 1], events[|events| - 1];
      var h := After(name, prev);
      gs := RunIsSound(name, prev);
      match e
      case Write(r) => gs := WriteAccurate(name, h, gs, r);
      case Eat(i) => gs := EatAccurate(name, h, gs, i);
      case Reboot(names) => RebootAccurate(name, h, gs, names);
    }
  }

  /** Recovery equals published minus consumed: for every legal run, replaying
      the sorted groups gives exactly the records that were published and not
      consumed, in index order, priorities intact, each body up to its first
      NUL; and the next index is one above the last one published, even when
      the last group is gone. */
  lemma RecoveryIsPublishedMinusConsumed(name: seq<byte>, events: seq<Event>, names: seq<string>)
    requires |name| < MAX_NAME_LENGTH && 0 !in name && Legal(name, events)
    requires Lists(names, After(name, events).log.files.index.Keys)
    ensures var h := After(name, events);
      && Recover(h.log.files, names) == CutAll(Remaining(h.published, h.eaten))
      && (h.published != [] ==> NextIndex(h.log.files) == Some(h.published[|h.published| - 1].index + 1))
      && NextIndex(h.log.files) == (if h.next == 0 then None else Some(h.next))
  {
    hide Represents, Recover, Remaining, Storable, CutAll, NextIndex, Lists;
    var gs := RunIsSound(name, events);
    var h := After(name, events);
    RecoverRestores(h.log, name, gs, h.next, names);
    if h.published != [] {
      LastIndexIsNatural(name, h.published[|h.published| - 1]);
    }
  }

  /** After any legal run the directory can be listed, so that it can be
      recovered. */
  lemma CanBeListed(name: seq<byte>, events: seq<Event>) returns (names: seq<string>)
    requires |name| < MAX_NAME_LENGTH && 0 !in name && Legal(name, events)
    ensures Lists(names, After(name, events).log.files.index.Keys)
  {
    hide Represents, Outstanding, Remaining, Storable, Lists;
    var gs := RunIsSound(name, events);
    var h := After(name, events);
    names := SomeListing(h.log, name, gs, h.next);
  }

  lemma LastIndexIsNatural(name: seq<byte>, r: Record)
    requires Storable(name, r)
    ensures 0 <= r.index
  {
  }

  /** Bodies come back whole exactly when they hold no NUL byte. */
  lemma BodiesSurviveWithoutNul(rs: seq<Record>)
    ensures CutAll(rs) == rs <==> forall k :: 0 <= k < |rs| ==> 0 !in rs[k].body
  {
    hide Cut;
    forall k | 0 <= k < |rs|
      ensures Cut(rs[k]) == rs[k] <==> 0 !in rs[k].body
    {
      CutIsIdentity(rs[k]);
    }
    if CutAll(rs) == rs {
      assert forall k :: 0 <= k < |rs| ==> CutAll(rs)[k] == rs[k];
    }
  }

  // ------------------------------------------------ the recovery loops

  const RET_SUCCESS := 0
  const RET_ERROR := -1
  const ERR_QUEUE_NOT_EXIST := -712

  /** Records that are not consumed are read inside the mapping of the data file;
      outside of it the source has no memory to read. */
  predicate WellFormed(data: seq<byte>, index: seq<byte>, gone: set<int>) {
    forall k :: 0 <= k < Entries(index) && EntryAt(Mapped(index), k).0 !in gone ==>
      Readable(Mapped(data), EntryAt(Mapped(index), k).1)
  }

  method ReadConsumed(consume: seq<byte>) returns (gone: set<int>)
    ensures gone == ConsumedIn(consume)
  {
    hide IndexAt, Mapped, Numbers;
    gone := {};
    var mapped, pos := Mapped(consume), 0;
    ghost var k := 0;
    while pos < |consume|
      invariant pos == 4 * k && k <= Numbers(consume)
      invariant gone == set j | 0 <= j < k :: IndexAt(mapped, j)
    {
      assert pos / 4 == k;
      gone := gone + {IndexAt(mapped, pos / 4)};
      pos, k := pos + 4, k + 1;
    }
  }

  /** The k-th entry is consumed, or its record is of a registered queue. */
  predicate Accepted(data: seq<byte>, index: seq<byte>, gone: set<int>, registered: set<seq<byte>>, k: nat)
    requires ENTRY_SIZE * (k + 1) <= |index|
  {
    var (i, pos) := EntryAt(index, k);
    i in gone || (Readable(data, pos) && ReadAt(data, pos).0 in registered)
  }

  /** ProcessDurableMsgFile: the messages it adds to the queue of each record,
      which has to be registered; stop is the entry at which it gives up. */
  method ProcessDurableMsgFile(f: Files, name: string, registered: set<seq<byte>>)
    returns (ret: int, found: seq<Record>, ghost stop: nat)
    requires WellFormed(Content(f.data, name), Content(f.index, name), ConsumedIn(Content(f.consume, name)))
    ensures ret != ERR_QUEUE_NOT_EXIST ==> found == ReplayGroup(f, name)
    ensures var gone, n := ConsumedIn(Content(f.consume, name)), Entries(Content(f.index, name));
      var data, index := Mapped(Content(f.data, name)), Mapped(Content(f.index, name));
      && (ret == ERR_QUEUE_NOT_EXIST ==>
            stop < n && found == Replay(data, index, gone, stop) && !Accepted(data, index, gone, registered, stop))
      && stop <= n
      && (ret != RET_ERROR ==> forall k :: 0 <= k < stop ==> Accepted(data, index, gone, registered, k))
      && (ret == RET_SUCCESS ==> stop == n)
    ensures ret == RET_ERROR <==> Content(f.index, name) == [] || Content(f.data, name) == []
    ensures ret == RET_ERROR || ret == RET_SUCCESS || ret == ERR_QUEUE_NOT_EXIST
  {
    hide ReadAt, Readable, EntryAt, ConsumedIn, Mapped, Entries;
    found, stop := [], 0;
    if name !in f.index || f.index[name] == [] || name !in f.data || f.data[name] == [] {
      return RET_ERROR, [], 0;
    }
    var size, index, data := |f.index[name]|, Mapped(f.index[name]), Mapped(f.data[name]);
    var consumeIndexSet := {};
    if name in f.consume && f.consume[name] != [] {
      consumeIndexSet := ReadConsumed(f.consume[name]);
    } else {
      NothingConsumed();
    }
    var pos := 0;
    while pos < size
      invariant pos == ENTRY_SIZE * stop && stop <= Entries(f.index[name])
      invariant found == Replay(data, index, consumeIndexSet, stop)
      invariant forall k :: 0 <= k < stop ==> Accepted(data, index, consumeIndexSet, registered, k)
    {
      EntryNumber(pos, stop);
      var (i, dataPos) := EntryAt(index, pos / ENTRY_SIZE);
      pos := pos + ENTRY_SIZE;
      if i in consumeIndexSet {
        assert found + [] == found;
        stop := stop + 1;
        continue;
      }
      var (queueName, r) := ReadAt(data, dataPos);
      if queueName !in registered {
        return ERR_QUEUE_NOT_EXIST, found, stop;
      }
      found, stop := found + [r], stop + 1;
    }
    ret := RET_SUCCESS;
  }

  lemma NothingConsumed()
    ensures ConsumedIn([]) == {}
  {
  }
}
