/** The persistence server: the maps it keeps per queue, the queue directories
    on disk, and the handlers that write and consume durable messages. */
module PersistenceServers {
  import opened Bytes
  import opened CommonDefs
  import opened Records
  import opened FileNames
  import opened DurableLog

  const RET_SUCCESS := 0
  const RET_ERROR := -1

  type QueueName = seq<byte>

  class PersistenceServer {
    var tailFile: map<QueueName, string>
    var indexFile: map<QueueName, map<int, string>>
    var fileList: map<QueueName, seq<string>>
    /** The queue directories that exist. */
    var disk: map<QueueName, Files>

    /** The log of one queue, as this server and its directory make it up. */
    function LogOf(q: QueueName): Log
      reads this
      requires q in disk
    {
      Log(disk[q],
          if q in tailFile then Some(tailFile[q]) else None,
          if q in indexFile then indexFile[q] else map[],
          if q in fileList then fileList[q] else [])
    }

    /** A server started on the directories it finds; `listings` are the
        sorted names of the index files of each directory. */
    constructor (found: map<QueueName, Files>, listings: map<QueueName, seq<string>>)
      requires found.Keys <= listings.Keys
      requires forall q :: q in found ==> Lists(listings[q], found[q].index.Keys)
      ensures disk == found
      ensures forall q :: q in found ==> LogOf(q) == Restart(Log(found[q], None, map[], []), listings[q])
    {
      disk := found;
      tailFile, indexFile, fileList := map[], map[], map[];
      new;
      InitFileInfo(listings);
    }

    method InitFileInfo(listings: map<QueueName, seq<string>>)
      requires disk.Keys <= listings.Keys
      requires tailFile == map[] && indexFile == map[] && fileList == map[]
      requires forall q :: q in disk ==> Lists(listings[q], disk[q].index.Keys)
      modifies this`indexFile, this`fileList
      ensures tailFile == map[]
      ensures forall q :: q in disk ==> LogOf(q) == Restart(Log(disk[q], None, map[], []), listings[q])
    {
      hide Lists, PlaceFiles, PlaceEntries;
      var todo := disk.Keys;
      while todo != {}
        invariant todo <= disk.Keys
        invariant forall q :: q in todo ==> q !in indexFile && q !in fileList
        invariant forall q :: q in disk && q !in todo ==>
          LogOf(q) == Restart(Log(disk[q], None, map[], []), listings[q])
      {
        var q :| q in todo;
        todo := todo - {q};
        InitQueue(q, listings[q]);
      }
    }

    /** The inner loop of InitFileInfo. */
    method InitQueue(q: QueueName, names: seq<string>)
      requires q in disk && q !in tailFile && q !in indexFile && q !in fileList
      requires Lists(names, disk[q].index.Keys)
      modifies this`indexFile, this`fileList
      ensures LogOf(q) == Restart(Log(disk[q], None, map[], []), names)
      ensures forall p :: p != q ==> (p in indexFile <==> p in old(indexFile)) && (p in fileList <==> p in old(fileList))
      ensures forall p :: p != q && p in indexFile ==> indexFile[p] == old(indexFile)[p]
      ensures forall p :: p != q && p in fileList ==> fileList[p] == old(fileList)[p]
    {
      hide PlaceFiles, PlaceEntries, Lists;
      NamesAreKeys(names, disk[q].index.Keys);
      PlaceNone(disk[q].index);
      var i := 0;
      while i < |names|
        invariant 0 <= i <= |names|
        invariant LogOf(q).places == PlaceFiles(disk[q].index, names[..i]) && LogOf(q).groups == names[..i]
        invariant forall p :: p != q ==> (p in indexFile <==> p in old(indexFile)) && (p in fileList <==> p in old(fileList))
        invariant forall p :: p != q && p in indexFile ==> indexFile[p] == old(indexFile)[p]
        invariant forall p :: p != q && p in fileList ==> fileList[p] == old(fileList)[p]
      {
        assert names[..i + 1][..i] == names[..i];
        PlaceLastFile(disk[q].index, names[..i + 1]);
        ProcessIndexFile(q, names[i]);
        fileList := fileList[q := (if q in fileList then fileList[q] else []) + [names[i]]];
        i := i + 1;
      }
      assert names[..|names|] == names;
    }

    method ProcessIndexFile(q: QueueName, name: string)
      requires q in disk && name in disk[q].index
      modifies this`indexFile
      ensures var file := disk[q].index[name];
        LogOf(q).places == PlaceEntries(old(LogOf(q).places), Mapped(file), name, Entries(file))
      ensures forall p :: p != q ==> (p in indexFile <==> p in old(indexFile))
      ensures forall p :: p != q && p in indexFile ==> indexFile[p] == old(indexFile)[p]
    {
      hide EntryAt, Mapped, Entries;
      var size, file, pos := |disk[q].index[name]|, Mapped(disk[q].index[name]), 0;
      ghost var k := 0;
      while pos < size
        invariant pos == ENTRY_SIZE * k && k <= Entries(disk[q].index[name])
        invariant LogOf(q).places == PlaceEntries(old(LogOf(q).places), file, name, k)
        invariant forall p :: p != q ==> (p in indexFile <==> p in old(indexFile))
        invariant forall p :: p != q && p in indexFile ==> indexFile[p] == old(indexFile)[p]
      {
        EntryNumber(pos, k);
        var (index, _) := EntryAt(file, pos / ENTRY_SIZE);
        var places := if q in indexFile then indexFile[q] else map[];
        if index !in places {
          indexFile := indexFile[q := places[index := name]];
        }
        pos, k := pos + ENTRY_SIZE, k + 1;
      }
    }

    /** Nothing changes for the other queues. */
    twostate predicate OnlyChanges(q: QueueName)
      reads this
    {
      && disk.Keys == old(disk.Keys)
      && forall p :: p in disk && p != q ==> LogOf(p) == old(LogOf(p))
    }

    method OnPublishMessage(packet: seq<byte>, q: QueueName, durableIndex: int) returns (ret: int)
      requires q in disk ==> TailOnDisk(LogOf(q))
      modifies this
      ensures ret == if q in old(disk) then RET_SUCCESS else RET_ERROR
      ensures OnlyChanges(q)
      ensures q in disk ==> LogOf(q) == Publish(old(LogOf(q)), packet, durableIndex)
    {
      hide GroupName, EncodeInt;
      if q !in disk {
        return RET_ERROR;
      }
      var name, needCreate, writePos := "", false, 0;
      if q !in tailFile {
        needCreate := true;
      } else {
        name := tailFile[q];
        var size := |disk[q].data[name]|;
        if size + |packet| > DURABLE_MESSAGE_FILE_SIZE {
          needCreate := true;
        } else {
          writePos := size;
        }
      }
      var places := if q in indexFile then indexFile[q] else map[];
      if needCreate {
        name := GroupName(durableIndex);
        tailFile := tailFile[q := name];
        indexFile := indexFile[q := if durableIndex in places then places else places[durableIndex := name]];
        fileList := fileList[q := (if q in fileList then fileList[q] else []) + [name]];
      } else {
        indexFile := indexFile[q := if durableIndex in places then places else places[durableIndex := name]];
      }
      var f := disk[q];
      var dataFile, indexBytes := Content(f.data, name) + packet, Content(f.index, name) + Entry(durableIndex, writePos);
      disk := disk[q := f.(data := f.data[name := dataFile], index := f.index[name := indexBytes],
                           offset := EncodeInt(durableIndex))];
      ret := RET_SUCCESS;
    }

    method OnConsumeMessage(q: QueueName, index: int) returns (ret: int)
      modifies this
      ensures ret == RET_SUCCESS <==>
        q in old(disk) && index in old(LogOf(q)).places && old(LogOf(q)).places[index] in old(disk[q]).index
      ensures ret == RET_SUCCESS || ret == RET_ERROR
      ensures OnlyChanges(q)
      ensures q in disk ==> LogOf(q) == Consume(old(LogOf(q)), index)
    {
      if q !in disk || q !in indexFile || index !in indexFile[q] {
        return RET_ERROR;
      }
      hide Entry, GroupName, EncodeInt;
      var f, name := disk[q], indexFile[q][index];
      var consumed := Content(f.consume, name) + EncodeInt(index);
      f := f.(consume := f.consume[name := consumed]);
      disk := disk[q := f];
      if name !in f.index {
        return RET_ERROR;
      }
      assert old(disk[q].consume)[name := consumed] - {name} == old(disk[q].consume) - {name};
      var consumeNum, msgNum := |consumed| / 4, |f.index[name]| / ENTRY_SIZE;
      if consumeNum == msgNum {
        RemoveGroup(q, name);
      }
      ret := RET_SUCCESS;
    }

    /** Deletes the three files of a group and forgets the group. */
    method RemoveGroup(q: QueueName, name: string)
      requires q in disk
      modifies this
      ensures indexFile == old(indexFile)
      ensures disk == old(disk)[q := RemoveFiles(old(disk)[q], name)]
      ensures tailFile == if q in old(tailFile) && old(tailFile)[q] == name then old(tailFile) - {q} else old(tailFile)
      ensures fileList ==
        if q in old(fileList) then old(fileList)[q := Drop(old(fileList)[q], name)] else old(fileList)
    {
      var f := disk[q];
      disk := disk[q := f.(data := f.data - {name}, index := f.index - {name}, consume := f.consume - {name})];
      if q in tailFile && tailFile[q] == name {
        tailFile := tailFile - {q};
      }
      if q in fileList {
        var list := EraseAll(fileList[q], name);
        fileList := fileList[q := list];
      }
    }

    /** The loop that removes a group from the list of groups. */
    method EraseAll(list: seq<string>, name: string) returns (kept: seq<string>)
      ensures kept == Drop(list, name)
    {
      kept := [];
      var i := 0;
      while i < |list|
        invariant 0 <= i <= |list|
        invariant kept + Drop(list[i..], name) == Drop(list, name)
      {
        assert list[i..][1..] == list[i + 1..];
        if list[i] != name {
          kept := kept + [list[i]];
        }
        i := i + 1;
      }
      assert list[i..] == [];
    }
  }

  lemma NamesAreKeys(names: seq<string>, keys: set<string>)
    requires Lists(names, keys)
    ensures forall i :: 0 <= i < |names| ==> names[i] in keys
  {
  }

  lemma PlaceNone(index: map<string, seq<byte>>)
    ensures PlaceFiles(index, []) == map[]
  {
  }
}
