/** ShmQueue as one process runs it: the queue head in shared memory, the byte
    array behind it, and the two operations with their split copies. */
module ShmQueues {
  import opened Bytes
  import opened Ring
  import opened Resync

  class ShmQueue {
    // the shared QueueHead
    var len: int
    var head: int
    var tail: int
    var blockNum: int
    var usedNum: int
    // the memory behind it
    const mem: array<byte>

    // abstraction: the blocks held, oldest first, and the index that the
    // oldest one carries
    ghost var contents: seq<seq<byte>>
    ghost var stored: int

    ghost function State(): RingState
      reads this, mem
      requires len >= 0 && head >= 0 && tail >= 0
    {
      RingState(len, head, tail, blockNum, mem[..])
    }

    /** The ring holds exactly `contents`; nobody is inside an operation. The
        oldest block may carry a wrong index. */
    ghost predicate Valid()
      reads this, mem
    {
      && len >= 0 && head >= 0 && tail >= 0
      && usedNum == 0
      && Holds(State(), stored, contents)
    }

    /** Valid, and the oldest block carries its own offset. */
    ghost predicate Undamaged()
      reads this, mem
    {
      Valid() && (contents != [] ==> stored == head)
    }

    /** Init, when the shared memory did not exist before. */
    constructor (queueSize: int)
      requires 0 <= queueSize <= INT_MAX
      ensures Undamaged() && contents == [] && len == queueSize
      ensures fresh(mem)
    {
      mem := new byte[queueSize](_ => 0);
      len, head, tail, blockNum, usedNum := queueSize, 0, 0, 0, 0;
      contents, stored := [], 0;
    }

    /** CAS32 on m_iUsedNum. */
    method CompareAndSwapUsed(expected: int, desired: int) returns (swapped: bool)
      modifies this`usedNum
      ensures swapped == (old(usedNum) == expected)
      ensures usedNum == if swapped then desired else old(usedNum)
    {
      swapped := usedNum == expected;
      if swapped {
        usedNum := desired;
      }
    }

    /** memcpy(m_pMemAddr + at, bytes, |bytes|). */
    method CopyIn(at: int, bytes: seq<byte>)
      requires 0 <= at && at + |bytes| <= mem.Length
      modifies mem
      ensures mem[..] == Splice(old(mem[..]), at, bytes)
    {
      forall k | 0 <= k < |bytes| {
        mem[at + k] := bytes[k];
      }
    }

    /** One of the three copies of the wrapping branch of Enqueue: `room` is
        tailRightSpace, `at` is saveIndex, `rest` is what this copy and the
        later ones still have to store. */
    method CopyPiece(at: int, room: int, bytes: seq<byte>, ghost rest: int) returns (next: int, left: int)
      requires 0 <= at < len == mem.Length && 0 <= head < len && 0 <= room
      requires |bytes| <= rest <= len
      requires at + room == len || (at == 0 && room == 0) || (at + room == head && at + rest <= head)
      requires at + room == len ==> at + rest <= len + head
      requires at == 0 && room == 0 ==> rest <= head
      modifies mem
      ensures mem[..] == Write(old(mem[..]), at, bytes)
      ensures next == Wrap(at + |bytes|, len) && 0 <= left
      ensures next + left == len || (next == 0 && left == 0) || (next + left == head && next + rest - |bytes| <= head)
      ensures next + left == len ==> next + rest - |bytes| <= len + head
      ensures next == 0 && left == 0 ==> rest - |bytes| <= head
    {
      if room >= |bytes| {
        CopyIn(at, bytes);
        WrapIsModulo(at + |bytes|, len);
        next := (at + |bytes|) % len;
        left := room - |bytes|;
      } else {
        CopyIn(at, bytes[..room]);
        CopyIn(0, bytes[room..]);
        WrapIsModulo(|bytes| - room, len);
        next := (0 + |bytes| - room) % len;
        left := head - next;
      }
    }

    method Enqueue(data: seq<byte>) returns (ret: int)
      requires Valid() && |data| <= INT_MAX
      modifies this, mem
      ensures Valid() && len == old(len)
      ensures ret == if Total(old(contents)) + |data| + OVERHEAD > len then ERR_FULL else SUCCESS
      ensures ret == ERR_FULL ==> State() == old(State()) && contents == old(contents) && stored == old(stored)
      ensures ret == SUCCESS ==> contents == old(contents) + [data]
      ensures ret == SUCCESS ==> stored == if old(contents) == [] then head else old(stored)
      ensures old(Undamaged()) ==> Undamaged()
    {
      hide Holds, Write, Block;
      ret := SUCCESS;
      var locked := CompareAndSwapUsed(0, 1);
      assert locked;
      ghost var before := State();
      HoldsBounds(before, stored, contents);
      FreeSpaceIsRest(before, stored, contents);

      var freeSpaceSize := 0;
      if head < tail || (head == tail && blockNum == 0) {
        freeSpaceSize := len - (tail - head);
      } else if head > tail {
        freeSpaceSize := head - tail;
      } else {
        freeSpaceSize := 0;
      }

      if freeSpaceSize < BLOCK_HEADER_SIZE + |data| + TRAILER_SIZE {
        ret := ERR_FULL;
      } else {
        WriteBlock(data);
        WrapIsModulo(tail + |data| + OVERHEAD, len);
        tail := (tail + |data| + BLOCK_HEADER_SIZE + TRAILER_SIZE) % len;
        blockNum := blockNum + 1;
        AppendedHolds(before, stored, contents, data);
        stored := if contents == [] then head else stored;
        contents := contents + [data];
        assert State() == Appended(before, data);
      }
      var released := CompareAndSwapUsed(1, 0);
      assert released;
    }

    /** The copies of Enqueue, whichever way the block is split. */
    method WriteBlock(data: seq<byte>)
      requires 0 <= head < len == mem.Length && 0 <= tail < len
      requires |data| + OVERHEAD <= (if head <= tail then len - (tail - head) else head - tail)
      modifies mem
      ensures mem[..] == Write(old(mem[..]), tail, Block(tail, data))
    {
      hide Write, Splice;
      ghost var m := mem[..];
      var header := Header(tail, |data|);
      WriteSplit(m, tail, header, data);
      WriteSplit(m, tail, header + data, TRAILER);
      var saveIndex := tail;
      var tailRightSpace := len - tail;
      if tail < head || tailRightSpace >= |data| + BLOCK_HEADER_SIZE + TRAILER_SIZE {
        WriteInOneGo(data, header);
      } else {
        saveIndex, tailRightSpace := CopyPiece(saveIndex, tailRightSpace, header, |data| + OVERHEAD);
        saveIndex, tailRightSpace := CopyPiece(saveIndex, tailRightSpace, data, |data| + TRAILER_SIZE);
        saveIndex, tailRightSpace := CopyPiece(saveIndex, tailRightSpace, TRAILER, TRAILER_SIZE);
      }
    }

    method WriteInOneGo(data: seq<byte>, header: seq<byte>)
      requires 0 <= tail && tail + |header| + |data| + TRAILER_SIZE <= len == mem.Length
      modifies mem
      ensures mem[..] == Write(old(mem[..]), tail, header + data + TRAILER)
    {
      hide Write, Splice;
      ghost var m0, bytes := mem[..], header + data;
      var saveIndex := tail;
      CopyIn(saveIndex, header);
      WriteFits(m0, tail, header);
      ghost var m1 := mem[..];
      saveIndex := saveIndex + |header|;
      CopyIn(saveIndex, data);
      WriteFits(m1, saveIndex, data);
      WriteSplit(m0, tail, header, data);
      ghost var m2 := mem[..];
      saveIndex := saveIndex + |data|;
      CopyIn(saveIndex, TRAILER);
      WriteFits(m2, saveIndex, TRAILER);
      WriteSplit(m0, tail, bytes, TRAILER);
    }

    /** A block whose oldest index is right is handed out and removed; a wrong
        index makes the scan skip to the end of the first trailer it sees. */
    method Dequeue(opBuf: array<byte>, bufLen: int) returns (ret: int, outLen: int)
      requires Valid() && opBuf != mem && bufLen <= opBuf.Length
      modifies this, opBuf
      ensures len == old(len) && usedNum == 0 && tail == old(tail)
      ensures ret == DequeueCode(old(contents), bufLen, old(stored == head))
      ensures ret == ERR_EMPTY || ret == ERR_BUF_SMALL ==>
        Valid() && State() == old(State()) && contents == old(contents) && stored == old(stored)
      ensures outLen == if ret == SUCCESS || ret == ERR_BUF_SMALL then |old(contents)[0]| else bufLen
      ensures ret != SUCCESS ==> opBuf[..] == old(opBuf[..])
      ensures ret == SUCCESS ==>
        Undamaged() && contents == old(contents)[1..] && opBuf[..] == Splice(old(opBuf[..]), 0, old(contents)[0])
      ensures ret == ERR_DATE_RESET ==>
        && head == Wrap(BodyAt(old(State())) + ScanLength(old(contents)[0]), len)
        && blockNum == old(blockNum) - 1
        && (Clean(old(contents)[0]) ==> Undamaged() && contents == old(contents)[1..])
    {
      hide Holds, Header, Read, Splice, ScanLength, Clean, LoadInt;
      ret, outLen := SUCCESS, bufLen;
      var locked := CompareAndSwapUsed(0, 1);
      assert locked;
      ghost var before := State();
      HoldsBounds(before, stored, contents);
      if blockNum > 0 || head != tail {
        OldestBlock(before, stored, contents);
        HeaderFields(stored, |contents[0]|);
        var blockHeader, readIndex, _ := ReadPiece(head, len - head, BLOCK_HEADER_SIZE);
        var index, dateLen := LoadInt(blockHeader[..4]), LoadInt(blockHeader[4..]);
        if bufLen < dateLen {
          outLen := dateLen;
          ret := ERR_BUF_SMALL;
        } else if index != head {
          if blockNum > 0 {
            SkipToNextTrailer(readIndex);
            ret := ERR_DATE_RESET;
          } else {
            assert false;  // the source empties the queue here
          }
        } else {
          if dateLen < 0 {
            assert false;  // the source empties the queue here
          } else {
            outLen := dateLen;
            ret := TakeBlock(opBuf, readIndex, dateLen);
          }
        }
      } else {
        ret := ERR_EMPTY;
      }
      var released := CompareAndSwapUsed(1, 0);
      assert released;
    }

    /** The reset branch of Dequeue. */
    method SkipToNextTrailer(readIndex: int)
      requires len >= 0 && head >= 0 && tail >= 0 && Holds(State(), stored, contents)
      requires contents != [] && BLOCK_HEADER_SIZE <= len && readIndex == BodyAt(State())
      modifies this`head, this`blockNum, this`stored, this`contents
      ensures head >= 0 && head == Wrap(readIndex + ScanLength(old(contents)[0]), len)
      ensures blockNum == old(blockNum) - 1
      ensures Clean(old(contents)[0]) ==>
        Holds(State(), stored, contents) && stored == head && contents == old(contents)[1..]
    {
      hide Holds, Read, ScanLength, Clean;
      HoldsBounds(State(), stored, contents);
      RemovedHolds(State(), stored, contents);
      ScanFindsNextBlock(contents[0]);
      var next := ScanForTrailer(readIndex);
      head := next;
      blockNum := blockNum - 1;
      stored, contents := head, contents[1..];
    }

    /** The branch of Dequeue that reads body and trailer. */
    method TakeBlock(opBuf: array<byte>, bodyIndex: int, dateLen: int) returns (ret: int)
      requires len >= 0 && head >= 0 && tail >= 0 && Holds(State(), stored, contents) && opBuf != mem
      requires contents != [] && BLOCK_HEADER_SIZE <= len && bodyIndex == BodyAt(State())
      requires dateLen == |contents[0]| <= opBuf.Length
      modifies this`head, this`blockNum, this`stored, this`contents, opBuf
      ensures head >= 0 && Holds(State(), stored, contents) && stored == head && contents == old(contents)[1..]
      ensures ret == SUCCESS && opBuf[..] == Splice(old(opBuf[..]), 0, old(contents)[0])
    {
      hide Holds, Header, Read, Splice;
      ret := SUCCESS;
      ghost var before := State();
      HoldsBounds(before, stored, contents);
      OldestBlock(before, stored, contents);
      RemovedHolds(before, stored, contents);
      var body, readIndex, headRightSpace := ReadPiece(bodyIndex, len - bodyIndex, dateLen);
      CopyOut(opBuf, body);
      var trailer, _, _ := ReadPiece(readIndex, headRightSpace, TRAILER_SIZE);
      WrapIsModulo(head + dateLen + OVERHEAD, len);
      head := (head + BLOCK_HEADER_SIZE + dateLen + TRAILER_SIZE) % len;
      blockNum := blockNum - 1;
      stored, contents := head, contents[1..];
      if trailer != TRAILER {
        ret := ERR_DATE_TAIL;
      }
    }

    /** memcpy(opBuf, body, |body|). */
    method CopyOut(opBuf: array<byte>, body: seq<byte>)
      requires |body| <= opBuf.Length
      modifies opBuf
      ensures opBuf[..] == Splice(old(opBuf[..]), 0, body)
    {
      forall k | 0 <= k < |body| {
        opBuf[k] := body[k];
      }
    }

    /** The scan of the reset branch, started at the body of the oldest block. */
    method ScanForTrailer(start: int) returns (readIndex: int)
      requires len >= 0 && head >= 0 && tail >= 0 && Holds(State(), stored, contents)
      requires contents != [] && BLOCK_HEADER_SIZE <= len && start == BodyAt(State())
      ensures |contents[0]| + OVERHEAD <= len
      ensures readIndex == Wrap(start + ScanLength(contents[0]), len)
    {
      hide Holds, Header, ScanLength, EndsRun, Image1, Counted;
      ghost var body := contents[0];
      ghost var s := body + TRAILER;
      ghost var steps := 0;
      BytesOfBody(State(), stored, contents);
      HoldsBounds(State(), stored, contents);
      CountStarts(s);
      readIndex := start;
      var tailFlagCount := 0;
      while true
        invariant 0 <= steps <= |s| && readIndex == Wrap(start + steps, len)
        invariant 0 <= tailFlagCount < TRAILER_SIZE && Counted(s, steps, tailFlagCount)
        decreases |s| - steps
      {
        CountIsShort(body, steps, tailFlagCount);
        CountStep(s, steps, tailFlagCount);
        if mem[readIndex] == TAIL_FLAG {
          tailFlagCount := tailFlagCount + 1;
        } else {
          tailFlagCount := 0;
        }
        WrapIsModulo(readIndex + 1, len);
        readIndex := (readIndex + 1) % len;
        steps := steps + 1;
        if tailFlagCount == TRAILER_SIZE {
          FirstRun(body, steps);
          break;
        }
      }
    }

    /** Reads n bytes from offset `at`, in two copies when fewer than n are
        left before the end of the ring (`right` is headRightSpace). */
    method ReadPiece(at: int, right: int, n: int) returns (bytes: seq<byte>, next: int, left: int)
      requires 0 <= at < len == mem.Length && 0 <= n <= len
      requires right == len - at || (at == 0 && right == 0)
      ensures bytes == Read(mem[..], at, n)
      ensures next == Wrap(at + n, len)
      ensures left == len - next || (next == 0 && left == 0)
    {
      WrapIsModulo(at + n, len);
      if right >= n {
        bytes := mem[at..at + n];
        assert bytes == mem[..][at..at + n];
        next := (at + n) % len;
        left := right - n;
      } else {
        bytes := mem[at..at + right] + mem[0..n - right];
        assert mem[at..at + right] == mem[..][at..at + right] && mem[0..n - right] == mem[..][..n - right];
        assert right == 0 ==> bytes == mem[..][..n];
        WrapIsModulo(n - right, len);
        next := (0 + n - right) % len;
        left := len - next;
      }
    }
  }

  /** The return code of Dequeue for a queue holding cs. */
  function DequeueCode(cs: seq<seq<byte>>, bufLen: int, indexRight: bool): int {
    if cs == [] then ERR_EMPTY
    else if bufLen < |cs[0]| then ERR_BUF_SMALL
    else if indexRight then SUCCESS
    else ERR_DATE_RESET
  }
}
