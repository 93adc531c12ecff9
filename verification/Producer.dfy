/** The producer side of the client library, single-ack mode: the list of
    messages that wait for an ack, and their resending. */
module Producers {
  import opened Bytes
  import opened CommonDefs
  import opened Broker
  import opened ServerPacks
  import Framing

  const SUCCESS := 0
  const ERR_CLIENT_BUILD_CONNECT := -600
  const ERR_CLIENT_PUBLISH_MSG := -605
  /** Milliseconds, as the code has it. */
  const RESEND_AFTER := 3000000

  /** CreatePublishMessage::GetMessagePack succeeds in a buffer of the client's
      size; the length is an unsigned short. */
  predicate Packable(p: Publication) {
    && |p.exchange| <= MAX_NAME_LENGTH && |p.routingKey| <= MAX_NAME_LENGTH
    && (PUBLISH_HEADER + |p.body|) % SHORT_LIMIT <= MAX_CLINT_PACKAGE_LENGTH
  }

  /** A message in m_NeedAckMsgList with the time it was last sent, in
      microseconds. */
  datatype Unacked = Unacked(p: Publication, saved: int)

  predicate Expired(u: Unacked, now: int) {
    (now - u.saved) / 1000 >= RESEND_AFTER
  }

  function SeqNos(list: seq<Unacked>): seq<int> {
    seq(|list|, i requires 0 <= i < |list| => list[i].p.seqNo)
  }

  function Packs(list: seq<Unacked>): seq<Publication> {
    seq(|list|, i requires 0 <= i < |list| => list[i].p)
  }

  /** The messages that none of the received acks is for. */
  function Without(list: seq<Unacked>, acked: set<int>): (rest: seq<Unacked>)
    ensures forall u :: u in rest <==> u in list && u.p.seqNo !in acked
  {
    if list == [] then []
    else
      var last := list[|list| - 1];
      Without(list[..|list| - 1], acked) + (if last.p.seqNo in acked then [] else [last])
  }

  ghost predicate SortedByTime(list: seq<Unacked>) {
    forall i, j :: 0 <= i < j < |list| ==> list[i].saved <= list[j].saved
  }

  /** The list of a producer whose clock shows `clock`. */
  ghost predicate Timely(list: seq<Unacked>, clock: int) {
    && SortedByTime(list)
    && forall i :: 0 <= i < |list| ==> list[i].saved <= clock
  }

  lemma WithoutStaysTimely(list: seq<Unacked>, acked: set<int>, clock: int)
    requires Timely(list, clock)
    ensures Timely(Without(list, acked), clock)
  {
    WithoutStaysSorted(list, acked);
    forall i | 0 <= i < |Without(list, acked)|
      ensures Without(list, acked)[i].saved <= clock
    {
      assert Without(list, acked)[i] in list;
    }
  }

  lemma {:induction false} WithoutStaysSorted(list: seq<Unacked>, acked: set<int>)
    requires SortedByTime(list)
    ensures SortedByTime(Without(list, acked))
    decreases |list|
  {
    if list != [] {
      var front, last := list[..|list| - 1], list[|list| - 1];
      WithoutStaysSorted(front, acked);
      var rest := Without(front, acked);
      forall i | 0 <= i < |rest|
        ensures rest[i].saved <= last.saved
      {
        assert rest[i] in front;
      }
    }
  }

  /** What a resend round leaves: the same messages, the expired ones moved to
      the back with a new time. */
  ghost predicate Resent(before: seq<Unacked>, after: seq<Unacked>, n: nat, now: int) {
    && n <= |before| == |after|
    && var k := |before| - n;
      && after[..k] == before[n..] && Packs(after[k..]) == Packs(before[..n])
      && forall i :: k <= i < |after| ==> after[i].saved >= now
  }

  lemma SameNumbers(a: seq<Unacked>, b: seq<Unacked>)
    requires Packs(a) == Packs(b)
    ensures SeqNos(a) == SeqNos(b)
  {
    assert |a| == |Packs(a)| == |b|;
    forall i | 0 <= i < |a|
      ensures a[i].p == b[i].p
    {
      assert Packs(a)[i] == Packs(b)[i];
    }
  }

  lemma NumbersSplit(a: seq<Unacked>, k: nat)
    requires k <= |a|
    ensures SeqNos(a) == SeqNos(a[..k]) + SeqNos(a[k..])
  {
  }

  /** The multiset of pending numbers is unchanged. */
  lemma ResendKeepsNumbers(before: seq<Unacked>, after: seq<Unacked>, n: nat, now: int)
    requires Resent(before, after, n, now)
    ensures multiset(SeqNos(after)) == multiset(SeqNos(before))
  {
    hide SeqNos;
    var k := |before| - n;
    NumbersSplit(before, n);
    NumbersSplit(after, k);
    SameNumbers(after[k..], before[..n]);
  }

  lemma NothingResent(list: seq<Unacked>, now: int)
    ensures Resent(list, list, 0, now) && Packs(list[..0]) == []
  {
  }

  lemma OneResent(list: seq<Unacked>, cur: seq<Unacked>, n: nat, now: int, t: int)
    requires Resent(list, cur, n, now) && n < |list| && t >= now
    ensures cur[0] == list[n] && Packs(list[..n + 1]) == Packs(list[..n]) + [cur[0].p]
    ensures Resent(list, (cur + [Unacked(cur[0].p, t)])[1..], n + 1, now)
  {
    var k, next := |list| - n, (cur + [Unacked(cur[0].p, t)])[1..];
    assert cur[0] == cur[..k][0] == list[n..][0];
    assert next[..k - 1] == cur[..k][1..] == list[n + 1..];
    assert next[k - 1..] == cur[k..] + [Unacked(cur[0].p, t)];
    assert Packs(next[k - 1..]) == Packs(cur[k..]) + [cur[0].p];
  }

  lemma AllResentIsFresh(list: seq<Unacked>, cur: seq<Unacked>, n: nat, now: int)
    requires Resent(list, cur, n, now) && cur != [] && Expired(cur[0], now)
    ensures n < |list|
  {
  }

  lemma WithoutNothing(list: seq<Unacked>, acked: set<int>)
    ensures Without(list[..0], acked) == [] && Without(list[..0], acked) + list[0..] == list
  {
  }

  /** One round of the loop that erases acknowledged messages. */
  lemma NextUnacked(list: seq<Unacked>, acked: set<int>, n: nat)
    requires n < |list|
    ensures var w, w' := Without(list[..n], acked), Without(list[..n + 1], acked);
      && (w + list[n..])[|w|] == list[n]
      && (list[n].p.seqNo in acked ==> w' == w && (w + list[n..])[..|w|] + (w + list[n..])[|w| + 1..] == w' + list[n + 1..])
      && (list[n].p.seqNo !in acked ==> |w'| == |w| + 1 && w + list[n..] == w' + list[n + 1..])
  {
    assert list[..n + 1][..n] == list[..n];
    assert list[n..] == [list[n]] + list[n + 1..];
  }

  lemma ExpiredIs(u: Unacked, now: int)
    ensures Expired(u, now) <==> (now - u.saved) / 1000 >= RESEND_AFTER
  {
  }

  /** Moving the first message to the back, with the time just read. */
  lemma StaysTimely(list: seq<Unacked>, clock: int, t: int)
    requires list != [] && Timely(list, clock) && t == clock
    ensures Timely((list + [Unacked(list[0].p, t)])[1..], clock)
  {
  }

  // ------------------------------------------------- the packs received

  lemma NothingRead(stream: seq<byte>)
    ensures AllReadable([]) && NumbersIn([]) == {}
    ensures Framing.Parse(stream) == ([] + Framing.Parse(stream).0, Framing.Parse(stream).1)
  {
    hide Framing.Parse;
    assert [] + Framing.Parse(stream).0 == Framing.Parse(stream).0;
  }

  /** A short buffer, or one shorter than the pack at its front, has no pack. */
  lemma LastRead(packs: seq<seq<byte>>, s: seq<byte>)
    ensures |s| < HEADER_SIZE || |s| < DecodeShort(s[..2]) ==>
      packs + Framing.Parse(s).0 == packs && Framing.Parse(s).1 == s
  {
    hide DecodeShort;
  }

  lemma NextRead(packs: seq<seq<byte>>, s: seq<byte>)
    requires AllReadable(packs) && FromServer(s) && |s| >= HEADER_SIZE && |s| >= DecodeShort(s[..2])
    ensures var n := DecodeShort(s[..2]);
      && ACK_SIZE <= n <= |s| && FromServer(s[n..]) && AllReadable(packs + [s[..n]])
      && NumbersIn(packs + [s[..n]]) == NumbersIn(packs) + {DecodeInt(s[HEADER_SIZE..ACK_SIZE])}
      && packs + Framing.Parse(s).0 == (packs + [s[..n]]) + Framing.Parse(s[n..]).0
      && Framing.Parse(s).1 == Framing.Parse(s[n..]).1
  {
    hide DecodeShort, DecodeInt, NumbersIn, NumberIn, AllReadable, Framing.Parse, Framing.HasPack, FromServer;
    FrontIsReadable(s);
    var n := DecodeShort(s[..2]);
    Framing.Regroup(packs, s[..n], Framing.Parse(s[n..]).0);
    OneMoreNumber(packs, s[..n]);
    NumberInFront(s, n);
  }

  lemma NumberInFront(s: seq<byte>, n: nat)
    requires ACK_SIZE <= n <= |s|
    ensures NumberIn(s[..n]) == DecodeInt(s[HEADER_SIZE..ACK_SIZE])
  {
    assert s[..n][HEADER_SIZE..ACK_SIZE] == s[HEADER_SIZE..ACK_SIZE];
    hide DecodeInt;
  }

  lemma FrontIsReadable(s: seq<byte>)
    requires FromServer(s) && |s| >= HEADER_SIZE && |s| >= DecodeShort(s[..2])
    ensures var n := DecodeShort(s[..2]);
      && ACK_SIZE <= n <= |s| && FromServer(s[n..])
      && Framing.Parse(s) == ([s[..n]] + Framing.Parse(s[n..]).0, Framing.Parse(s[n..]).1)
  {
    hide DecodeShort;
    var n := DecodeShort(s[..2]);
    if n >= HEADER_SIZE {
      Framing.PackWaits(s);
      hide Framing.Parse, Framing.Stuck;
      var packs := Framing.Parse(s).0;
      assert packs[0] == s[..n];
      assert forall i :: 0 <= i < |Framing.Parse(s[n..]).0| ==> Framing.Parse(s[n..]).0[i] == packs[i + 1];
    }
  }

  lemma OneMoreNumber(packs: seq<seq<byte>>, p: seq<byte>)
    requires AllReadable(packs) && |p| >= ACK_SIZE
    ensures AllReadable(packs + [p]) && NumbersIn(packs + [p]) == NumbersIn(packs) + {NumberIn(p)}
  {
    hide NumberIn;
    var more := packs + [p];
    assert forall i :: 0 <= i < |packs| ==> more[i] == packs[i];
    assert more[|packs|] == p;
    forall x | x in NumbersIn(packs)
      ensures x in NumbersIn(more)
    {
      var i :| 0 <= i < |packs| && NumberIn(packs[i]) == x;
      assert NumberIn(more[i]) == x;
    }
  }

  class Producer {
    const index: int
    var built: bool
    var confirmLevel: int
    var msgSeq: nat
    var needAckMsgList: seq<Unacked>
    /** What was received and not read yet. */
    var recvBuff: seq<byte>
    /** The packs handed to the socket. */
    var sent: seq<Publication>
    var clock: int

    ghost predicate Valid()
      reads this
    {
      Timely(needAckMsgList, clock)
    }

    constructor (index: int, level: int)
      ensures Valid() && needAckMsgList == [] && sent == [] && msgSeq == 0 && built && confirmLevel == level
      ensures recvBuff == []
    {
      this.index, built, confirmLevel, msgSeq, needAckMsgList, sent, clock := index, true, level, 0, [], [], 0;
      recvBuff := [];
    }

    /** The clock never goes back. */
    method GetTimeOfDay() returns (t: int)
      modifies this`clock
      ensures t == clock >= old(clock)
    {
      t :| t >= clock;
      clock := t;
    }

    /** A message that cannot be packed uses up a number and nothing else;
        delivered says whether the socket took it, if not the connection is
        closed. A body whose length wraps round and then seems to fit would
        make the source write past its buffer. */
    method PuslishMessage(exchange: string, key: string, body: seq<byte>, priority: int, durable: bool, delivered: bool)
      returns (ret: int)
      requires Valid()
      requires (PUBLISH_HEADER + |body|) % SHORT_LIMIT <= MAX_CLINT_PACKAGE_LENGTH ==>
        PUBLISH_HEADER + |body| <= MAX_CLINT_PACKAGE_LENGTH
      modifies this
      ensures Valid() && confirmLevel == old(confirmLevel)
      ensures var fits := Packable(Publication(index, exchange, key, priority, durable, -1, confirmLevel, body));
        && ret == (if !old(built) then ERR_CLIENT_BUILD_CONNECT
                   else if fits && delivered then SUCCESS else ERR_CLIENT_PUBLISH_MSG)
        && built == (old(built) && (fits ==> delivered))
      ensures var p := Publication(index, exchange, key, priority, durable,
                                   if confirmLevel > 0 then old(msgSeq) else -1, confirmLevel, body);
        && sent == old(sent) + (if ret == SUCCESS then [p] else [])
        && Packs(needAckMsgList) == Packs(old(needAckMsgList)) + (if ret == SUCCESS && confirmLevel > 0 then [p] else [])
      ensures msgSeq == old(msgSeq) + (if old(built) && confirmLevel > 0 then 1 else 0)
    {
      if !built {
        return ERR_CLIENT_BUILD_CONNECT;
      }
      var p := Publication(index, exchange, key, priority, durable, -1, confirmLevel, body);
      if confirmLevel > 0 {
        p := p.(seqNo := msgSeq);
        msgSeq := msgSeq + 1;
      }
      if !Packable(p) {
        return ERR_CLIENT_PUBLISH_MSG;
      }
      if !delivered {
        built := false;
        return ERR_CLIENT_PUBLISH_MSG;
      }
      sent := sent + [p];
      if confirmLevel > 0 {
        var t := GetTimeOfDay();
        needAckMsgList := needAckMsgList + [Unacked(p, t)];
      }
      ret := SUCCESS;
    }

    /** Takes what has arrived, reads a number in every whole pack, whatever its
        command, and erases the messages with these numbers. */
    method RecvServerAck(arrived: seq<byte>) returns (acked: set<int>)
      requires Valid() && confirmLevel != PRODUCER_MUTIL_ACK && FromServer(recvBuff + arrived)
      modifies this`needAckMsgList, this`recvBuff
      ensures Valid() && FromServer(recvBuff)
      ensures var (packs, rest) := Framing.Parse(old(recvBuff) + arrived);
        AllReadable(packs) && acked == NumbersIn(packs) && recvBuff == rest
      ensures needAckMsgList
           == if confirmLevel == PRODUCER_SINGLE_ACK then Without(old(needAckMsgList), acked) else old(needAckMsgList)
    {
      hide FromServer, NumbersIn, Framing.Parse, Without, Timely;
      recvBuff := recvBuff + arrived;
      acked := ReadNumbers();
      if confirmLevel == PRODUCER_SINGLE_ACK {
        EraseAcked(acked);
      }
    }

    /** The loop over the received packs. */
    method ReadNumbers() returns (sAckSeq: set<int>)
      requires FromServer(recvBuff)
      modifies this`recvBuff
      ensures FromServer(recvBuff)
      ensures var (packs, rest) := Framing.Parse(old(recvBuff));
        AllReadable(packs) && sAckSeq == NumbersIn(packs) && recvBuff == rest
    {
      hide FromServer, NumbersIn, AllReadable, Framing.Parse, DecodeShort, DecodeInt;
      ghost var stream, packs := recvBuff, [];
      sAckSeq := {};
      NothingRead(stream);
      while true
        invariant FromServer(recvBuff) && AllReadable(packs) && sAckSeq == NumbersIn(packs)
        invariant Framing.Parse(stream) == (packs + Framing.Parse(recvBuff).0, Framing.Parse(recvBuff).1)
        decreases |recvBuff|
      {
        LastRead(packs, recvBuff);
        if |recvBuff| < HEADER_SIZE {
          break;
        }
        var len := DecodeShort(recvBuff[..2]);
        if |recvBuff| < len {
          break;
        }
        NextRead(packs, recvBuff);
        sAckSeq := sAckSeq + {DecodeInt(recvBuff[HEADER_SIZE..ACK_SIZE])};
        packs := packs + [recvBuff[..len]];
        recvBuff := recvBuff[len..];
      }
    }

    /** The single-ack part: erases every message that was acknowledged. */
    method EraseAcked(acked: set<int>)
      requires Valid()
      modifies this`needAckMsgList
      ensures Valid() && needAckMsgList == Without(old(needAckMsgList), acked)
    {
      ghost var list := needAckMsgList;
      ghost var n := 0;
      var i := 0;
      WithoutNothing(list, acked);
      hide Timely, Without;
      WithoutStaysTimely(list, acked, clock);
      while i < |needAckMsgList|
        invariant n <= |list| && i == |Without(list[..n], acked)|
        invariant needAckMsgList == Without(list[..n], acked) + list[n..]
        decreases |list| - n
      {
        NextUnacked(list, acked, n);
        if needAckMsgList[i].p.seqNo in acked {
          needAckMsgList := needAckMsgList[..i] + needAckMsgList[i + 1..];
        } else {
          i := i + 1;
        }
        n := n + 1;
      }
      assert list[..n] == list && list[n..] == [];
      assert needAckMsgList == Without(list, acked);
    }

    /** Sends again every message that waited too long, each once: stopping at
        the first that did not misses none, because the list is sorted. The loop
        ends because a message that was just sent has not waited. The socket
        takes that many packs; at the first it does not take, the connection is
        closed, and this message has already moved to the back. */
    method ReSendMsg(takes: nat) returns (ret: int, ghost now: int, ghost n: nat)
      requires Valid()
      modifies this
      ensures Valid() && now >= old(clock) && n <= |old(needAckMsgList)|
      ensures Resent(old(needAckMsgList), needAckMsgList, n, now)
      ensures forall i :: 0 <= i < n ==> Expired(old(needAckMsgList)[i], now)
      ensures ret == SUCCESS ==> forall i :: n <= i < |old(needAckMsgList)| ==> !Expired(old(needAckMsgList)[i], now)
      ensures ret == if n <= takes then SUCCESS else ERR_CLIENT_PUBLISH_MSG
      ensures ret != SUCCESS ==> n == takes + 1
      ensures built == (old(built) && ret == SUCCESS)
      ensures sent == old(sent) + Packs(old(needAckMsgList)[..if ret == SUCCESS then n else takes])
      ensures multiset(SeqNos(needAckMsgList)) == multiset(SeqNos(old(needAckMsgList)))
      ensures msgSeq == old(msgSeq) && confirmLevel == old(confirmLevel)
    {
      hide Packs, SeqNos, Resent, SortedByTime, Expired;
      ghost var list := needAckMsgList;
      var tNow := GetTimeOfDay();
      now, n := tNow, 0;
      var done := 0;
      NothingResent(list, now);
      while needAckMsgList != []
        invariant Valid() && clock >= now
        invariant Resent(list, needAckMsgList, n, now) && n <= |list| && n <= takes && done == n
        invariant forall i :: 0 <= i < n ==> Expired(list[i], now)
        invariant sent == old(sent) + Packs(list[..n])
        invariant msgSeq == old(msgSeq) && built == old(built) && confirmLevel == old(confirmLevel)
        decreases |list| - n
      {
        var u := needAckMsgList[0];
        var waitTime := (tNow - u.saved) / 1000;
        ExpiredIs(u, now);
        if waitTime >= RESEND_AFTER {
          AllResentIsFresh(list, needAckMsgList, n, now);
          var t := GetTimeOfDay();
          OneResent(list, needAckMsgList, n, now, t);
          StaysTimely(needAckMsgList, clock, t);
          needAckMsgList := needAckMsgList + [Unacked(u.p, t)];
          needAckMsgList := needAckMsgList[1..];
          n := n + 1;
          if done == takes {
            built := false;
            ret := ERR_CLIENT_PUBLISH_MSG;
            ResendKeepsNumbers(list, needAckMsgList, n, now);
            return;
          }
          sent := sent + [u.p];
          done := done + 1;
        } else {
          break;
        }
      }
      assert SortedByTime(list) by {
        TimelyIsSorted(list, old(clock));
      }
      RestIsFresh(list, needAckMsgList, n, now);
      ResendKeepsNumbers(list, needAckMsgList, n, now);
      ret := SUCCESS;
    }
  }

  lemma TimelyIsSorted(list: seq<Unacked>, clock: int)
    requires Timely(list, clock)
    ensures SortedByTime(list)
  {
    hide SortedByTime;
  }

  /** Nothing behind a message that has not expired has expired. */
  lemma RestIsFresh(list: seq<Unacked>, cur: seq<Unacked>, n: nat, now: int)
    requires Resent(list, cur, n, now) && SortedByTime(list) && (cur != [] ==> !Expired(cur[0], now))
    ensures forall i :: n <= i < |list| ==> !Expired(list[i], now)
  {
    if n < |list| {
      assert cur[0] == cur[..|list| - n][0] == list[n..][0];
      forall i | n <= i < |list|
        ensures list[n].saved <= list[i].saved
      {
      }
    }
  }
}
