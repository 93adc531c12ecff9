/** The sending side of the connect server: the packs of one round are gathered
    in one buffer per client and sent when a buffer is full and at the end of
    the round. */
module SendBatch {
  import opened Bytes
  import opened CommonDefs

  // ------------------------------------------------- what a round should do

  /** The client a pack is for. */
  function Addressee(pack: seq<byte>): int
    requires |pack| >= HEADER_SIZE
  {
    DecodeInt(pack[2..6])
  }

  /** The kinds of packs that clients get. */
  predicate ForClients(pack: seq<byte>)
    requires |pack| >= HEADER_SIZE
  {
    DecodeShort(pack[6..8])
      in {CMD_CLIENT_PULL_MESSAGE, CMD_SERVER_PUSH_MESSAGE, CMD_SERVER_REPLY_MESSAGE, CMD_SERVER_ACK_MESSAGE}
  }

  predicate GoesTo(pack: seq<byte>, client: int) {
    |pack| >= HEADER_SIZE && Addressee(pack) == client && ForClients(pack)
  }

  /** The bytes of the packs for one client, in their order. */
  function BytesFor(packs: seq<seq<byte>>, client: int): seq<byte> {
    if packs == [] then []
    else
      var last := packs[|packs| - 1];
      BytesFor(packs[..|packs| - 1], client) + (if GoesTo(last, client) then last else [])
  }

  /** The clients that are not there, one notice for every pack addressed to
      them. */
  function Missing(packs: seq<seq<byte>>, online: set<int>): seq<int> {
    if packs == [] then []
    else
      var last := packs[|packs| - 1];
      Missing(packs[..|packs| - 1], online)
        + (if |last| >= HEADER_SIZE && Addressee(last) !in online then [Addressee(last)] else [])
  }

  lemma NothingYet(packs: seq<seq<byte>>)
    ensures forall client :: BytesFor(packs[..0], client) == []
    ensures forall online :: Missing(packs[..0], online) == []
  {
  }

  lemma OneMorePack(packs: seq<seq<byte>>, k: nat, online: set<int>)
    requires k < |packs|
    ensures forall client ::
      BytesFor(packs[..k + 1], client) == BytesFor(packs[..k], client) + (if GoesTo(packs[k], client) then packs[k] else [])
    ensures var p := packs[k];
      Missing(packs[..k + 1], online)
      == Missing(packs[..k], online) + (if |p| >= HEADER_SIZE && Addressee(p) !in online then [Addressee(p)] else [])
  {
    hide GoesTo, Addressee;
    assert packs[..k + 1][..k] == packs[..k];
  }

  /** Every client was given its packs on top of what it had before. */
  ghost predicate GivenSoFar(before: map<int, seq<byte>>, now: map<int, seq<byte>>, packs: seq<seq<byte>>) {
    now.Keys == before.Keys && forall i :: i in before ==> now[i] == before[i] + BytesFor(packs, i)
  }

  lemma NothingGiven(before: map<int, seq<byte>>, packs: seq<seq<byte>>)
    ensures GivenSoFar(before, before, packs[..0])
  {
    NothingYet(packs);
    hide BytesFor;
  }

  lemma GivenOneMore(before: map<int, seq<byte>>, mid: map<int, seq<byte>>, now: map<int, seq<byte>>,
                     packs: seq<seq<byte>>, k: nat)
    requires k < |packs| && GivenSoFar(before, mid, packs[..k]) && now.Keys == mid.Keys
    requires forall i :: i in mid ==> now[i] == mid[i] + (if GoesTo(packs[k], i) then packs[k] else [])
    ensures GivenSoFar(before, now, packs[..k + 1])
  {
    hide BytesFor, GoesTo;
    OneMorePack(packs, k, {});
    forall i | i in before
      ensures now[i] == before[i] + BytesFor(packs[..k + 1], i)
    {
      var more := if GoesTo(packs[k], i) then packs[k] else [];
      assert (before[i] + BytesFor(packs[..k], i)) + more == before[i] + (BytesFor(packs[..k], i) + more);
    }
  }

  lemma GivenMeans(before: map<int, seq<byte>>, now: map<int, seq<byte>>, packs: seq<seq<byte>>)
    requires GivenSoFar(before, now, packs)
    ensures now.Keys == before.Keys && forall i :: i in before ==> now[i] == before[i] + BytesFor(packs, i)
  {
  }

  // ------------------------------------------------------------ one buffer

  class SendBuffer {
    const sendBuff: array<byte>
    var sendTail: nat
    /** The bytes given to the socket. */
    var wire: seq<byte>

    ghost predicate Valid()
      reads this
    {
      sendBuff.Length == SERVER_BUFFER_SIZE && sendTail <= SERVER_BUFFER_SIZE
    }

    /** Everything put in so far, sent or waiting. */
    ghost function Accepted(): seq<byte>
      reads this, sendBuff
      requires Valid()
    {
      wire + sendBuff[..sendTail]
    }

    constructor ()
      ensures Valid() && sendTail == 0 && wire == [] && fresh(sendBuff)
    {
      sendBuff := new byte[SERVER_BUFFER_SIZE](_ => 0);
      sendTail, wire := 0, [];
    }

    /** SendDataToClient, then the buffer starts afresh. */
    method Flush()
      requires Valid()
      modifies this
      ensures Valid() && sendTail == 0 && Accepted() == old(Accepted())
    {
      wire := wire + sendBuff[..sendTail];
      sendTail := 0;
      assert wire + sendBuff[..0] == wire;
    }

    method Put(pack: seq<byte>)
      requires Valid() && |pack| <= MAX_SERVER_PACKAGE_LENGTH
      modifies this, sendBuff
      ensures Valid() && Accepted() == old(Accepted()) + pack
    {
      var freeSpace := SERVER_BUFFER_SIZE - sendTail;
      if freeSpace < |pack| {
        Flush();
      }
      ghost var waiting := sendBuff[..sendTail];
      forall k | 0 <= k < |pack| {
        sendBuff[sendTail + k] := pack[k];
      }
      sendTail := sendTail + |pack|;
      assert sendBuff[..sendTail] == waiting + pack;
      assert wire + (waiting + pack) == (wire + waiting) + pack;
    }
  }

  // ---------------------------------------------------------- the connections

  class ConnectServer {
    /** The clients that are online. */
    var clients: map<int, SendBuffer>
    /** Exit notices on the queue to the logic server. */
    var exitNotices: seq<int>

    /** No two clients share a buffer. */
    ghost predicate Valid()
      reads this`clients, Memory()
    {
      && (forall i :: i in clients ==> clients[i].Valid())
      && (forall i, j :: i in clients && j in clients && i != j ==>
            clients[i] != clients[j] && clients[i].sendBuff != clients[j].sendBuff)
    }

    ghost function Memory(): set<object>
      reads this`clients
    {
      (set i | i in clients :: clients[i]) + (set i | i in clients :: clients[i].sendBuff)
    }

    /** Everything given to each client so far, sent or waiting. */
    ghost function Accepted(): map<int, seq<byte>>
      reads this`clients, Memory()
      requires Valid()
    {
      map i | i in clients :: clients[i].Accepted()
    }

    /** The clients with a buffer that is not empty. */
    ghost function Waiting(): set<int>
      reads this`clients, Memory()
    {
      set i | i in clients && clients[i].sendTail > 0
    }

    /** One round over the packs taken from the queue. If sends succeed, every
        buffer is empty afterwards and each client was sent exactly its packs,
        whole and in order; a pack for somebody who is not there causes a
        notice instead, other unfit packs are dropped. */
    method Round(packs: seq<seq<byte>>)
      requires Valid() && Waiting() == {}
      requires forall k :: 0 <= k < |packs| ==> |packs[k]| <= MAX_SERVER_PACKAGE_LENGTH
      modifies this`exitNotices, Memory()
      ensures Valid() && clients == old(clients)
      ensures forall i :: i in clients ==> clients[i].sendTail == 0
      ensures forall i :: i in clients ==> clients[i].wire == old(clients[i].wire) + BytesFor(packs, i)
      ensures exitNotices == old(exitNotices) + Missing(packs, clients.Keys)
    {
      forall i | i in clients
        ensures clients[i].Accepted() == clients[i].wire
      {
        assert i !in Waiting();
        assert clients[i].sendBuff[..0] == [];
      }
      var sendClients: seq<int> := Gather(packs);
      SendAll(sendClients);
      forall i | i in clients
        ensures clients[i].wire == old(clients[i].wire) + BytesFor(packs, i)
      {
        assert Accepted()[i] == clients[i].Accepted();
        assert clients[i].sendBuff[..0] == [];
      }
    }

    /** The loop that empties the queue. */
    method Gather(packs: seq<seq<byte>>) returns (sendClients: seq<int>)
      requires Valid() && Waiting() == {}
      requires forall k :: 0 <= k < |packs| ==> |packs[k]| <= MAX_SERVER_PACKAGE_LENGTH
      modifies this`exitNotices, Memory()
      ensures Valid() && Accepted().Keys == clients.Keys == old(Accepted()).Keys
      ensures forall i :: i in clients ==> Accepted()[i] == old(Accepted())[i] + BytesFor(packs, i)
      ensures forall i :: i in Waiting() ==> i in sendClients
      ensures forall k :: 0 <= k < |sendClients| ==> sendClients[k] in clients
      ensures exitNotices == old(exitNotices) + Missing(packs, clients.Keys)
    {
      hide BytesFor, Missing, GoesTo, Valid, Accepted, Waiting, GivenSoFar;
      NothingYet(packs);
      sendClients := [];
      AcceptedKeys();
      ghost var before := Accepted();
      NothingGiven(before, packs);
      for k := 0 to |packs|
        invariant Valid() && Accepted().Keys == clients.Keys && GivenSoFar(before, Accepted(), packs[..k])
        invariant forall i :: i in Waiting() ==> i in sendClients
        invariant forall j :: 0 <= j < |sendClients| ==> sendClients[j] in clients
        invariant exitNotices == old(exitNotices) + Missing(packs[..k], clients.Keys)
      {
        ghost var given := Accepted();
        sendClients := PutOne(packs[k], sendClients);
        OneMorePack(packs, k, clients.Keys);
        GivenOneMore(before, given, Accepted(), packs, k);
      }
      assert packs[..|packs|] == packs;
      GivenMeans(before, Accepted(), packs);
    }

    lemma AcceptedKeys()
      requires Valid()
      ensures Accepted().Keys == clients.Keys
    {
    }

    /** One round of the loop. */
    method PutOne(pack: seq<byte>, given: seq<int>) returns (sendClients: seq<int>)
      requires Valid() && |pack| <= MAX_SERVER_PACKAGE_LENGTH
      requires forall i :: i in Waiting() ==> i in given
      requires forall j :: 0 <= j < |given| ==> given[j] in clients
      modifies this`exitNotices, Memory()
      ensures Valid() && Accepted().Keys == clients.Keys == old(Accepted()).Keys
      ensures forall i :: i in clients ==>
        Accepted()[i] == old(Accepted())[i] + (if GoesTo(pack, i) then pack else [])
      ensures forall i :: i in Waiting() ==> i in sendClients
      ensures forall j :: 0 <= j < |sendClients| ==> sendClients[j] in clients
      ensures exitNotices == old(exitNotices)
        + (if |pack| >= HEADER_SIZE && Addressee(pack) !in clients then [Addressee(pack)] else [])
    {
      hide DecodeInt, DecodeShort;
      sendClients := given;
      if |pack| < HEADER_SIZE {
        return;
      }
      var client := DecodeInt(pack[2..6]);
      if client !in clients {
        exitNotices := exitNotices + [client];
        return;
      }
      if !ForClients(pack) {
        return;
      }
      clients[client].Put(pack);
      sendClients := sendClients + [client];
    }

    /** The loop over the clients that were given something, some of them more
        than once. */
    method SendAll(sendClients: seq<int>)
      requires Valid() && forall i :: i in Waiting() ==> i in sendClients
      requires forall k :: 0 <= k < |sendClients| ==> sendClients[k] in clients
      modifies Memory()
      ensures Valid() && Accepted() == old(Accepted())
      ensures forall i :: i in clients ==> clients[i].sendTail == 0
    {
      hide Valid, Accepted, Waiting;
      for k := 0 to |sendClients|
        invariant Valid() && Accepted() == old(Accepted())
        invariant forall i :: i in Waiting() ==> i in sendClients[k..]
      {
        FlushOne(sendClients[k]);
        assert sendClients[k..] == [sendClients[k]] + sendClients[k + 1..];
      }
      assert sendClients[|sendClients|..] == [];
      assert Waiting() == {} by {
        assert forall i :: i !in Waiting();
      }
      NobodyWaits();
    }

    lemma NobodyWaits()
      requires Waiting() == {}
      ensures forall i :: i in clients ==> clients[i].sendTail == 0
    {
      assert forall i :: i in clients && clients[i].sendTail > 0 ==> i in Waiting();
    }

    /** One client is sent what its buffer holds, which may be nothing. */
    method FlushOne(client: int)
      requires Valid() && client in clients
      modifies Memory()
      ensures Valid() && Accepted() == old(Accepted()) && Waiting() == old(Waiting()) - {client}
    {
      ghost var before := Waiting();
      clients[client].Flush();
      forall i
        ensures i in Waiting() <==> i in before - {client}
      {
        assert i in clients && i != client ==> clients[i].sendTail == old(clients[i].sendTail);
      }
    }
  }
}
