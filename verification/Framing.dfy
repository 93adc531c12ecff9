/** The receiving side of a client connection: a byte stream that arrives in
    pieces of any size is cut into packs, each stamped with the client's index
    and put on the queue to the logic server. */
module Framing {
  import opened Bytes
  import opened CommonDefs

  // -------------------------------------------------- what a stream contains

  /** The length that the first two bytes announce. */
  function Announced(s: seq<byte>): (n: int)
    requires |s| >= HEADER_SIZE
    ensures 0 <= n < SHORT_LIMIT
  {
    DecodeShort(s[..2])
  }

  /** GetClientPackageFromBuff succeeds on s. */
  predicate HasPack(s: seq<byte>) {
    |s| >= HEADER_SIZE && HEADER_SIZE <= Announced(s) <= |s|
  }

  /** A length too small for a header: nothing behind it is ever reached. */
  predicate Stuck(s: seq<byte>) {
    |s| >= HEADER_SIZE && Announced(s) < HEADER_SIZE
  }

  /** The packs at the front of s, and what is left of s. */
  function Parse(s: seq<byte>): (r: (seq<seq<byte>>, seq<byte>))
  {
    if !HasPack(s) then ([], s)
    else
      var n := Announced(s);
      var (packs, rest) := Parse(s[n..]);
      ([s[..n]] + packs, rest)
  }

  /** A pack as it is put on the queue. */
  function Stamp(pack: seq<byte>, client: int): seq<byte>
    requires |pack| >= HEADER_SIZE
  {
    pack[..2] + EncodeInt(client) + pack[6..]
  }

  function StampAll(packs: seq<seq<byte>>, client: int): seq<seq<byte>>
    requires forall i :: 0 <= i < |packs| ==> |packs[i]| >= HEADER_SIZE
  {
    seq(|packs|, i requires 0 <= i < |packs| => Stamp(packs[i], client))
  }

  function Join(packs: seq<seq<byte>>): seq<byte> {
    if packs == [] then [] else packs[0] + Join(packs[1..])
  }

  predicate WholePack(p: seq<byte>) {
    |p| >= HEADER_SIZE && Announced(p) == |p|
  }

  lemma FrontPack(s: seq<byte>, n: nat, packs: seq<seq<byte>>, rest: seq<byte>)
    requires HasPack(s) && n == Announced(s)
    ensures WholePack(s[..n])
    ensures Join([s[..n]] + packs) + rest == s[..n] + (Join(packs) + rest)
  {
    assert s[..n][..2] == s[..2];
    assert ([s[..n]] + packs)[1..] == packs;
    assert (s[..n] + Join(packs)) + rest == s[..n] + (Join(packs) + rest);
  }

  /** Nothing is lost, made up or reordered: the packs and the rest are the
      stream, and the rest has no pack at its front. */
  lemma {:induction false} ParseSplits(s: seq<byte>)
    ensures Join(Parse(s).0) + Parse(s).1 == s
    ensures forall i :: 0 <= i < |Parse(s).0| ==> WholePack(Parse(s).0[i])
    ensures !HasPack(Parse(s).1)
    decreases |s|
  {
    if HasPack(s) {
      hide Join, WholePack, Announced;
      var n := Announced(s);
      ParseSplits(s[n..]);
      var (packs, rest) := Parse(s[n..]);
      FrontPack(s, n, packs, rest);
      assert s == s[..n] + s[n..];
    }
  }

  lemma ParseFront(p: seq<byte>, later: seq<byte>)
    requires WholePack(p)
    ensures Parse(p + later) == ([p] + Parse(later).0, Parse(later).1)
  {
    var s := p + later;
    assert s[..2] == p[..2] && s[..|p|] == p && s[|p|..] == later;
  }

  /** The only way to cut a stream like that: a sender's packs come out as they
      went in, with anything incomplete behind them left over. */
  lemma {:induction false} ParseOfPacks(packs: seq<seq<byte>>, rest: seq<byte>)
    requires forall i :: 0 <= i < |packs| ==> WholePack(packs[i])
    requires !HasPack(rest)
    ensures Parse(Join(packs) + rest) == (packs, rest)
  {
    if packs == [] {
      assert Join(packs) + rest == rest;
    } else {
      var p, later := packs[0], Join(packs[1..]) + rest;
      ParseOfPacks(packs[1..], rest);
      assert Join(packs) + rest == p + later;
      hide Join;
      ParseFront(p, later);
      assert packs == [p] + packs[1..];
    }
  }

  /** Cutting what was left over together with what arrives next gives the same
      as cutting the whole stream at once. */
  lemma {:induction false} ParseResumes(a: seq<byte>, b: seq<byte>)
    ensures var (packs, rest) := Parse(a); var (more, left) := Parse(rest + b);
      Parse(a + b) == (packs + more, left)
    decreases |a|
  {
    if HasPack(a) {
      var n := Announced(a);
      ParseResumes(a[n..], b);
      assert (a + b)[..2] == a[..2] && (a + b)[..n] == a[..n] && (a + b)[n..] == a[n..] + b;
      var (packs, rest) := Parse(a[n..]);
      var (more, left) := Parse(rest + b);
      assert [a[..n]] + (packs + more) == ([a[..n]] + packs) + more;
    } else {
      var (more, left) := Parse(a + b);
      assert [] + more == more;
    }
  }

  /** The leftover is too short to fill the buffer, unless its header is
      malformed; then every later byte is only piled up behind it. */
  lemma LeftoverIsShort(s: seq<byte>, more: seq<byte>)
    ensures |Parse(s).1| < SHORT_LIMIT || Stuck(Parse(s).1)
    ensures Stuck(Parse(s).1) ==> Parse(s + more) == (Parse(s).0, Parse(s).1 + more) && Stuck(Parse(s).1 + more)
  {
    ParseSplits(s);
    ParseResumes(s, more);
    var rest := Parse(s).1;
    if Stuck(rest) {
      assert (rest + more)[..2] == rest[..2];
      assert Parse(s).0 + [] == Parse(s).0;
    }
  }

  /** The stamp is the client index and touches nothing else. */
  lemma StampIsIndex(pack: seq<byte>, client: int)
    requires WholePack(pack) && IsInt(client)
    ensures var p := Stamp(pack, client);
      && WholePack(p) && |p| == |pack| && DecodeInt(p[2..6]) == client
      && p[..2] == pack[..2] && p[6..] == pack[6..]
  {
    var p := Stamp(pack, client);
    IntRoundTrip(client);
    assert p[2..6] == EncodeInt(client);
    assert p[..2] == pack[..2] && p[6..] == pack[6..];
  }

  // ------------------------------------------------------------ the buffer

  class ClientConnect {
    const index: int
    const recvBuff: array<byte>
    var recvHead: nat
    var recvTail: nat
    /** What was put on the queue to the logic server for this client. */
    var toLogic: seq<seq<byte>>
    /** Every byte received so far. */
    ghost var stream: seq<byte>

    /** Whatever pieces the stream came in: the packs put on the queue are those
        of the stream, and the buffer holds exactly what is left of it. */
    ghost predicate Valid()
      reads this, recvBuff
    {
      && recvBuff.Length == SERVER_BUFFER_SIZE && recvHead == 0 && recvTail <= SERVER_BUFFER_SIZE
      && AllLong(Parse(stream).0)
      && toLogic == StampAll(Parse(stream).0, index)
      && recvBuff[..recvTail] == Parse(stream).1
    }

    constructor (index: int)
      ensures Valid() && stream == [] && fresh(recvBuff)
    {
      this.index := index;
      recvBuff := new byte[SERVER_BUFFER_SIZE](_ => 0);
      recvHead, recvTail, toLogic, stream := 0, 0, [], [];
    }

    /** The space that recv is asked to fill; there is some, unless the client
        sent a malformed length. */
    method Room() returns (n: nat)
      requires Valid()
      ensures n == SERVER_BUFFER_SIZE - recvTail
      ensures !Stuck(Parse(stream).1) ==> n > SERVER_BUFFER_SIZE - SHORT_LIMIT
    {
      LeftoverIsShort(stream, []);
      n := SERVER_BUFFER_SIZE - recvTail;
    }

    /** Checks for a whole pack at `at`, and stamps it. */
    method GetClientPackageFromBuff(at: nat, buffLen: nat) returns (ok: bool, packLen: nat)
      requires at + buffLen <= recvBuff.Length
      modifies recvBuff
      ensures ok == HasPack(old(recvBuff[at..at + buffLen]))
      ensures !ok ==> recvBuff[..] == old(recvBuff[..])
      ensures ok ==> packLen == Announced(old(recvBuff[at..at + buffLen])) && HEADER_SIZE <= packLen <= buffLen
      ensures ok ==> recvBuff[at..at + packLen] == Stamp(old(recvBuff[at..at + packLen]), index)
      ensures ok ==> recvBuff[at + packLen..] == old(recvBuff[at + packLen..])
    {
      hide DecodeShort, EncodeInt;
      if buffLen < HEADER_SIZE {
        return false, 0;
      }
      assert recvBuff[at..at + buffLen][..2] == recvBuff[at..at + 2];
      var len := DecodeShort(recvBuff[at..at + 2]);
      if buffLen < len {
        return false, 0;
      }
      if len < HEADER_SIZE {
        return false, 0;
      }
      ghost var before := recvBuff[..];
      var bytes := EncodeInt(index);
      forall k | 0 <= k < 4 {
        recvBuff[at + 2 + k] := bytes[k];
      }
      ok, packLen := true, len;
      assert recvBuff[at + packLen..] == before[at + packLen..];
      ghost var p := before[at..at + packLen];
      assert recvBuff[at..at + packLen] == p[..2] + bytes + p[6..];
    }

    /** Received and not yet looked at. */
    ghost function Waiting(): seq<byte>
      reads this, recvBuff
      requires recvHead <= recvTail <= recvBuff.Length
    {
      recvBuff[recvHead..recvTail]
    }

    /** One round of the loop: hands over one pack from the head, if it is whole. */
    method TakePack() returns (ok: bool)
      requires recvHead <= recvTail <= recvBuff.Length
      modifies this`recvHead, this`toLogic, recvBuff
      ensures recvHead <= recvTail && ok == HasPack(old(Waiting()))
      ensures !ok ==> toLogic == old(toLogic) && Waiting() == old(Waiting())
      ensures ok ==> var w := old(Waiting()); var n := Announced(w);
        toLogic == old(toLogic) + [Stamp(w[..n], index)] && Waiting() == w[n..]
    {
      hide Announced, Stamp;
      ghost var w, before := Waiting(), recvBuff[..];
      var packLen;
      ok, packLen := GetClientPackageFromBuff(recvHead, recvTail - recvHead);
      if !ok {
        assert recvBuff[recvHead..recvTail] == recvBuff[..][recvHead..recvTail];
        return;
      }
      assert before[recvHead..recvHead + packLen] == w[..packLen];
      var pack := recvBuff[recvHead..recvHead + packLen];
      toLogic := toLogic + [pack];
      recvHead := recvHead + packLen;
      assert recvBuff[recvHead..recvTail] == recvBuff[recvHead..][..recvTail - recvHead];
      assert before[recvHead..recvTail] == before[recvHead..][..recvTail - recvHead];
      assert before[recvHead..recvTail] == w[packLen..];
    }

    /** memmove of what is left to the start of the buffer. */
    method MoveToFront()
      requires recvHead <= recvTail <= recvBuff.Length
      modifies this`recvHead, this`recvTail, recvBuff
      ensures recvHead == 0 && recvTail <= recvBuff.Length && Waiting() == old(Waiting())
    {
      ghost var w := Waiting();
      var moveCount := recvTail - recvHead;
      forall k | 0 <= k < moveCount {
        recvBuff[k] := recvBuff[recvHead + k];
      }
      recvHead, recvTail := 0, moveCount;
      assert recvBuff[0..moveCount] == w;
    }

    /** recv delivered `got`; the loop hands over every whole pack and what is
        left moves to the start of the buffer. */
    method Receive(got: seq<byte>)
      requires Valid() && 0 < |got| <= SERVER_BUFFER_SIZE - recvTail
      modifies this, recvBuff
      ensures Valid() && stream == old(stream) + got
    {
      hide HasPack, Stamp;
      ghost var leftover, packs := recvBuff[..recvTail], Parse(stream).0;
      forall k | 0 <= k < |got| {
        recvBuff[recvTail + k] := got[k];
      }
      recvTail := recvTail + |got|;
      assert Waiting() == leftover + got;
      ParseResumes(stream, got);
      stream := stream + got;
      while true
        invariant recvHead < recvTail <= SERVER_BUFFER_SIZE
        invariant stream == old(stream) + got && AllLong(packs) && toLogic == StampAll(packs, index)
        invariant Parse(stream) == (packs + Parse(Waiting()).0, Parse(Waiting()).1)
        decreases recvTail - recvHead
      {
        ghost var w := Waiting();
        var ok := TakePack();
        NextParsed(packs, w, index);
        if !ok {
          MoveToFront();
          break;
        }
        packs := packs + [w[..Announced(w)]];
        if recvHead == recvTail {
          recvHead, recvTail := 0, 0;
          NoPackInNothing();
          assert Waiting() == [];
          break;
        }
      }
      assert recvBuff[..recvTail] == Waiting();
      NothingWaits(packs, Waiting());
    }
  }

  predicate AllLong(packs: seq<seq<byte>>) {
    forall i :: 0 <= i < |packs| ==> |packs[i]| >= HEADER_SIZE
  }

  lemma StampedOneMore(packs: seq<seq<byte>>, p: seq<byte>, client: int)
    requires AllLong(packs) && |p| >= HEADER_SIZE
    ensures AllLong(packs + [p]) && StampAll(packs + [p], client) == StampAll(packs, client) + [Stamp(p, client)]
  {
    hide Stamp;
  }

  lemma NextParsed(packs: seq<seq<byte>>, w: seq<byte>, client: int)
    requires AllLong(packs)
    ensures if HasPack(w) then
              |w| >= HEADER_SIZE && var n := Announced(w); n <= |w| && var packs' := packs + [w[..n]];
              && AllLong(packs') && StampAll(packs', client) == StampAll(packs, client) + [Stamp(w[..n], client)]
              && packs + Parse(w).0 == packs' + Parse(w[n..]).0 && Parse(w).1 == Parse(w[n..]).1
            else packs + Parse(w).0 == packs && Parse(w).1 == w
  {
    hide Announced, Stamp, StampAll, HasPack, Parse, AllLong;
    if !HasPack(w) {
      NothingWaits(packs, w);
    } else {
      PackWaits(w);
      var n := Announced(w);
      StampedOneMore(packs, w[..n], client);
      Regroup(packs, w[..n], Parse(w[n..]).0);
    }
  }

  lemma NoPackInNothing()
    ensures !HasPack([])
  {
  }

  lemma Regroup(packs: seq<seq<byte>>, p: seq<byte>, rest: seq<seq<byte>>)
    ensures packs + ([p] + rest) == (packs + [p]) + rest
  {
  }

  lemma PackWaits(w: seq<byte>)
    requires HasPack(w)
    ensures |w| >= HEADER_SIZE && HEADER_SIZE <= Announced(w) <= |w|
    ensures var n := Announced(w);
      Parse(w).0 == [w[..n]] + Parse(w[n..]).0 && Parse(w).1 == Parse(w[n..]).1
  {
  }

  lemma NothingWaits(packs: seq<seq<byte>>, w: seq<byte>)
    requires !HasPack(w)
    ensures packs + Parse(w).0 == packs && Parse(w).1 == w
  {
  }
}
