/** The packs a producer gets, acks and replies, and the number it reads in
    each: the four bytes behind the header, whatever the command is. */
module ServerPacks {
  import opened Bytes
  import opened CommonDefs
  import opened Broker
  import Framing
  import SendBatch

  /** A header and a number. */
  const ACK_SIZE := 12

  function Chars(text: string): (b: seq<byte>)
    ensures |b| == |text|
  {
    seq(|text|, i requires 0 <= i < |text| => text[i] as int % 256)
  }

  /** ServerAckMessage::GetMessagePack. */
  function AckBytes(client: int, seqNo: int): seq<byte> {
    EncodeShort(ACK_SIZE) + EncodeInt(client) + EncodeShort(CMD_SERVER_ACK_MESSAGE) + EncodeInt(seqNo)
  }

  /** ActReplyMessage::GetMessagePack: the flag, the text and a NUL. */
  function ReplyBytes(client: int, succeed: bool, text: string): seq<byte> {
    EncodeShort(HEADER_SIZE + 1 + |text| + 1) + EncodeInt(client) + EncodeShort(CMD_SERVER_REPLY_MESSAGE)
      + [if succeed then 1 else 0] + Chars(text) + [0]
  }

  /** What RecvServerAck reads in a pack. */
  function NumberIn(pack: seq<byte>): int
    requires |pack| >= ACK_SIZE
  {
    DecodeInt(pack[HEADER_SIZE..ACK_SIZE])
  }

  predicate AllReadable(packs: seq<seq<byte>>) {
    forall i :: 0 <= i < |packs| ==> |packs[i]| >= ACK_SIZE
  }

  function NumbersIn(packs: seq<seq<byte>>): set<int>
    requires AllReadable(packs)
  {
    set i | 0 <= i < |packs| :: NumberIn(packs[i])
  }

  function CharAt(text: string, i: nat): byte {
    if i < |text| then text[i] as int % 256 else 0
  }

  /** A reply as a number: flag and first three characters. */
  function ReplyNumber(succeed: bool, text: string): int {
    (if succeed then 0x100_0000 else 0) + CharAt(text, 0) * 0x1_0000 + CharAt(text, 1) * 0x100 + CharAt(text, 2)
  }

  /** An ack goes to its client, which reads the number it was made with. */
  lemma AckReadsBack(client: int, seqNo: int)
    requires IsInt(client) && IsInt(seqNo)
    ensures var pack := AckBytes(client, seqNo);
      && Framing.WholePack(pack) && |pack| == ACK_SIZE && NumberIn(pack) == seqNo
      && forall c :: SendBatch.GoesTo(pack, c) <==> c == client
  {
    hide EncodeShort, EncodeInt, DecodeShort, DecodeInt;
    var pack := AckBytes(client, seqNo);
    assert pack[..2] == EncodeShort(ACK_SIZE);
    assert pack[2..6] == EncodeInt(client);
    assert pack[6..8] == EncodeShort(CMD_SERVER_ACK_MESSAGE);
    assert pack[8..12] == EncodeInt(seqNo);
    ShortRoundTrip(ACK_SIZE);
    ShortRoundTrip(CMD_SERVER_ACK_MESSAGE);
    IntRoundTrip(client);
    IntRoundTrip(seqNo);
  }

  lemma FourBytes(a: byte, b: byte, c: byte, d: byte)
    requires a < 2
    ensures DecodeInt([a, b, c, d]) == a * 0x100_0000 + b * 0x1_0000 + c * 0x100 + d
  {
    var s := [a, b, c, d];
    assert s[..2] == [a, b] && s[2..] == [c, d];
  }

  /** A reply goes to its client too, which reads a number in the flag and the
      first three characters of the text. */
  lemma ReplyReadsAsNumber(client: int, succeed: bool, text: string)
    requires IsInt(client) && 2 <= |text| && HEADER_SIZE + |text| + 2 < SHORT_LIMIT
    ensures var pack := ReplyBytes(client, succeed, text);
      && Framing.WholePack(pack) && |pack| >= ACK_SIZE && NumberIn(pack) == ReplyNumber(succeed, text)
      && forall c :: SendBatch.GoesTo(pack, c) <==> c == client
  {
    hide EncodeShort, EncodeInt, DecodeShort, DecodeInt, Chars;
    var pack := ReplyBytes(client, succeed, text);
    assert pack[..2] == EncodeShort(HEADER_SIZE + 1 + |text| + 1);
    assert pack[2..6] == EncodeInt(client);
    assert pack[6..8] == EncodeShort(CMD_SERVER_REPLY_MESSAGE);
    ShortRoundTrip(HEADER_SIZE + 1 + |text| + 1);
    ShortRoundTrip(CMD_SERVER_REPLY_MESSAGE);
    IntRoundTrip(client);
    ReplyFront(client, succeed, text);
    FourBytes(if succeed then 1 else 0, CharAt(text, 0), CharAt(text, 1), CharAt(text, 2));
  }

  lemma ReplyFront(client: int, succeed: bool, text: string)
    requires 2 <= |text|
    ensures var pack := ReplyBytes(client, succeed, text);
      |pack| == HEADER_SIZE + |text| + 2
      && pack[8..12] == [if succeed then 1 else 0, CharAt(text, 0), CharAt(text, 1), CharAt(text, 2)]
  {
    hide EncodeShort, EncodeInt;
    var pack, flag := ReplyBytes(client, succeed, text), if succeed then 1 else 0;
    assert pack[8] == flag && forall i :: 0 <= i < |text| ==> pack[9 + i] == Chars(text)[i];
    assert pack[9 + |text|] == 0;
  }

  // ------------------------------------------- the two replies to publications

  const NO_EXCHANGE_NUMBER := 4552803
  const NO_QUEUE_NUMBER := 4614516

  predicate IsReplyNumber(n: int) {
    n == NO_EXCHANGE_NUMBER || n == NO_QUEUE_NUMBER
  }

  /** The reply to a publication that goes nowhere is read as one of these. */
  lemma ComplaintsReadAs(s: State, p: Publication)
    ensures ReplyNumber(false, Complaint(s, p))
         == if p.exchange !in s.exchanges then NO_EXCHANGE_NUMBER else NO_QUEUE_NUMBER
  {
    var text := Complaint(s, p);
    if p.exchange !in s.exchanges {
      assert text[0] == 'E' && text[1] == 'x' && text[2] == 'c';
    } else {
      assert text[0] == 'F' && text[1] == 'i' && text[2] == 't';
    }
  }

  // --------------------------------------------------- what a producer has got

  /** The bytes received are whole packs with a number, and the front of such a
      pack. */
  predicate FromServer(stream: seq<byte>) {
    AllReadable(Framing.Parse(stream).0) && !Framing.Stuck(Framing.Parse(stream).1)
  }

  /** Whatever part of a stream of acks and replies has arrived. */
  lemma ServerStreamIsReadable(packs: seq<seq<byte>>, arrived: seq<byte>)
    requires AllReadable(packs) && forall i :: 0 <= i < |packs| ==> Framing.WholePack(packs[i])
    requires arrived <= Framing.Join(packs)
    ensures FromServer(arrived) && Framing.Parse(arrived).0 <= packs
  {
    hide Framing.Parse, Framing.WholePack, Framing.Stuck;
    var all := Framing.Join(packs);
    var later := all[|arrived|..];
    assert arrived + later == all && all + [] == all;
    Framing.NoPackInNothing();
    Framing.ParseOfPacks(packs, []);
    Framing.ParseResumes(arrived, later);
    var got := Framing.Parse(arrived).0;
    assert forall i :: 0 <= i < |got| ==> got[i] == packs[i];
    if Framing.Stuck(Framing.Parse(arrived).1) {
      Framing.LeftoverIsShort(arrived, later);
      StuckIsLong(Framing.Parse(arrived).1);
    }
  }

  lemma StuckIsLong(s: seq<byte>)
    requires Framing.Stuck(s)
    ensures |s| >= HEADER_SIZE
  {
  }
}
