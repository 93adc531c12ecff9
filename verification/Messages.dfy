/** The packers: fields written into a buffer through an advancing pointer, and
    what the receiver reads back from them. */
module Messages {
  import opened Bytes
  import opened CommonDefs
  import opened Records
  import Framing
  import SendBatch

  const SUCCESS := 0
  const ERROR := -1
  const ERR_MSG_NAME_TOO_LONG := -500
  const ERR_MSG_BUF_TOO_SMALL := -501

  /** The fields of a CreatePublishMessage. */
  datatype PublishMessage = PublishMessage(exchange: seq<byte>, key: seq<byte>, priority: int, durable: bool,
                                           seqNo: int, level: byte, body: seq<byte>)

  predicate Name(s: seq<byte>) {
    |s| < MAX_NAME_LENGTH && 0 !in s
  }

  predicate Sendable(m: PublishMessage) {
    Name(m.exchange) && Name(m.key) && IsShort(m.priority) && IsInt(m.seqNo)
  }

  function Flag(b: bool): byte {
    if b then 1 else 0
  }

  /** A packed message; the gaps behind the names are whatever the buffer held. */
  function PublishBytes(m: PublishMessage, index: int, gap1: seq<byte>, gap2: seq<byte>): seq<byte> {
    EncodeShort(PUBLISH_HEADER + |m.body|) + EncodeInt(index) + EncodeShort(CMD_CREATE_PUBLISH)
      + (m.exchange + gap1) + (m.key + gap2)
      + EncodeShort(m.priority) + [Flag(m.durable)] + EncodeInt(m.seqNo) + [m.level] + m.body
  }

  /** What OnPublishMessage reads. */
  function ReadPublish(pack: seq<byte>): PublishMessage
    requires |pack| >= PUBLISH_HEADER
  {
    PublishMessage(CString(pack[8..40]), CString(pack[40..72]), DecodeSignedShort(pack[72..74]), pack[74] != 0,
                   DecodeInt(pack[75..79]), pack[79], pack[80..])
  }

  /** The message is read as it was sent exactly when both names are followed
      by a NUL in the buffer: always when the buffer was zeroed, as for the first
      sending, and by chance when it was not, as for a resend. */
  lemma PublishRoundTrip(m: PublishMessage, index: int, gap1: seq<byte>, gap2: seq<byte>)
    requires Sendable(m) && PUBLISH_HEADER + |m.body| < SHORT_LIMIT
    requires |gap1| == MAX_NAME_LENGTH - |m.exchange| && |gap2| == MAX_NAME_LENGTH - |m.key|
    ensures var pack := PublishBytes(m, index, gap1, gap2);
      && |pack| == PUBLISH_HEADER + |m.body| == DecodeShort(pack[..2])
      && (ReadPublish(pack) == m <==> gap1[0] == 0 && gap2[0] == 0)
      && ReadPublish(pack).body == m.body && ReadPublish(pack).seqNo == m.seqNo
      && m.exchange <= ReadPublish(pack).exchange && m.key <= ReadPublish(pack).key
  {
    hide EncodeShort, EncodeInt, DecodeShort, DecodeInt, DecodeSignedShort, CString;
    var pack := PublishBytes(m, index, gap1, gap2);
    assert pack[..2] == EncodeShort(PUBLISH_HEADER + |m.body|);
    assert pack[8..40] == m.exchange + gap1;
    assert pack[40..72] == m.key + gap2;
    assert pack[72..74] == EncodeShort(m.priority);
    assert pack[75..79] == EncodeInt(m.seqNo);
    assert pack[80..] == m.body;
    ShortRoundTrip(PUBLISH_HEADER + |m.body|);
    ShortRoundTrip(m.priority);
    IntRoundTrip(m.seqNo);
    CStringReadsBack(m.exchange, gap1);
    CStringReadsBack(m.key, gap2);
  }

  /** The connect server's stamp changes nothing that the broker reads. */
  lemma StampedReadsTheSame(pack: seq<byte>, client: int)
    requires Framing.WholePack(pack) && |pack| >= PUBLISH_HEADER && IsInt(client)
    ensures ReadPublish(Framing.Stamp(pack, client)) == ReadPublish(pack)
  {
    hide DecodeInt, DecodeShort, EncodeInt, CString;
    Framing.StampIsIndex(pack, client);
    var p := Framing.Stamp(pack, client);
    assert forall i :: 6 <= i < |pack| ==> p[i] == p[6..][i - 6] == pack[6..][i - 6] == pack[i];
    assert p[8..40] == pack[8..40] && p[40..72] == pack[40..72] && p[72..74] == pack[72..74];
    assert p[75..79] == pack[75..79] && p[80..] == pack[80..];
  }

  // ------------------------------------------------------------ the packers

  /** The pointer is at `at`: the buffer starts with the bytes written so far,
      the rest is as it was before. */
  ghost predicate Written(b: seq<byte>, before: seq<byte>, at: nat, bytes: seq<byte>) {
    |b| == |before| && at <= |b| && b[..at] == bytes && b[at..] == before[at..]
  }

  lemma MoreWritten(b: seq<byte>, before: seq<byte>, at: nat, done: seq<byte>, bytes: seq<byte>, b': seq<byte>)
    requires Written(b, before, at, done) && at + |bytes| <= |b| && b' == Splice(b, at, bytes)
    ensures Written(b', before, at + |bytes|, done + bytes)
  {
    var next := at + |bytes|;
    assert b'[..next] == b[..at] + bytes;
    assert b'[next..] == b[next..] == b[at..][|bytes|..];
    assert before[next..] == before[at..][|bytes|..];
  }

  lemma Skipped(b: seq<byte>, before: seq<byte>, at: nat, done: seq<byte>, next: nat)
    requires Written(b, before, at, done) && at <= next <= |b|
    ensures Written(b, before, next, done + before[at..next])
  {
    assert b[..next] == b[..at] + b[at..][..next - at];
    assert before[at..next] == before[at..][..next - at];
    assert b[next..] == b[at..][next - at..] && before[next..] == before[at..][next - at..];
  }

  /** WriteBuf, and behind the encoded bytes also WriteShort, WriteInt,
      WriteBool and WriteByte; the result is the advanced pointer. */
  method Write(buf: array<byte>, at: nat, bytes: seq<byte>, ghost before: seq<byte>, ghost done: seq<byte>)
    returns (next: nat)
    requires at + |bytes| <= buf.Length && Written(buf[..], before, at, done)
    modifies buf
    ensures next == at + |bytes| && Written(buf[..], before, next, done + bytes)
  {
    ghost var b := buf[..];
    forall k | 0 <= k < |bytes| {
      buf[at + k] := bytes[k];
    }
    next := at + |bytes|;
    assert buf[..] == Splice(b, at, bytes);
    MoreWritten(b, before, at, done, bytes, buf[..]);
  }

  /** Writes a name and moves the pointer over its whole field. */
  method WriteName(buf: array<byte>, at: nat, name: seq<byte>, ghost before: seq<byte>, ghost done: seq<byte>)
    returns (next: nat)
    requires |name| <= MAX_NAME_LENGTH && at + MAX_NAME_LENGTH <= buf.Length == |before|
    requires Written(buf[..], before, at, done)
    modifies buf
    ensures next == at + MAX_NAME_LENGTH
    ensures Written(buf[..], before, next, done + (name + before[at + |name|..next]))
  {
    hide Written;
    next := at + MAX_NAME_LENGTH;
    var after := Write(buf, at, name, before, done);
    Skipped(buf[..], before, after, done + name, next);
    assert (done + name) + before[after..next] == done + (name + before[after..next]);
  }

  method WriteHeader(buf: array<byte>, len: int, index: int, cmd: int, ghost before: seq<byte>)
    requires HEADER_SIZE <= buf.Length && buf[..] == before
    modifies buf
    ensures Written(buf[..], before, HEADER_SIZE, EncodeShort(len) + EncodeInt(index) + EncodeShort(cmd))
  {
    hide EncodeShort, EncodeInt;
    assert Written(buf[..], before, 0, []);
    hide Written;
    var at := Write(buf, 0, EncodeShort(len), before, []);
    assert [] + EncodeShort(len) == EncodeShort(len);
    at := Write(buf, at, EncodeInt(index), before, EncodeShort(len));
    at := Write(buf, at, EncodeShort(cmd), before, EncodeShort(len) + EncodeInt(index));
  }

  /** iMsgLen, an unsigned short. */
  function PackLength(size: nat): (len: nat)
    ensures size < SHORT_LIMIT ==> len == size
  {
    size % SHORT_LIMIT
  }

  /** CreatePublishMessage::GetMessagePack; the buffer keeps its old bytes in
      the gaps behind the names and behind what is written. A length that wraps
      round and then seems to fit would make the source write past the buffer. */
  method PackPublish(m: PublishMessage, index: int, buf: array<byte>) returns (ret: int, len: nat)
    requires buf.Length < SHORT_LIMIT
    requires PackLength(PUBLISH_HEADER + |m.body|) <= buf.Length ==> PUBLISH_HEADER + |m.body| <= buf.Length
    modifies buf
    ensures ret == (if |m.exchange| > MAX_NAME_LENGTH || |m.key| > MAX_NAME_LENGTH then ERR_MSG_NAME_TOO_LONG
                    else if buf.Length < PackLength(PUBLISH_HEADER + |m.body|) then ERR_MSG_BUF_TOO_SMALL
                    else SUCCESS)
    ensures ret != SUCCESS ==> buf[..] == old(buf[..])
    ensures ret == SUCCESS ==> (
      && len == PUBLISH_HEADER + |m.body|
      && Written(buf[..], old(buf[..]), len,
                 PublishBytes(m, index, old(buf[..])[8 + |m.exchange|..40], old(buf[..])[40 + |m.key|..72])))
  {
    hide EncodeShort, EncodeInt, Written;
    len := PackLength(PUBLISH_HEADER + |m.body|);
    if |m.exchange| > MAX_NAME_LENGTH || |m.key| > MAX_NAME_LENGTH {
      return ERR_MSG_NAME_TOO_LONG, 0;
    }
    if buf.Length < len {
      return ERR_MSG_BUF_TOO_SMALL, 0;
    }
    ghost var before := buf[..];
    WriteHeader(buf, len, index, CMD_CREATE_PUBLISH, before);
    ghost var done := EncodeShort(len) + EncodeInt(index) + EncodeShort(CMD_CREATE_PUBLISH);
    var at := WriteName(buf, HEADER_SIZE, m.exchange, before, done);
    done := done + (m.exchange + before[8 + |m.exchange|..40]);
    at := WriteName(buf, at, m.key, before, done);
    done := done + (m.key + before[40 + |m.key|..72]);
    at := Write(buf, at, EncodeShort(m.priority), before, done);
    done := done + EncodeShort(m.priority);
    at := Write(buf, at, [Flag(m.durable)], before, done);
    done := done + [Flag(m.durable)];
    at := Write(buf, at, EncodeInt(m.seqNo), before, done);
    done := done + EncodeInt(m.seqNo);
    at := Write(buf, at, [m.level], before, done);
    done := done + [m.level];
    at := Write(buf, at, m.body, before, done);
    ret := SUCCESS;
  }

  /** SerializeDurableToString into a zeroed buffer writes the record that
      recovery reads. */
  method SerializeDurableToString(name: seq<byte>, r: Record, buf: array<byte>) returns (ret: int, len: nat)
    requires |name| < MAX_NAME_LENGTH && buf.Length < SHORT_LIMIT && buf[..] == Zeros(buf.Length)
    requires PackLength(RECORD_HEADER + |r.body|) <= buf.Length ==> RECORD_HEADER + |r.body| <= buf.Length
    modifies buf
    ensures ret == if PackLength(RECORD_HEADER + |r.body|) > buf.Length then ERROR else SUCCESS
    ensures ret == SUCCESS ==> len == RECORD_HEADER + |r.body| && buf[..len] == Encode(name, r)
  {
    hide EncodeShort, EncodeInt;
    len := PackLength(RECORD_HEADER + |r.body|);
    if len > buf.Length {
      return ERROR, 0;
    }
    ghost var before := buf[..];
    assert Written(buf[..], before, 0, []);
    hide Written;
    var at := Write(buf, 0, EncodeShort(len), before, []);
    ghost var done := [] + EncodeShort(len);
    at := Write(buf, at, EncodeShort(CMD_CREATE_PUBLISH), before, done);
    done := done + EncodeShort(CMD_CREATE_PUBLISH);
    at := WriteName(buf, at, name, before, done);
    assert before[4 + |name|..36] == Zeros(MAX_NAME_LENGTH - |name|);
    done := done + NameField(name);
    at := Write(buf, at, EncodeInt(r.index), before, done);
    done := done + EncodeInt(r.index);
    at := Write(buf, at, EncodeShort(r.priority), before, done);
    done := done + EncodeShort(r.priority);
    at := Write(buf, at, r.body, before, done);
    done := done + r.body;
    WrittenPrefix(buf[..], before, at, done);
    assert [] + EncodeShort(len) == EncodeShort(len);
    ret := SUCCESS;
  }

  lemma WrittenPrefix(b: seq<byte>, before: seq<byte>, at: nat, bytes: seq<byte>)
    requires Written(b, before, at, bytes)
    ensures at <= |b| && b[..at] == bytes
  {
  }

  // ------------------------------------------------------ packs to clients

  /** SeverStoreMessage::GetMessagePack: header, ack level, number, body. */
  function DeliveryBytes(cmd: int, client: int, level: byte, seqNo: int, body: seq<byte>): seq<byte> {
    EncodeShort(13 + |body|) + EncodeInt(client) + EncodeShort(cmd) + [level] + EncodeInt(seqNo) + body
  }

  /** The connect server sends it to the client it is for, as a whole, and
      level, number and body are read as they were written. */
  lemma DeliveryReaches(cmd: int, client: int, level: byte, seqNo: int, body: seq<byte>)
    requires IsInt(client) && IsInt(seqNo) && 13 + |body| < SHORT_LIMIT
    requires cmd == CMD_CLIENT_PULL_MESSAGE || cmd == CMD_SERVER_PUSH_MESSAGE
    ensures var pack := DeliveryBytes(cmd, client, level, seqNo, body);
      && DecodeShort(pack[..2]) == |pack| && (forall c :: SendBatch.GoesTo(pack, c) <==> c == client)
      && pack[8] == level && DecodeInt(pack[9..13]) == seqNo && pack[13..] == body
  {
    hide EncodeShort, EncodeInt, DecodeShort, DecodeInt;
    var pack := DeliveryBytes(cmd, client, level, seqNo, body);
    assert pack[..2] == EncodeShort(13 + |body|);
    assert pack[2..6] == EncodeInt(client);
    assert pack[6..8] == EncodeShort(cmd);
    assert pack[9..13] == EncodeInt(seqNo);
    assert pack[13..] == body;
    ShortRoundTrip(13 + |body|);
    ShortRoundTrip(cmd);
    IntRoundTrip(client);
    IntRoundTrip(seqNo);
  }
}
