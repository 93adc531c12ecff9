/** The broker (logicServer) as a state machine: registries of queues and
    exchanges, messages waiting, pending or gone, and what is sent to the
    connect server and to the persistence server. Queue objects are known by
    identity, so a pointer that outlives its queue can be expressed. */
module Broker {
  import opened Bytes
  import opened CommonDefs
  import opened MessageQueues
  import opened Exchanges
  import FileNames

  /** Where a stored copy of a message is. */
  datatype Place = Waiting(queue: QueueId) | Pending | Delivered | Acked | Dropped

  /** Packets to the connect server: messages, acks to producers, replies to a
      publication that failed. */
  datatype Packet =
    | Deliver(m: Msg)
    | ServerAck(client: int, seqNo: int)
    | Reply(client: int, succeed: bool, text: string)

  /** Packets to the persistence server that concern queues and messages;
      Booted marks in the history that the broker was started again. */
  datatype Command =
    | Booted
    | MakeQueue(name: string)
    | RemoveQueue(name: string)
    | Store(name: string, index: int, priority: int, body: seq<byte>)
    | Consume(name: string, index: int)

  /** The fields of LogicServer; `queues` are the queue objects that exist.
      nextQueue, nextAddr and place are histories. */
  datatype State = State(
    queues: map<QueueId, Queue>, nextQueue: QueueId,
    unsub: map<string, QueueId>, sub: map<string, QueueId>,
    exchanges: map<string, ExchangeState>,
    needAck: seq<Msg>, ackSeq: nat, stored: set<string>,
    nextAddr: nat, place: map<nat, Place>,
    toConnect: seq<Packet>, toPersis: seq<Command>)

  const INITIAL := State(map[], 0, map[], map[], map[], [], 0, {}, 0, map[], [], [])

  // ------------------------------------------------------------ registry

  /** The queue of that name; the subscribed map is asked last. */
  function FindQueue(s: State, name: string): Option<QueueId> {
    if name in s.sub then Some(s.sub[name]) else if name in s.unsub then Some(s.unsub[name]) else None
  }

  function CreateExchange(s: State, name: string, kind: int, durable: bool, autoDel: bool): State {
    if name in s.exchanges then s
    else s.(exchanges := s.exchanges[name := ExchangeState(name, kind, durable, autoDel, map[])])
  }

  function CreateQueue(s: State, name: string, priority: int, durable: bool, autoDel: bool): State {
    if name in s.unsub || name in s.sub then s
    else
      s.(queues := s.queues[s.nextQueue := NewQueue(name, priority, durable, autoDel)],
         unsub := s.unsub[name := s.nextQueue],
         nextQueue := s.nextQueue + 1,
         toPersis := s.toPersis + (if durable then [MakeQueue(name)] else []))
  }

  function CreateBinding(s: State, exchange: string, queue: string, key: string): State {
    var q := if queue in s.unsub then Some(s.unsub[queue]) else FindQueue(s, queue);
    if exchange !in s.exchanges || q.None? then s
    else s.(exchanges := s.exchanges[exchange := Bind(s.exchanges[exchange], key, q.value)])
  }

  function CreateSubscribe(s: State, client: int, name: string, level: int): State {
    var q := FindQueue(s, name);
    if q.None? || q.value !in s.queues then s
    else
      var s' := s.(queues := s.queues[q.value := Subscribe(s.queues[q.value], client, level)]);
      if name in s.unsub then s'.(unsub := s.unsub - {name}, sub := s.sub[name := q.value]) else s'
  }

  function DeleteExchange(s: State, name: string): State {
    s.(exchanges := s.exchanges - {name})
  }

  /** An auto-delete exchange goes when the queue was its last one. */
  predicate Vanishes(e: ExchangeState, q: QueueId) {
    e.bindings != map[] && e.autoDel && DeleteBinding(e, q).bindings == map[]
  }

  /** The walk over all exchanges that deletes the bindings of a queue. */
  function WithoutQueue(es: map<string, ExchangeState>, q: QueueId): map<string, ExchangeState> {
    map n | n in es && !Vanishes(es[n], q) :: if es[n].bindings == map[] then es[n] else DeleteBinding(es[n], q)
  }

  function DropWaiting(place: map<nat, Place>, q: QueueId): map<nat, Place> {
    map a | a in place :: if place[a] == Waiting(q) then Dropped else place[a]
  }

  /** Clears and deletes a queue that is in no registry any more. */
  function DropQueue(s: State, q: QueueId): State {
    s.(queues := s.queues - {q}, exchanges := WithoutQueue(s.exchanges, q), place := DropWaiting(s.place, q))
  }

  function DeleteQueue(s: State, name: string): State {
    var q := FindQueue(s, name);
    if q.None? || q.value !in s.queues then s
    else
      var durable := s.queues[q.value].durable;
      DropQueue(s.(unsub := s.unsub - {name}, sub := s.sub - {name},
                   toPersis := s.toPersis + (if durable then [RemoveQueue(name)] else [])),
                q.value)
  }

  // ------------------------------------------------------------ messages

  datatype Publication = Publication(client: int, exchange: string, routingKey: string, priority: int,
                                     durable: bool, seqNo: int, level: int, body: seq<byte>)

  /** "client#seq", the key used to recognise repeated messages. */
  function SeqKey(client: int, seqNo: int): string {
    FileNames.ToString(client) + "#" + FileNames.ToString(seqNo)
  }

  /** One new copy of the message for queue q. */
  function StoreOne(s: State, p: Publication, q: QueueId): State {
    if q !in s.queues then s
    else
      var queue := s.queues[q];
      var persistent := p.durable && queue.durable;
      var index := if persistent then queue.nextDurable else -1;
      var m := Msg(s.nextAddr, p.body, p.priority, p.durable, index, -1, -1, 0, if persistent then queue.name else "");
      var counted := if persistent then queue.(nextDurable := index + 1) else queue;
      s.(queues := s.queues[q := Add(counted, m)],
         place := s.place[s.nextAddr := Waiting(q)],
         nextAddr := s.nextAddr + 1,
         toPersis := s.toPersis + (if persistent then [Store(queue.name, index, p.priority, p.body)] else []))
  }

  function StoreAll(s: State, p: Publication, list: seq<QueueId>): State {
    if list == [] then s else StoreOne(StoreAll(s, p, list[..|list| - 1]), p, list[|list| - 1])
  }

  predicate IsRepeat(s: State, p: Publication) {
    p.level > 0 && SeqKey(p.client, p.seqNo) in s.stored
  }

  /** A walk over all bindings of the exchange, if there is one. */
  ghost predicate IsWalk(s: State, exchange: string, order: seq<string>) {
    exchange in s.exchanges ==> Enumerates(order, s.exchanges[exchange].bindings.Keys)
  }

  /** The queues a publication goes to; none for a repeated message. */
  function Targets(s: State, p: Publication, order: seq<string>): seq<QueueId> {
    if IsRepeat(s, p) || p.exchange !in s.exchanges then [] else Find(s.exchanges[p.exchange], p.routingKey, order)
  }

  const RE_EXCHANGE_NOT_EXIST := "Exchange not exist! name is "
  const RE_FIT_QUEUE_NOT_EXIST := "Fit queue not exist! routing key is "

  /** The text of the reply to a publication that goes nowhere. */
  function Complaint(s: State, p: Publication): string {
    if p.exchange !in s.exchanges then RE_EXCHANGE_NOT_EXIST + p.exchange else RE_FIT_QUEUE_NOT_EXIST + p.routingKey
  }

  /** OnPublishMessage, and the reply that Run sends for it. The ack of a repeated
      message is addressed to client -1. */
  function Publish(s: State, p: Publication, order: seq<string>): State {
    var list := Targets(s, p, order);
    if IsRepeat(s, p) then s.(toConnect := s.toConnect + [ServerAck(-1, p.seqNo)])
    else if list == [] then s.(toConnect := s.toConnect + [Reply(p.client, false, Complaint(s, p))])
    else
      var s' := StoreAll(s, p, list);
      if p.level == PRODUCER_SINGLE_ACK then
        s'.(stored := s'.stored + {SeqKey(p.client, p.seqNo)},
            toConnect := s'.toConnect + [ServerAck(p.client, p.seqNo)])
      else if p.level == PRODUCER_MUTIL_ACK then s'.(stored := s'.stored + {SeqKey(p.client, p.seqNo)})
      else s'
  }

  /** What happens to a message popped from the queue called name. */
  function Hand(s: State, name: string, m: Msg, level: int): State {
    if level > 0 then
      var m' := m.(confirm := level, seqNo := s.ackSeq, queueName := name);
      s.(needAck := s.needAck + [m'], ackSeq := s.ackSeq + 1,
         place := s.place[m.addr := Pending], toConnect := s.toConnect + [Deliver(m')])
    else
      s.(place := s.place[m.addr := Delivered], toConnect := s.toConnect + [Deliver(m.(seqNo := -1))],
         toPersis := s.toPersis + (if m.durable then [Consume(name, m.durableIndex)] else []))
  }

  /** One round of the inner loop of PushMessage: top is the heap entry taken. */
  function PushOne(s: State, name: string, top: nat): State {
    if name !in s.sub || s.sub[name] !in s.queues then s
    else
      var id := s.sub[name];
      var q := s.queues[id];
      if !CanPop(q, true, top) || q.pushIndex < -1 then s
      else
        var (q', m) := Pop(q, true, top);
        Hand(s.(queues := s.queues[id := q']), name, m, q.confirm)
  }

  /** OnRecvMessage. */
  function Recv(s: State, client: int, name: string, level: int, top: nat): State {
    var id := FindQueue(s, name);
    if id.None? || id.value !in s.queues then s
    else
      var q := s.queues[id.value];
      if !CanPop(q, false, top) || q.pushIndex < -1 then s
      else
        var (q', m) := Pop(q, false, top);
        Hand(s.(queues := s.queues[id.value := q']), name, m.(client := client), level)
  }

  /** The first position with that sequence number, or the length. */
  function Position(ms: seq<Msg>, seqNo: int): (i: nat)
    ensures i <= |ms|
    ensures i < |ms| ==> ms[i].seqNo == seqNo
    ensures forall j :: 0 <= j < i ==> ms[j].seqNo != seqNo
  {
    if ms == [] || ms[0].seqNo == seqNo then 0 else 1 + Position(ms[1..], seqNo)
  }

  /** OnClientAck, single mode. */
  function Ack(s: State, seqNo: int): State {
    var i := Position(s.needAck, seqNo);
    if i == |s.needAck| then s
    else
      var m := s.needAck[i];
      s.(needAck := s.needAck[..i] + s.needAck[i + 1..], place := s.place[m.addr := Acked],
         toPersis := s.toPersis + (if m.durable then [Consume(m.queueName, m.durableIndex)] else []))
  }

  // ---------------------------------------------------------- client exit

  predicate HasPrefix(key: string, prefix: string) {
    prefix <= key
  }

  /** The keys that survive the exit: those that do not start with the number. */
  function Forget(stored: set<string>, client: int): set<string> {
    set k | k in stored && !HasPrefix(k, FileNames.ToString(client))
  }

  /** One queue of the walk over the subscribed queues. */
  function ExitQueue(s: State, client: int, name: string): State {
    if name !in s.sub || s.sub[name] !in s.queues then s
    else
      var id := s.sub[name];
      var q := s.queues[id];
      var q' := Unsubscribe(q, client);
      var s' := s.(queues := s.queues[id := q']);
      if |q'.subs| >= |q.subs| || q'.subs != [] then s'
      else if q.autoDel then
        DropQueue(s'.(sub := s.sub - {name},
                      toPersis := s.toPersis + (if q.durable then [RemoveQueue(name)] else [])), id)
      else s'.(sub := s.sub - {name}, unsub := s.unsub[name := id])
  }

  function ExitQueues(s: State, client: int, order: seq<string>): State {
    if order == [] then s
    else ExitQueue(ExitQueues(s, client, order[..|order| - 1]), client, order[|order| - 1])
  }

  /** One pending message of the client goes back to the front of its queue,
      or is lost when there is no queue of that name. */
  function GiveBack(s: State, m: Msg): State {
    var id := FindQueue(s, m.queueName);
    if id.None? || id.value !in s.queues then s.(place := s.place[m.addr := Dropped])
    else
      s.(queues := s.queues[id.value := AddFront(s.queues[id.value], m)],
         place := s.place[m.addr := Waiting(id.value)])
  }

  function GiveBackAll(s: State, client: int, ms: seq<Msg>): State {
    if ms == [] then s
    else
      var m := ms[|ms| - 1];
      var s' := GiveBackAll(s, client, ms[..|ms| - 1]);
      if m.client == client then GiveBack(s', m) else s'
  }

  function Kept(ms: seq<Msg>, client: int): (ks: seq<Msg>)
  {
    if ms == [] then []
    else
      var m := ms[|ms| - 1];
      Kept(ms[..|ms| - 1], client) + (if m.client == client then [] else [m])
  }

  /** OnClientExit; order is the walk over the subscribed queues. */
  function ClientExit(s: State, client: int, order: seq<string>): State {
    var s' := ExitQueues(s.(stored := Forget(s.stored, client)), client, order);
    GiveBackAll(s', client, s'.needAck).(needAck := Kept(s'.needAck, client))
  }

  // ----------------------------------------------------------------- runs

  /** Requests from clients, and single pushes of PushMessage. */
  datatype Event =
    | EvCreateExchange(name: string, kind: int, durable: bool, autoDel: bool)
    | EvCreateQueue(name: string, priority: int, durable: bool, autoDel: bool)
    | EvCreateBinding(exchange: string, queue: string, key: string)
    | EvSubscribe(client: int, name: string, level: nat)
    | EvDeleteExchange(name: string)
    | EvDeleteQueue(name: string)
    | EvPublish(p: Publication, order: seq<string>)
    | EvPush(name: string, top: nat)
    | EvRecv(client: int, name: string, level: nat, top: nat)
    | EvAck(seqNo: int)
    | EvExit(client: int, order: seq<string>)

  function Step(s: State, e: Event): State {
    match e
    case EvCreateExchange(name, kind, durable, autoDel) => CreateExchange(s, name, kind, durable, autoDel)
    case EvCreateQueue(name, priority, durable, autoDel) => CreateQueue(s, name, priority, durable, autoDel)
    case EvCreateBinding(exchange, queue, key) => CreateBinding(s, exchange, queue, key)
    case EvSubscribe(client, name, level) => CreateSubscribe(s, client, name, level)
    case EvDeleteExchange(name) => DeleteExchange(s, name)
    case EvDeleteQueue(name) => DeleteQueue(s, name)
    case EvPublish(p, order) => Publish(s, p, order)
    case EvPush(name, top) => PushOne(s, name, top)
    case EvRecv(client, name, level, top) => Recv(s, client, name, level, top)
    case EvAck(seqNo) => Ack(s, seqNo)
    case EvExit(client, order) => ClientExit(s, client, order)
  }

  function Run(events: seq<Event>): State {
    if events == [] then INITIAL else Step(Run(events[..|events| - 1]), events[|events| - 1])
  }
}
