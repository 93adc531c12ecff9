/** The logic server as a class whose handlers update its maps and lists; each
    handler is proved to do what Broker says. */
module LogicServers {
  import opened CommonDefs
  import opened MessageQueues
  import opened Exchanges
  import opened Broker
  import opened BrokerInvariant
  import FileNames

  const SUCCESS := 0
  const ERR_LOGIC_SERVER_CREATE_BINDING := -705
  const ERR_LOGIC_SERVER_PUBLISH_MESSAGE := -706
  const ERR_LOGIC_SERVER_RECV_MESSAGE := -707
  const ERR_LOGIC_SERVER_CREATE_SUBSCRIBE := -708
  const ERR_LOGIC_SERVER_DELETE_EXCHANGE := -709
  const ERR_LOGIC_SERVER_DELETE_QUEUE := -710

  class LogicServer {
    /** The queue objects, by identity. */
    var queues: map<QueueId, Queue>
    var unSubscribeQueues: map<string, QueueId>
    var subscribeQueues: map<string, QueueId>
    var exchanges: map<string, ExchangeState>
    var needAckMessageList: seq<Msg>
    var ackSeq: nat
    var producerMsgSeqs: set<string>
    var queueToConnect: seq<Packet>
    var queueToPersis: seq<Command>
    /** Identities for the next queue and the next message object. */
    var nextQueue: QueueId
    var nextAddr: nat
    ghost var place: map<nat, Place>

    ghost function State(): State
      reads this
    {
      Broker.State(queues, nextQueue, unSubscribeQueues, subscribeQueues, exchanges, needAckMessageList, ackSeq,
                   producerMsgSeqs, nextAddr, place, queueToConnect, queueToPersis)
    }

    ghost predicate Valid()
      reads this
    {
      Inv(State())
    }

    constructor ()
      ensures Valid() && State() == INITIAL
    {
      queues, unSubscribeQueues, subscribeQueues, exchanges := map[], map[], map[], map[];
      needAckMessageList, ackSeq, producerMsgSeqs := [], 0, {};
      queueToConnect, queueToPersis := [], [];
      nextQueue, nextAddr, place := 0, 0, map[];
      new;
      InitiallyPlaced();
    }

    // ---------------------------------------------------------- registry

    method OnCreateExchange(name: string, kind: int, durable: bool, autoDel: bool) returns (ret: int)
      requires Valid()
      modifies this
      ensures Valid() && State() == CreateExchange(old(State()), name, kind, durable, autoDel)
      ensures ret == SUCCESS
    {
      hide Inv;
      NewExchangeKeeps(State(), name, kind, durable, autoDel);
      if name !in exchanges {
        exchanges := exchanges[name := ExchangeState(name, kind, durable, autoDel, map[])];
      }
      ret := SUCCESS;
    }

    method OnCreateQueue(name: string, priority: int, durable: bool, autoDel: bool) returns (ret: int)
      requires Valid()
      modifies this
      ensures Valid() && State() == CreateQueue(old(State()), name, priority, durable, autoDel)
      ensures ret == SUCCESS
    {
      hide Inv;
      NewQueueKeeps(State(), name, priority, durable, autoDel);
      if name !in unSubscribeQueues && name !in subscribeQueues {
        queues := queues[nextQueue := NewQueue(name, priority, durable, autoDel)];
        unSubscribeQueues := unSubscribeQueues[name := nextQueue];
        nextQueue := nextQueue + 1;
        queueToPersis := queueToPersis + (if durable then [MakeQueue(name)] else []);
      }
      ret := SUCCESS;
    }

    /** The look-up every handler starts with. */
    method FindByName(name: string) returns (found: Option<QueueId>)
      requires Valid()
      ensures found == FindQueue(State(), name)
      ensures found.Some? ==> found.value in queues && queues[found.value].name == name
                              && SoundQueue(queues[found.value])
    {
      FoundByName(State(), name);
      found := None;
      if name in unSubscribeQueues {
        found := Some(unSubscribeQueues[name]);
      }
      if name in subscribeQueues {
        found := Some(subscribeQueues[name]);
      }
    }

    method OnCreateBinding(exchange: string, queue: string, key: string) returns (ret: int)
      requires Valid()
      modifies this
      ensures Valid() && State() == CreateBinding(old(State()), exchange, queue, key)
      ensures ret == if exchange in exchanges && FindQueue(State(), queue).Some? then SUCCESS
                     else ERR_LOGIC_SERVER_CREATE_BINDING
    {
      hide Inv;
      NewBindingKeeps(State(), exchange, queue, key);
      var found := None;
      if queue in unSubscribeQueues {
        found := Some(unSubscribeQueues[queue]);
      } else if queue in subscribeQueues {
        found := Some(subscribeQueues[queue]);
      }
      if exchange !in exchanges || found.None? {
        return ERR_LOGIC_SERVER_CREATE_BINDING;
      }
      exchanges := exchanges[exchange := Bind(exchanges[exchange], key, found.value)];
      ret := SUCCESS;
    }

    method OnCreateSubscribe(client: int, name: string, level: nat) returns (ret: int)
      requires Valid()
      modifies this
      ensures Valid() && State() == CreateSubscribe(old(State()), client, name, level)
      ensures ret == if FindQueue(State(), name).Some? then SUCCESS else ERR_LOGIC_SERVER_CREATE_SUBSCRIBE
      ensures ret == SUCCESS ==>
        && name in subscribeQueues && subscribeQueues[name] in queues
        && client in queues[subscribeQueues[name]].subs && queues[subscribeQueues[name]].confirm == level
    {
      hide Inv;
      SubscribeKeeps(State(), client, name, level);
      var found := FindByName(name);
      if found.None? {
        return ERR_LOGIC_SERVER_CREATE_SUBSCRIBE;
      }
      var isSub := name !in unSubscribeQueues;
      queues := queues[found.value := Subscribe(queues[found.value], client, level)];
      if !isSub {
        unSubscribeQueues := unSubscribeQueues - {name};
        subscribeQueues := subscribeQueues[name := found.value];
      }
      ret := SUCCESS;
    }

    method OnDeleteExchange(name: string) returns (ret: int)
      requires Valid()
      modifies this
      ensures Valid() && State() == DeleteExchange(old(State()), name)
      ensures ret == if name in old(exchanges) then SUCCESS else ERR_LOGIC_SERVER_DELETE_EXCHANGE
    {
      hide Inv;
      DropExchangeKeeps(State(), name);
      if name !in exchanges {
        assert exchanges - {name} == exchanges;
        return ERR_LOGIC_SERVER_DELETE_EXCHANGE;
      }
      exchanges := exchanges - {name};
      ret := SUCCESS;
    }

    /** The walk over all exchanges that deletes the bindings of a queue. */
    method DeleteBindings(q: QueueId)
      modifies this`exchanges
      ensures exchanges == WithoutQueue(old(exchanges), q)
    {
      hide Others;
      ghost var before := exchanges;
      var todo := exchanges.Keys;
      while todo != {}
        invariant todo <= exchanges.Keys <= before.Keys
        invariant forall n :: n in todo ==> exchanges[n] == before[n]
        invariant forall n :: n in before && n !in todo ==> (n in exchanges <==> n in WithoutQueue(before, q))
        invariant forall n :: n in exchanges && n !in todo ==> exchanges[n] == WithoutQueue(before, q)[n]
        decreases todo
      {
        var n :| n in todo;
        todo := todo - {n};
        if exchanges[n].bindings != map[] {
          var e := DeleteBinding(exchanges[n], q);
          if e.bindings == map[] && e.autoDel {
            exchanges := exchanges - {n};
          } else {
            exchanges := exchanges[n := e];
          }
        }
      }
    }

    /** What both ways of deleting a queue do once it is in no registry. */
    method EraseQueue(q: QueueId)
      requires q in queues
      modifies this
      ensures State() == DropQueue(old(State()), q)
      ensures subscribeQueues == old(subscribeQueues)
    {
      hide WithoutQueue, DropWaiting;
      place := DropWaiting(place, q);
      DeleteBindings(q);
      queues := queues - {q};
    }

    method OnDeleteQueue(name: string) returns (ret: int)
      requires Valid()
      modifies this
      ensures Valid() && State() == DeleteQueue(old(State()), name)
      ensures ret == if FindQueue(old(State()), name).Some? then SUCCESS else ERR_LOGIC_SERVER_DELETE_QUEUE
    {
      hide Inv, DropQueue, FindQueue;
      DeleteQueueKeeps(State(), name);
      var found := FindByName(name);
      if found.None? {
        return ERR_LOGIC_SERVER_DELETE_QUEUE;
      }
      unSubscribeQueues := unSubscribeQueues - {name};
      subscribeQueues := subscribeQueues - {name};
      queueToPersis := queueToPersis + (if queues[found.value].durable then [RemoveQueue(name)] else []);
      EraseQueue(found.value);
      ret := SUCCESS;
    }

    // ---------------------------------------------------------- messages

    method OnPublishMessage(p: Publication) returns (ret: int, ghost order: seq<string>)
      requires Valid()
      modifies this
      ensures Valid() && State() == Publish(old(State()), p, order)
      ensures p.exchange in old(exchanges) ==> Enumerates(order, old(exchanges)[p.exchange].bindings.Keys)
      ensures ret == if IsRepeat(old(State()), p) || Targets(old(State()), p, order) != [] then SUCCESS
                     else ERR_LOGIC_SERVER_PUBLISH_MESSAGE
    {
      hide Inv, Registry, SeqKey, StoreAll, Find, Enumerates;
      ghost var s := State();
      order := [];
      var strMsgSeq := SeqKey(p.client, p.seqNo);
      if p.level > 0 && strMsgSeq in producerMsgSeqs {
        queueToConnect := queueToConnect + [ServerAck(-1, p.seqNo)];
        if p.exchange in exchanges {
          order := SomeOrder(exchanges[p.exchange].bindings.Keys);
        }
        PublishKeeps(s, p, order);
        return SUCCESS, order;
      }
      if p.exchange !in exchanges {
        PublishKeeps(s, p, order);
        queueToConnect := queueToConnect + [Reply(p.client, false, RE_EXCHANGE_NOT_EXIST + p.exchange)];
        return ERR_LOGIC_SERVER_PUBLISH_MESSAGE, order;
      }
      var msgQueueList;
      msgQueueList, order := FindBound(exchanges[p.exchange], p.routingKey);
      PublishKeeps(s, p, order);
      if msgQueueList == [] {
        queueToConnect := queueToConnect + [Reply(p.client, false, RE_FIT_QUEUE_NOT_EXIST + p.routingKey)];
        return ERR_LOGIC_SERVER_PUBLISH_MESSAGE, order;
      }
      InvHasRegistry(s);
      TargetsExist(s, p, order);
      StoreInAll(p, msgQueueList);
      if p.level == PRODUCER_SINGLE_ACK {
        queueToConnect := queueToConnect + [ServerAck(p.client, p.seqNo)];
        producerMsgSeqs := producerMsgSeqs + {strMsgSeq};
      }
      if p.level == PRODUCER_MUTIL_ACK {
        producerMsgSeqs := producerMsgSeqs + {strMsgSeq};
      }
      ret := SUCCESS;
    }

    /** The loop over the queues a publication goes to. */
    method StoreInAll(p: Publication, list: seq<QueueId>)
      requires forall i :: 0 <= i < |list| ==> list[i] in queues
      modifies this
      ensures State() == StoreAll(old(State()), p, list)
    {
      hide StoreOne;
      var i := 0;
      assert list[..0] == [];
      while i < |list|
        invariant 0 <= i <= |list|
        invariant State() == StoreAll(old(State()), p, list[..i])
        invariant queues.Keys == old(queues).Keys
      {
        assert list[..i + 1][..i] == list[..i];
        StoreInOne(p, list[i]);
        i := i + 1;
      }
      assert list[..i] == list;
    }

    method StoreInOne(p: Publication, id: QueueId)
      requires id in queues
      modifies this
      ensures State() == StoreOne(old(State()), p, id) && queues.Keys == old(queues).Keys
    {
      hide Add;
      var q := queues[id];
      var m := Msg(nextAddr, p.body, p.priority, p.durable, -1, -1, -1, 0, "");
      nextAddr := nextAddr + 1;
      if p.durable && q.durable {
        m := m.(durableIndex := q.nextDurable, queueName := q.name);
        q := q.(nextDurable := q.nextDurable + 1);
        queueToPersis := queueToPersis + [Store(q.name, m.durableIndex, p.priority, p.body)];
      }
      queues := queues[id := Add(q, m)];
      place := place[m.addr := Waiting(id)];
    }

    /** PopFrontMsg on one of the queues. */
    method PopFrontMsg(id: QueueId, push: bool) returns (r: Option<Msg>, ghost top: nat)
      requires id in queues && SoundQueue(queues[id])
      modifies this`queues
      ensures r.None? <==> Held(old(queues)[id]) == [] || (push && old(queues)[id].subs == [])
      ensures r.None? ==> queues == old(queues)
      ensures r.Some? ==> (
        && CanPop(old(queues)[id], push, top) && r.value == Pop(old(queues)[id], push, top).1
        && queues == old(queues)[id := Pop(old(queues)[id], push, top).0])
    {
      hide DistinctInts;
      var q := queues[id];
      r, top := None, 0;
      if (push && q.subs == []) || (q.heap == [] && q.list == []) {
        return;
      }
      var k := 0;
      if q.heap != [] {
        ghost var best := TopExists(q.heap);
        k :| 0 <= k < |q.heap| && IsTop(q.heap, k);
      }
      top := k;
      var (q', m) := Pop(q, push, k);
      queues := queues[id := q'];
      r := Some(m);
    }

    method OnRecvMessage(client: int, name: string, level: nat) returns (ret: int, ghost top: nat)
      requires Valid()
      modifies this
      ensures Valid() && State() == Recv(old(State()), client, name, level, top)
      ensures ret == SUCCESS <==>
        FindQueue(old(State()), name).Some? && Held(old(queues)[FindQueue(old(State()), name).value]) != []
      ensures ret == SUCCESS || ret == ERR_LOGIC_SERVER_RECV_MESSAGE
      ensures ret == SUCCESS ==>
        && |queueToConnect| == |old(queueToConnect)| + 1 && queueToConnect[|old(queueToConnect)|].Deliver?
        && var m := queueToConnect[|old(queueToConnect)|].m;
          && m.client == client
          && (level > 0 ==>
                m.seqNo == old(ackSeq) && m.confirm == level && needAckMessageList == old(needAckMessageList) + [m])
          && (level == 0 ==> m.seqNo == -1 && needAckMessageList == old(needAckMessageList))
    {
      hide Inv, Pop;
      ghost var s := State();
      top := 0;
      var found := FindByName(name);
      RecvKeeps(s, client, name, level, top);
      if found.None? {
        return ERR_LOGIC_SERVER_RECV_MESSAGE, top;
      }
      var popped;
      popped, top := PopFrontMsg(found.value, false);
      RecvKeeps(s, client, name, level, top);
      if popped.None? {
        return ERR_LOGIC_SERVER_RECV_MESSAGE, top;
      }
      HandOut(name, popped.value.(client := client), level);
      ret := SUCCESS;
    }

    /** A popped message is sent, and waits for its ack or is gone. */
    method HandOut(name: string, m: Msg, level: int)
      modifies this
      ensures State() == Hand(old(State()), name, m, level)
    {
      if level > 0 {
        var m' := m.(confirm := level, seqNo := ackSeq, queueName := name);
        ackSeq := ackSeq + 1;
        needAckMessageList := needAckMessageList + [m'];
        place := place[m.addr := Pending];
        queueToConnect := queueToConnect + [Deliver(m')];
      } else {
        queueToConnect := queueToConnect + [Deliver(m.(seqNo := -1))];
        queueToPersis := queueToPersis + (if m.durable then [Consume(name, m.durableIndex)] else []);
        place := place[m.addr := Delivered];
      }
    }

    method OnClientAck(seqNo: int)
      requires Valid()
      modifies this
      ensures Valid() && State() == Ack(old(State()), seqNo)
    {
      hide Inv;
      AckKeeps(State(), seqNo);
      var i := 0;
      while i < |needAckMessageList| && needAckMessageList[i].seqNo != seqNo
        invariant i <= |needAckMessageList|
        invariant forall j :: 0 <= j < i ==> needAckMessageList[j].seqNo != seqNo
      {
        i := i + 1;
      }
      if i < |needAckMessageList| {
        var m := needAckMessageList[i];
        needAckMessageList := needAckMessageList[..i] + needAckMessageList[i + 1..];
        queueToPersis := queueToPersis + (if m.durable then [Consume(m.queueName, m.durableIndex)] else []);
        place := place[m.addr := Acked];
      }
    }

    /** One walk over the subscribed queues, emptying each. The source's branch
        for a queue without subscribers is never taken. */
    method PushMessage() returns (ghost pushes: seq<(string, nat)>)
      requires Valid()
      modifies this
      ensures Valid() && State() == PushAll(old(State()), pushes)
      ensures subscribeQueues == old(subscribeQueues) && queues.Keys == old(queues).Keys
      ensures forall n :: n in subscribeQueues && subscribeQueues[n] in queues ==> Held(queues[subscribeQueues[n]]) == []
    {
      hide Inv, Held;
      pushes := [];
      var todo := subscribeQueues.Keys;
      while todo != {}
        invariant Valid() && State() == PushAll(old(State()), pushes)
        invariant subscribeQueues == old(subscribeQueues) && queues.Keys == old(queues).Keys
        invariant todo <= subscribeQueues.Keys
        invariant forall n :: n in subscribeQueues && n !in todo && subscribeQueues[n] in queues ==>
          Held(queues[subscribeQueues[n]]) == []
        decreases todo
      {
        var name :| name in todo;
        todo := todo - {name};
        SubscribedQueues(State(), name);
        ghost var more := PushQueue(name);
        PushAllConcat(old(State()), pushes, more);
        pushes := pushes + more;
      }
    }

    /** The inner loop. */
    method PushQueue(name: string) returns (ghost pushes: seq<(string, nat)>)
      requires Valid() && name in subscribeQueues && subscribeQueues[name] in queues
      requires queues[subscribeQueues[name]].subs != []
      modifies this
      ensures Valid() && State() == PushAll(old(State()), pushes)
      ensures subscribeQueues == old(subscribeQueues) && queues.Keys == old(queues).Keys
      ensures Held(queues[subscribeQueues[name]]) == []
      ensures forall id :: id in queues && id != subscribeQueues[name] ==> queues[id] == old(queues)[id]
    {
      hide Inv, Pop, PushOne, CanPop;
      pushes := [];
      var id := subscribeQueues[name];
      while queues[id].heap != [] || queues[id].list != []
        invariant Valid() && State() == PushAll(old(State()), pushes)
        invariant subscribeQueues == old(subscribeQueues) && queues.Keys == old(queues).Keys
        invariant queues[id].subs != []
        invariant forall i :: i in queues && i != id ==> queues[i] == old(queues)[i]
        decreases |Held(queues[id])|
      {
        ghost var s := State();
        QueueIsSound(s, id);
        var confirm := queues[id].confirm;
        var popped;
        ghost var top;
        popped, top := PopFrontMsg(id, true);
        PopShortens(s.queues[id], true, top);
        PushKeeps(s, name, top);
        PushIs(s, name, top);
        HandOut(name, popped.value, confirm);
        PushAllMore(old(State()), pushes, name, top);
        pushes := pushes + [(name, top)];
      }
    }

    // --------------------------------------------------------- client exit

    method OnClientExit(client: int) returns (ghost order: seq<string>)
      requires Valid()
      modifies this
      ensures Valid() && State() == ClientExit(old(State()), client, order)
      ensures Enumerates(order, old(subscribeQueues).Keys)
    {
      hide Inv, ExitQueues, GiveBackAll, Kept, Forget, Enumerates;
      ghost var s := State();
      ForgetProducer(client);
      SameHere(s, State());
      order := CancelSubscriptions(client);
      ExitKeeps(s, client, order);
      InvHasRegistry(State());
      GiveBackMessages(client);
    }

    /** The loop over the keys of received messages. */
    method ForgetProducer(client: int)
      modifies this`producerMsgSeqs
      ensures producerMsgSeqs == Forget(old(producerMsgSeqs), client)
    {
      var strClientIndex := FileNames.ToString(client);
      var todo := producerMsgSeqs;
      while todo != {}
        invariant todo <= producerMsgSeqs <= old(producerMsgSeqs)
        invariant forall k :: k in old(producerMsgSeqs) && k !in todo ==>
          (k in producerMsgSeqs <==> !HasPrefix(k, strClientIndex))
        decreases todo
      {
        var strMsgSeq :| strMsgSeq in todo;
        todo := todo - {strMsgSeq};
        if HasPrefix(strMsgSeq, strClientIndex) {
          producerMsgSeqs := producerMsgSeqs - {strMsgSeq};
        }
      }
    }

    /** The walk over the subscribed queues. */
    method CancelSubscriptions(client: int) returns (ghost order: seq<string>)
      requires Valid()
      modifies this
      ensures Valid() && State() == ExitQueues(old(State()), client, order)
      ensures Enumerates(order, old(subscribeQueues).Keys)
    {
      hide Inv, ExitQueue;
      order := [];
      var todo := subscribeQueues.Keys;
      while todo != {}
        invariant todo <= subscribeQueues.Keys && todo <= old(subscribeQueues).Keys
        invariant forall i, j :: 0 <= i < j < |order| ==> order[i] != order[j]
        invariant forall n :: n in order <==> n in old(subscribeQueues).Keys - todo
        invariant Valid() && State() == ExitQueues(old(State()), client, order)
        decreases todo
      {
        var name :| name in todo;
        todo := todo - {name};
        ExitQueueKeeps(State(), client, name);
        SubscribedQueues(State(), name);
        assert name !in order;
        LeaveQueue(client, name);
        assert (order + [name])[..|order|] == order;
        order := order + [name];
      }
    }

    method LeaveQueue(client: int, name: string)
      requires name in subscribeQueues && subscribeQueues[name] in queues
      modifies this
      ensures State() == ExitQueue(old(State()), client, name)
      ensures subscribeQueues == old(subscribeQueues) || subscribeQueues == old(subscribeQueues) - {name}
    {
      hide Remove, DropQueue;
      var id := subscribeQueues[name];
      var q := queues[id];
      var oriNum := |q.subs|;
      q := Unsubscribe(q, client);
      queues := queues[id := q];
      var newNum := |q.subs|;
      if oriNum > newNum && newNum == 0 {
        subscribeQueues := subscribeQueues - {name};
        if q.autoDel {
          queueToPersis := queueToPersis + (if q.durable then [RemoveQueue(name)] else []);
          EraseQueue(id);
        } else {
          unSubscribeQueues := unSubscribeQueues[name := id];
        }
      }
    }

    /** The walk over the pending messages. */
    method GiveBackMessages(client: int)
      requires Registry(State())
      modifies this
      ensures var s := old(State());
        State() == GiveBackAll(s, client, s.needAck).(needAck := Kept(s.needAck, client))
    {
      hide Registry, GiveBack, GiveBackAll, Kept, Walked;
      ghost var s := State();
      ghost var n := 0;
      var i := 0;
      WalkStarts(s, client);
      while i < |needAckMessageList|
        invariant n <= |s.needAck| && 0 <= i && Walked(s, client, n, i, State())
        decreases |s.needAck| - n
      {
        var m := needAckMessageList[i];
        WalkStep(s, client, n, i, State());
        if m.client == client {
          PutBack(m);
          needAckMessageList := needAckMessageList[..i] + needAckMessageList[i + 1..];
        } else {
          i := i + 1;
        }
        n := n + 1;
      }
      WalkEnds(s, client, n, i, State());
    }

    method PutBack(m: Msg)
      requires FindQueue(State(), m.queueName).Some? ==> FindQueue(State(), m.queueName).value in queues
      modifies this
      ensures State() == GiveBack(old(State()), m) && needAckMessageList == old(needAckMessageList)
    {
      hide AddFront;
      var found := None;
      if m.queueName in unSubscribeQueues {
        found := Some(unSubscribeQueues[m.queueName]);
      }
      if m.queueName in subscribeQueues {
        found := Some(subscribeQueues[m.queueName]);
      }
      if found.Some? {
        queues := queues[found.value := AddFront(queues[found.value], m)];
        place := place[m.addr := Waiting(found.value)];
      } else {
        place := place[m.addr := Dropped];
      }
    }
  }

  // ------------------------------------------------------ about the loops

  function PushAll(s: State, pushes: seq<(string, nat)>): State {
    if pushes == [] then s
    else
      var (name, top) := pushes[|pushes| - 1];
      PushOne(PushAll(s, pushes[..|pushes| - 1]), name, top)
  }

  lemma PushAllMore(s: State, pushes: seq<(string, nat)>, name: string, top: nat)
    ensures PushAll(s, pushes + [(name, top)]) == PushOne(PushAll(s, pushes), name, top)
  {
    assert (pushes + [(name, top)])[..|pushes|] == pushes;
    hide PushOne;
  }

  lemma {:induction false} PushAllConcat(s: State, a: seq<(string, nat)>, b: seq<(string, nat)>)
    ensures PushAll(s, a + b) == PushAll(PushAll(s, a), b)
    decreases |b|
  {
    hide PushOne;
    if b == [] {
      assert a + b == a;
    } else {
      var front := b[..|b| - 1];
      PushAllConcat(s, a, front);
      assert a + b == (a + front) + [b[|b| - 1]];
      PushAllMore(s, a + front, b[|b| - 1].0, b[|b| - 1].1);
    }
  }

  /** The walk over the pending messages has looked at n of them, and stands
      at position i of what is left. */
  ghost predicate Walked(s: State, client: int, n: nat, i: nat, now: State) {
    && n <= |s.needAck| && i == |Kept(s.needAck[..n], client)|
    && now.needAck == Kept(s.needAck[..n], client) + s.needAck[n..]
    && now.(needAck := s.needAck) == GiveBackAll(s, client, s.needAck[..n])
  }

  lemma WalkStarts(s: State, client: int)
    ensures Walked(s, client, 0, 0, s)
  {
    NothingGivenBack(s, client, s.needAck);
  }

  lemma WalkStep(s: State, client: int, n: nat, i: nat, now: State)
    requires Registry(s) && Walked(s, client, n, i, now) && i < |now.needAck|
    ensures n < |s.needAck| && now.needAck[i] == s.needAck[n]
    ensures var m := now.needAck[i];
      if m.client == client then
        && (FindQueue(now, m.queueName).Some? ==> FindQueue(now, m.queueName).value in now.queues)
        && Walked(s, client, n + 1, i, GiveBack(now, m).(needAck := now.needAck[..i] + now.needAck[i + 1..]))
      else Walked(s, client, n + 1, i + 1, now)
  {
    hide Registry, GiveBack, GiveBackAll, Kept, FindQueue;
    NextPending(s, client, s.needAck, n);
    var m := now.needAck[i];
    if m.client == client {
      GivenBackIsFound(s, client, n, now);
      GiveBackIgnoresPending(now, m, s.needAck);
    }
  }

  lemma WalkEnds(s: State, client: int, n: nat, i: nat, now: State)
    requires Walked(s, client, n, i, now) && i >= |now.needAck|
    ensures now == GiveBackAll(s, client, s.needAck).(needAck := Kept(s.needAck, client))
  {
    hide GiveBackAll, Kept;
    assert s.needAck[..|s.needAck|] == s.needAck && s.needAck[|s.needAck|..] == [];
  }

  lemma GivenBackIsFound(s: State, client: int, n: nat, now: State)
    requires Registry(s) && n < |s.needAck| && now.(needAck := s.needAck) == GiveBackAll(s, client, s.needAck[..n])
    ensures var found := FindQueue(now, s.needAck[n].queueName); found.Some? ==> found.value in now.queues
  {
    hide GiveBackAll, Registry;
    GiveBackAllFrame(s, client, s.needAck[..n]);
    FoundByName(s, s.needAck[n].queueName);
  }

  lemma SubscribedQueues(s: State, name: string)
    requires Inv(s) && name in s.sub
    ensures s.sub[name] in s.queues && s.queues[s.sub[name]].subs != []
  {
    hide SoundQueue, BoundQueuesExist, Placed, Numbered;
    assert Registered(s, s.sub[name]);
  }

  lemma QueueIsSound(s: State, id: QueueId)
    requires Inv(s) && id in s.queues
    ensures SoundQueue(s.queues[id])
  {
    hide Registered, BoundQueuesExist, Placed, Numbered, SoundQueue;
  }

  lemma PopShortens(q: Queue, push: bool, top: nat)
    requires CanPop(q, push, top) && q.pushIndex >= -1
    ensures |Held(Pop(q, push, top).0)| == |Held(q)| - 1 && Pop(q, push, top).0.subs == q.subs
  {
  }

  lemma PushIs(s: State, name: string, top: nat)
    requires name in s.sub && s.sub[name] in s.queues && SoundQueue(s.queues[s.sub[name]])
    requires CanPop(s.queues[s.sub[name]], true, top)
    ensures var id := s.sub[name]; var (q', m) := Pop(s.queues[id], true, top);
      PushOne(s, name, top) == Hand(s.(queues := s.queues[id := q']), name, m, s.queues[id].confirm)
  {
    hide Hand, Pop, CanPop;
  }
}
