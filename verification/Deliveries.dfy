/** What a queue gives out and to whom: over all runs, every push and every
    request takes the next message of the queue, and what goes out, waits for
    its ack or is gone is as the level of the subscription or the request says. */
module Deliveries {
  import opened CommonDefs
  import opened MessageQueues
  import opened Exchanges
  import opened Broker
  import opened BrokerInvariant

  // -------------------------------------------- what stays of every queue

  /** The same queue later on, if nobody subscribed to it in between. */
  ghost predicate GoesOn(q: Queue, q': Queue) {
    && q'.name == q.name && q'.priority == q.priority && q'.durable == q.durable && q'.autoDel == q.autoDel
    && (q'.subs != [] ==> q.subs != [] && q'.confirm == q.confirm)
    && (ByPriority(q) ==> ByPriority(q'))
  }

  ghost predicate AllGoOn(s: State, s': State) {
    forall id :: id in s'.queues ==> id in s.queues && GoesOn(s.queues[id], s'.queues[id])
  }

  lemma SameGoesOn(s: State, s': State)
    requires forall id :: id in s'.queues ==> id in s.queues && s'.queues[id] == s.queues[id]
    ensures AllGoOn(s, s')
  {
    hide ByPriority;
  }

  lemma GoesOnTwice(s: State, s1: State, s2: State)
    requires AllGoOn(s, s1) && AllGoOn(s1, s2)
    ensures AllGoOn(s, s2)
  {
    hide ByPriority;
  }

  lemma OneGoesOn(s: State, s': State, id: QueueId)
    requires id in s.queues && id in s'.queues && s'.queues == s.queues[id := s'.queues[id]]
    requires GoesOn(s.queues[id], s'.queues[id])
    ensures AllGoOn(s, s')
  {
    hide ByPriority;
  }

  lemma AddGoesOn(q: Queue, m: Msg, next: int)
    ensures GoesOn(q, Add(q.(nextDurable := next), m)) && GoesOn(q, AddFront(q, m))
  {
  }

  lemma StoreGoesOn(s: State, p: Publication, id: QueueId)
    ensures AllGoOn(s, StoreOne(s, p, id))
  {
    if id in s.queues {
      var q := s.queues[id];
      var persistent := p.durable && q.durable;
      var index := if persistent then q.nextDurable else -1;
      var m := Msg(s.nextAddr, p.body, p.priority, p.durable, index, -1, -1, 0, if persistent then q.name else "");
      AddGoesOn(q, m, if persistent then index + 1 else q.nextDurable);
      hide GoesOn, Add;
      OneGoesOn(s, StoreOne(s, p, id), id);
    } else {
      SameGoesOn(s, s);
    }
  }

  lemma {:induction false} StoreAllGoesOn(s: State, p: Publication, list: seq<QueueId>)
    ensures AllGoOn(s, StoreAll(s, p, list))
    decreases |list|
  {
    hide AllGoOn, StoreOne;
    if list == [] {
      SameGoesOn(s, s);
    } else {
      var s1 := StoreAll(s, p, list[..|list| - 1]);
      StoreAllGoesOn(s, p, list[..|list| - 1]);
      StoreGoesOn(s1, p, list[|list| - 1]);
      GoesOnTwice(s, s1, StoreAll(s, p, list));
    }
  }

  lemma PublishGoesOn(s: State, p: Publication, order: seq<string>)
    ensures AllGoOn(s, Publish(s, p, order))
  {
    hide StoreAll, Targets, IsRepeat, SeqKey, Complaint, GoesOn;
    StoreAllGoesOn(s, p, Targets(s, p, order));
    SameGoesOn(s, s);
  }

  lemma PopGoesOn(q: Queue, push: bool, k: nat)
    requires CanPop(q, push, k) && q.pushIndex >= -1
    ensures GoesOn(q, Pop(q, push, k).0)
  {
    hide ByPriority, CanPop;
    PopLeaves(q, push, k);
    if ByPriority(q) {
      var m := PopTakesNext(q, push, k);
    }
  }

  lemma HandGoesOn(s: State, id: QueueId, push: bool, k: nat, name: string, m: Msg, level: int)
    requires id in s.queues && CanPop(s.queues[id], push, k) && s.queues[id].pushIndex >= -1
    ensures AllGoOn(s, Hand(s.(queues := s.queues[id := Pop(s.queues[id], push, k).0]), name, m, level))
  {
    PopGoesOn(s.queues[id], push, k);
    hide GoesOn, Pop, CanPop;
    OneGoesOn(s, Hand(s.(queues := s.queues[id := Pop(s.queues[id], push, k).0]), name, m, level), id);
  }

  lemma PushGoesOn(s: State, name: string, top: nat)
    ensures AllGoOn(s, PushOne(s, name, top))
  {
    hide Hand, Pop, CanPop, AllGoOn;
    SameGoesOn(s, s);
    if name in s.sub && s.sub[name] in s.queues {
      var id := s.sub[name];
      var q := s.queues[id];
      if CanPop(q, true, top) && q.pushIndex >= -1 {
        HandGoesOn(s, id, true, top, name, Pop(q, true, top).1, q.confirm);
      }
    }
  }

  lemma RecvGoesOn(s: State, client: int, name: string, level: nat, top: nat)
    ensures AllGoOn(s, Recv(s, client, name, level, top))
  {
    hide Hand, Pop, CanPop, AllGoOn, FindQueue;
    SameGoesOn(s, s);
    var id := FindQueue(s, name);
    if id.Some? && id.value in s.queues {
      var q := s.queues[id.value];
      if CanPop(q, false, top) && q.pushIndex >= -1 {
        HandGoesOn(s, id.value, false, top, name, Pop(q, false, top).1.(client := client), level);
      }
    }
  }

  lemma LeavingGoesOn(q: Queue, client: int)
    ensures GoesOn(q, Unsubscribe(q, client))
  {
    hide ByPriority;
    assert q.subs == [] ==> Remove(q.subs, client) == [];
    assert Unsubscribe(q, client).heap == q.heap && Unsubscribe(q, client).list == q.list;
    SameContentsByPriority(q, Unsubscribe(q, client));
  }

  lemma SameContentsByPriority(q: Queue, q': Queue)
    requires q'.heap == q.heap && q'.list == q.list && q'.priority == q.priority
    ensures ByPriority(q') == ByPriority(q)
  {
  }

  lemma ExitQueueGoesOn(s: State, client: int, name: string)
    ensures AllGoOn(s, ExitQueue(s, client, name))
  {
    hide Unsubscribe, GoesOn, WithoutQueue, DropWaiting;
    SameGoesOn(s, s);
    if name in s.sub && s.sub[name] in s.queues {
      LeavingGoesOn(s.queues[s.sub[name]], client);
    }
  }

  lemma {:induction false} ExitQueuesGoOn(s: State, client: int, order: seq<string>)
    ensures AllGoOn(s, ExitQueues(s, client, order))
    decreases |order|
  {
    hide AllGoOn, ExitQueue;
    if order == [] {
      SameGoesOn(s, s);
    } else {
      var s1 := ExitQueues(s, client, order[..|order| - 1]);
      ExitQueuesGoOn(s, client, order[..|order| - 1]);
      ExitQueueGoesOn(s1, client, order[|order| - 1]);
      GoesOnTwice(s, s1, ExitQueues(s, client, order));
    }
  }

  lemma GiveBackGoesOn(s: State, m: Msg)
    ensures AllGoOn(s, GiveBack(s, m))
  {
    hide FindQueue, GoesOn, AddFront;
    SameGoesOn(s, s);
    var id := FindQueue(s, m.queueName);
    if id.Some? && id.value in s.queues {
      AddGoesOn(s.queues[id.value], m, 0);
      OneGoesOn(s, GiveBack(s, m), id.value);
    } else {
      SameGoesOn(s, GiveBack(s, m));
    }
  }

  lemma {:induction false} GiveBackAllGoesOn(s: State, client: int, ms: seq<Msg>)
    ensures AllGoOn(s, GiveBackAll(s, client, ms))
    decreases |ms|
  {
    hide AllGoOn, GiveBack;
    SameGoesOn(s, s);
    if ms != [] {
      var s1 := GiveBackAll(s, client, ms[..|ms| - 1]);
      GiveBackAllGoesOn(s, client, ms[..|ms| - 1]);
      GiveBackGoesOn(s1, ms[|ms| - 1]);
      GoesOnTwice(s, s1, GiveBack(s1, ms[|ms| - 1]));
    }
  }

  lemma ExitGoesOn(s: State, client: int, order: seq<string>)
    ensures AllGoOn(s, ClientExit(s, client, order))
  {
    hide AllGoOn, ExitQueues, GiveBackAll, Kept, Forget;
    var s0 := s.(stored := Forget(s.stored, client));
    SameGoesOn(s, s0);
    ExitQueuesGoOn(s0, client, order);
    var s1 := ExitQueues(s0, client, order);
    GoesOnTwice(s, s0, s1);
    var s2 := GiveBackAll(s1, client, s1.needAck);
    GiveBackAllGoesOn(s1, client, s1.needAck);
    GoesOnTwice(s, s1, s2);
    SameGoesOn(s2, ClientExit(s, client, order));
    GoesOnTwice(s, s2, ClientExit(s, client, order));
  }

  lemma DeleteGoesOn(s: State, name: string)
    ensures AllGoOn(s, DeleteQueue(s, name))
  {
    hide FindQueue, WithoutQueue, DropWaiting, GoesOn;
    SameGoesOn(s, DeleteQueue(s, name));
  }

  /** Every event but a subscription and the making of a queue. */
  lemma StepGoesOn(s: State, e: Event)
    requires !e.EvSubscribe? && !e.EvCreateQueue?
    ensures AllGoOn(s, Step(s, e))
  {
    hide AllGoOn;
    match e
    case EvCreateExchange(name, kind, durable, autoDel) => SameGoesOn(s, Step(s, e));
    case EvCreateBinding(exchange, queue, key) => SameGoesOn(s, Step(s, e));
    case EvDeleteExchange(name) => SameGoesOn(s, Step(s, e));
    case EvDeleteQueue(name) => DeleteGoesOn(s, name);
    case EvPublish(p, order) => PublishGoesOn(s, p, order);
    case EvPush(name, top) => PushGoesOn(s, name, top);
    case EvRecv(client, name, level, top) => RecvGoesOn(s, client, name, level, top);
    case EvAck(seqNo) =>
      hide Position;
      SameGoesOn(s, Step(s, e));
    case EvExit(client, order) => ExitGoesOn(s, client, order);
  }

  // ------------------------------------------------------- the subscription

  /** A subscription to a queue that can be found: the client is on its list once,
      behind those already there, the queue has the level asked for and is found
      as a subscribed one; nothing else changes. */
  lemma SubscriptionTakesEffect(events: seq<Event>, client: int, name: string, level: nat)
    ensures var s, s' := Run(events), Step(Run(events), EvSubscribe(client, name, level)); var found := FindQueue(s, name);
      if found.None? then s' == s
      else
        var id := found.value;
        && id in s.queues && s'.queues.Keys == s.queues.Keys
        && s'.queues[id].subs == (if client in s.queues[id].subs then s.queues[id].subs else s.queues[id].subs + [client])
        && s'.queues[id] == s.queues[id].(subs := s'.queues[id].subs, confirm := level)
        && (forall i :: i in s.queues && i != id ==> s'.queues[i] == s.queues[i])
        && s'.sub == s.sub[name := id] && s'.unsub == s.unsub - {name}
        && s' == s.(queues := s'.queues, sub := s'.sub, unsub := s'.unsub)
  {
    hide Run, Inv, SoundQueue;
    RunKeepsInv(events);
    InvHasRegistry(Run(events));
    FoundByName(Run(events), name);
    hide Registry;
  }

  /** The level of the last subscription to the queue, 0 if there was none. */
  ghost function LastLevel(events: seq<Event>, id: QueueId): nat {
    if events == [] then 0
    else
      var prev, e := events[..|events| - 1], events[|events| - 1];
      if e.EvSubscribe? && FindQueue(Run(prev), e.name) == Some(id) then e.level else LastLevel(prev, id)
  }

  /** Queues with subscribers have the level of the last subscription, and all
      keep their messages by priority. */
  ghost predicate LevelsKept(events: seq<Event>) {
    var s := Run(events);
    forall id :: id in s.queues ==>
      && (s.queues[id].subs != [] ==> s.queues[id].confirm == LastLevel(events, id))
      && ByPriority(s.queues[id])
  }

  lemma OneMoreLevel(events: seq<Event>, e: Event, id: QueueId)
    ensures Run(events + [e]) == Step(Run(events), e)
    ensures LastLevel(events + [e], id)
         == if e.EvSubscribe? && FindQueue(Run(events), e.name) == Some(id) then e.level else LastLevel(events, id)
  {
    hide Step;
    assert (events + [e])[..|events|] == events;
  }

  lemma NewQueueLevel(s: State, name: string, priority: int, durable: bool, autoDel: bool)
    ensures var s' := CreateQueue(s, name, priority, durable, autoDel);
      forall id :: id in s'.queues ==>
        || (id in s.queues && s'.queues[id] == s.queues[id])
        || (s'.queues[id].subs == [] && ByPriority(s'.queues[id]))
  {
  }

  lemma LevelsAfter(events: seq<Event>, e: Event)
    requires LevelsKept(events)
    ensures LevelsKept(events + [e])
  {
    hide Run, Step, ByPriority, LastLevel, FindQueue;
    var s, s' := Run(events), Step(Run(events), e);
    forall id: QueueId
      ensures Run(events + [e]) == s'
      ensures LastLevel(events + [e], id)
           == if e.EvSubscribe? && FindQueue(s, e.name) == Some(id) then e.level else LastLevel(events, id)
    {
      OneMoreLevel(events, e, id);
    }
    OneMoreLevel(events, e, 0);
    if e.EvSubscribe? {
      SubscriptionTakesEffect(events, e.client, e.name, e.level);
      SubscribedByPriority(s, s', FindQueue(s, e.name));
    } else if e.EvCreateQueue? {
      StepOfCreate(s, e);
      NewQueueLevel(s, e.name, e.priority, e.durable, e.autoDel);
    } else {
      StepGoesOn(s, e);
    }
  }

  lemma StepOfCreate(s: State, e: Event)
    requires e.EvCreateQueue?
    ensures Step(s, e) == CreateQueue(s, e.name, e.priority, e.durable, e.autoDel)
  {
    hide CreateQueue;
  }

  lemma SubscribedByPriority(s: State, s': State, found: Option<QueueId>)
    requires found.Some? ==>
      && found.value in s.queues && found.value in s'.queues
      && s'.queues[found.value] == s.queues[found.value].(subs := s'.queues[found.value].subs,
                                                          confirm := s'.queues[found.value].confirm)
    ensures found.Some? ==> (ByPriority(s'.queues[found.value]) <==> ByPriority(s.queues[found.value]))
  {
  }

  lemma {:induction false} LevelsOverRuns(events: seq<Event>)
    ensures LevelsKept(events)
    decreases |events|
  {
    if events != [] {
      hide LevelsKept;
      var prev, e := events[..|events| - 1], events[|events| - 1];
      LevelsOverRuns(prev);
      LevelsAfter(prev, e);
      assert events == prev + [e];
    }
  }

  // ------------------------------------------------------------ handing out

  /** Queue id, called name, gives message m out to the client: it is the next
      one, it leaves the queue, its body goes to that client in the one new
      packet, and with a level above 0 the same message, numbered, is the last
      one pending, else it is gone, and consumed if it was durable. */
  ghost predicate GivenOut(s: State, s': State, id: QueueId, name: string, m: Msg, client: int, level: int)
    requires id in s.queues
  {
    && id in s'.queues && IsNext(s.queues[id], m)
    && multiset(Held(s.queues[id])) == multiset(Held(s'.queues[id])) + multiset{m}
    && s'.queues[id].list == (if s.queues[id].heap == [] then s.queues[id].list[1..] else s.queues[id].list)
    && s'.queues == s.queues[id := s.queues[id].(heap := s'.queues[id].heap, list := s'.queues[id].list,
                                                 pushIndex := s'.queues[id].pushIndex)]
    && |s'.toConnect| == |s.toConnect| + 1 && s.toConnect <= s'.toConnect && s'.toConnect[|s.toConnect|].Deliver?
    && var d := s'.toConnect[|s.toConnect|].m;
      && d.addr == m.addr && d.body == m.body && d.client == client
      && d.priority == m.priority && d.durable == m.durable && d.durableIndex == m.durableIndex
      && s' == s.(queues := s'.queues, needAck := s'.needAck, ackSeq := s'.ackSeq, place := s'.place,
                  toConnect := s'.toConnect, toPersis := s'.toPersis)
      && if level > 0 then
           && d.seqNo == s.ackSeq && d.confirm == level && d.queueName == name
           && s'.needAck == s.needAck + [d] && s'.ackSeq == s.ackSeq + 1
           && s'.place == s.place[m.addr := Pending] && s'.toPersis == s.toPersis
         else
           && d.seqNo == -1 && s'.needAck == s.needAck && s'.ackSeq == s.ackSeq
           && s'.place == s.place[m.addr := Delivered]
           && s'.toPersis == s.toPersis + (if m.durable then [Consume(name, m.durableIndex)] else [])
  }

  lemma HandGives(s: State, id: QueueId, push: bool, k: nat, name: string, out: Msg, level: int) returns (m: Msg)
    requires id in s.queues && ByPriority(s.queues[id])
    requires CanPop(s.queues[id], push, k) && s.queues[id].pushIndex >= -1
    requires out == Pop(s.queues[id], push, k).1.(client := out.client)
    ensures GivenOut(s, Hand(s.(queues := s.queues[id := Pop(s.queues[id], push, k).0]), name, out, level),
                     id, name, m, out.client, level)
    ensures Hand(s.(queues := s.queues[id := Pop(s.queues[id], push, k).0]), name, out, level).queues[id].pushIndex
         == Pop(s.queues[id], push, k).0.pushIndex
  {
    hide ByPriority, IsNext, CanPop, Pop, Held, Hand, GivenOut;
    m := PopTakesNext(s.queues[id], push, k);
    PopLeaves(s.queues[id], push, k);
    TakenIsGiven(s, id, Pop(s.queues[id], push, k).0, name, m, out, level);
  }

  lemma TakenIsGiven(s: State, id: QueueId, q': Queue, name: string, m: Msg, out: Msg, level: int)
    requires id in s.queues && IsNext(s.queues[id], m) && out == m.(client := out.client)
    requires multiset(Held(s.queues[id])) == multiset(Held(q')) + multiset{m}
    requires q'.list == if s.queues[id].heap == [] then s.queues[id].list[1..] else s.queues[id].list
    requires q' == s.queues[id].(heap := q'.heap, list := q'.list, pushIndex := q'.pushIndex)
    ensures GivenOut(s, Hand(s.(queues := s.queues[id := q']), name, out, level), id, name, m, out.client, level)
    ensures Hand(s.(queues := s.queues[id := q']), name, out, level).queues == s.queues[id := q']
  {
    hide IsNext, Held;
  }

  /** Which entry of the heap may be taken. */
  predicate MayTake(q: Queue, top: nat) {
    q.heap != [] ==> IsTop(q.heap, top)
  }

  /** Over every run: a request for a message gives the next one of the queue to
      the client that asked, with the level asked for; it does nothing when
      there is no such queue or nothing in it. */
  lemma PullGoesToCaller(events: seq<Event>, client: int, name: string, level: nat, top: nat)
    requires var found := FindQueue(Run(events), name);
      found.Some? && found.value in Run(events).queues ==> MayTake(Run(events).queues[found.value], top)
    ensures var s, s' := Run(events), Step(Run(events), EvRecv(client, name, level, top)); var found := FindQueue(s, name);
      if found.None? then s' == s
      else
        && found.value in s.queues
        && if Held(s.queues[found.value]) == [] then s' == s
           else
             && (exists m :: GivenOut(s, s', found.value, name, m, client, level))
             && s'.queues[found.value].pushIndex == s.queues[found.value].pushIndex
  {
    hide Run, Inv, SoundQueue;
    RunKeepsInv(events);
    LevelsOverRuns(events);
    var s := Run(events);
    InvHasRegistry(s);
    FoundByName(s, name);
    QueueSound(s, FindQueue(s, name));
    hide Registry, ByPriority, FindQueue, Hand, GivenOut, LastLevel, IsTop;
    var found := FindQueue(s, name);
    if found.Some? && Held(s.queues[found.value]) != [] {
      var q := s.queues[found.value];
      var out := Pop(q, false, top).1.(client := client);
      var m := HandGives(s, found.value, false, top, name, out, level);
      PopLeaves(q, false, top);
      PullKeepsTurn(q, top);
    }
  }

  lemma PullKeepsTurn(q: Queue, k: nat)
    requires CanPop(q, false, k) && q.pushIndex >= -1
    ensures Pop(q, false, k).0.pushIndex == q.pushIndex
  {
  }

  lemma QueueSound(s: State, found: Option<QueueId>)
    requires Registry(s) && (found.Some? ==> found.value in s.queues)
    ensures found.Some? ==> s.queues[found.value].pushIndex >= -1
  {
    hide BoundQueuesExist, Registered;
  }

  /** The position of the subscriber whose turn it is. */
  function NextTurn(q: Queue): int {
    if q.pushIndex + 1 >= |q.subs| then 0 else q.pushIndex + 1
  }

  /** Over every run: a push gives the next message of the queue to the subscriber
      whose turn it is; the message waits for its ack if and only if the last
      subscription to the queue asked for that, and carries its level. */
  lemma PushGoesToNextSubscriber(events: seq<Event>, name: string, top: nat)
    requires name in Run(events).sub ==>
      Run(events).sub[name] in Run(events).queues && MayTake(Run(events).queues[Run(events).sub[name]], top)
    ensures var s, s' := Run(events), Step(Run(events), EvPush(name, top));
      if name !in s.sub then s' == s
      else
        var id := s.sub[name];
        && id in s.queues && s.queues[id].subs != []
        && var q := s.queues[id];
          if Held(q) == [] then s' == s
          else
            && 0 <= NextTurn(q) < |q.subs|
            && (exists m :: GivenOut(s, s', id, name, m, q.subs[NextTurn(q)], LastLevel(events, id)))
            && s'.queues[id].pushIndex == NextTurn(q)
  {
    hide Run, Inv, SoundQueue;
    RunKeepsInv(events);
    LevelsOverRuns(events);
    var s := Run(events);
    InvHasRegistry(s);
    if name in s.sub {
      SubscribedFound(s, name);
      var id := s.sub[name];
      QueueSound(s, Some(id));
      hide Registry, ByPriority, FindQueue, Hand, GivenOut, LastLevel, IsTop;
      var q := s.queues[id];
      if Held(q) != [] {
        var out := Pop(q, true, top).1;
        var m := HandGives(s, id, true, top, name, out, q.confirm);
        PushTakesTurn(q, top);
      }
    }
  }

  lemma PushTakesTurn(q: Queue, k: nat)
    requires CanPop(q, true, k) && q.pushIndex >= -1
    ensures 0 <= NextTurn(q) < |q.subs|
    ensures Pop(q, true, k).1.client == q.subs[NextTurn(q)] && Pop(q, true, k).0.pushIndex == NextTurn(q)
  {
  }

  lemma SubscribedFound(s: State, name: string)
    requires Registry(s) && name in s.sub
    ensures s.sub[name] in s.queues && s.queues[s.sub[name]].subs != []
  {
    hide SoundQueue, BoundQueuesExist;
    assert Registered(s, s.sub[name]);
  }
}
