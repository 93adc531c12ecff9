/** What requests do to exchanges, queues and files: over all runs exchanges and
    queues are as the requests that made them asked, nothing else is touched,
    publications are answered, and the persistence server keeps files for exactly
    the durable queues. */
module Requests {
  import opened CommonDefs
  import opened MessageQueues
  import opened Exchanges
  import opened Broker
  import opened BrokerInvariant
  import opened ClientExits
  import opened Deliveries

  // ------------------------------------------- requests that move messages

  /** The same queue with other contents. */
  predicate OtherContents(q: Queue, q': Queue) {
    q' == q.(heap := q'.heap, list := q'.list, nextDurable := q'.nextDurable, pushIndex := q'.pushIndex)
  }

  /** Only contents of queues, and what is not about queues, may differ. */
  ghost predicate OnlyContents(s: State, s': State) {
    && s'.sub == s.sub && s'.unsub == s.unsub && s'.exchanges == s.exchanges && s'.nextQueue == s.nextQueue
    && s'.queues.Keys == s.queues.Keys
    && forall id :: id in s.queues ==> OtherContents(s.queues[id], s'.queues[id])
  }

  lemma OnlyContentsTwice(s: State, s1: State, s2: State)
    requires OnlyContents(s, s1) && OnlyContents(s1, s2)
    ensures OnlyContents(s, s2)
  {
  }

  lemma StoreChangesContents(s: State, p: Publication, id: QueueId)
    ensures OnlyContents(s, StoreOne(s, p, id))
  {
  }

  lemma {:induction false} StoringChangesContents(s: State, p: Publication, list: seq<QueueId>)
    ensures OnlyContents(s, StoreAll(s, p, list))
    decreases |list|
  {
    if list != [] {
      hide StoreOne, OnlyContents;
      var s1 := StoreAll(s, p, list[..|list| - 1]);
      StoringChangesContents(s, p, list[..|list| - 1]);
      StoreChangesContents(s1, p, list[|list| - 1]);
      OnlyContentsTwice(s, s1, StoreAll(s, p, list));
    }
  }

  lemma SameRegistry(s: State, s': State)
    requires s'.sub == s.sub && s'.unsub == s.unsub && s'.exchanges == s.exchanges && s'.nextQueue == s.nextQueue
    requires s'.queues == s.queues
    ensures OnlyContents(s, s')
  {
  }

  function StoredOrNot(s: State, p: Publication, order: seq<string>): State {
    if IsRepeat(s, p) || Targets(s, p, order) == [] then s else StoreAll(s, p, Targets(s, p, order))
  }

  /** Apart from packets and stored keys, a publication stores copies or nothing. */
  lemma PublishParts(s: State, p: Publication, order: seq<string>)
    ensures var s' := Publish(s, p, order);
      s' == StoredOrNot(s, p, order).(toConnect := s'.toConnect, stored := s'.stored)
  {
    hide StoreAll, Targets, IsRepeat, SeqKey, Complaint;
  }

  lemma PublishChangesContents(s: State, p: Publication, order: seq<string>)
    ensures OnlyContents(s, Publish(s, p, order))
  {
    hide StoreAll, Targets, Publish, OnlyContents, IsRepeat;
    var s', s1 := Publish(s, p, order), StoredOrNot(s, p, order);
    PublishParts(s, p, order);
    StoringChangesContents(s, p, Targets(s, p, order));
    SameRegistry(s, s);
    SameRegistry(s1, s');
    OnlyContentsTwice(s, s1, s');
  }

  lemma HandShape(s: State, name: string, m: Msg, level: int)
    ensures var s' := Hand(s, name, m, level);
      && s'.sub == s.sub && s'.unsub == s.unsub && s'.exchanges == s.exchanges && s'.nextQueue == s.nextQueue
      && s'.queues == s.queues
      && (s'.toPersis == s.toPersis || s'.toPersis == s.toPersis + [Consume(name, m.durableIndex)])
  {
    assert s.toPersis + [] == s.toPersis;
  }

  lemma HandChangesContents(s: State, id: QueueId, q': Queue, name: string, m: Msg, level: int)
    requires id in s.queues && OtherContents(s.queues[id], q')
    ensures var s' := Hand(s.(queues := s.queues[id := q']), name, m, level);
      && OnlyContents(s, s')
      && (s'.toPersis == s.toPersis || s'.toPersis == s.toPersis + [Consume(name, m.durableIndex)])
  {
    hide Hand, OtherContents;
    HandShape(s.(queues := s.queues[id := q']), name, m, level);
    forall i | i in s.queues && i != id
      ensures OtherContents(s.queues[i], s.queues[i])
    {
      ItsOwnContents(s.queues[i]);
    }
  }

  lemma ItsOwnContents(q: Queue)
    ensures OtherContents(q, q)
  {
  }

  /** A push, a request for a message or an ack. */
  lemma HandingChangesContents(s: State, e: Event)
    requires e.EvPush? || e.EvRecv? || e.EvAck?
    ensures var s' := Step(s, e);
      && OnlyContents(s, s')
      && (s'.toPersis == s.toPersis || exists n, i :: s'.toPersis == s.toPersis + [Consume(n, i)])
  {
    hide Hand, OnlyContents, FindQueue, CanPop, Position;
    SameRegistry(s, s);
    match e
    case EvPush(name, top) =>
      if name in s.sub && s.sub[name] in s.queues {
        var q := s.queues[s.sub[name]];
        if CanPop(q, true, top) && q.pushIndex >= -1 {
          PopLeaves(q, true, top);
          hide Pop;
          HandChangesContents(s, s.sub[name], Pop(q, true, top).0, name, Pop(q, true, top).1, q.confirm);
        }
      }
    case EvRecv(client, name, level, top) =>
      var id := FindQueue(s, name);
      if id.Some? && id.value in s.queues {
        var q := s.queues[id.value];
        if CanPop(q, false, top) && q.pushIndex >= -1 {
          PopLeaves(q, false, top);
          hide Pop;
          HandChangesContents(s, id.value, Pop(q, false, top).0, name, Pop(q, false, top).1.(client := client), level);
        }
      }
    case EvAck(seqNo) =>
      SameRegistry(s, Ack(s, seqNo));
      assert s.toPersis + [] == s.toPersis;
  }

  lemma GiveBackChangesContents(s: State, m: Msg)
    ensures OnlyContents(s, GiveBack(s, m)) && GiveBack(s, m).toPersis == s.toPersis
  {
    hide FindQueue;
  }

  lemma {:induction false} GivingBackChangesContents(s: State, client: int, ms: seq<Msg>)
    ensures OnlyContents(s, GiveBackAll(s, client, ms)) && GiveBackAll(s, client, ms).toPersis == s.toPersis
    decreases |ms|
  {
    hide GiveBack, OnlyContents;
    SameRegistry(s, s);
    if ms != [] {
      var s1 := GiveBackAll(s, client, ms[..|ms| - 1]);
      GivingBackChangesContents(s, client, ms[..|ms| - 1]);
      GiveBackChangesContents(s1, ms[|ms| - 1]);
      OnlyContentsTwice(s, s1, GiveBack(s1, ms[|ms| - 1]));
    }
  }

  // ---------------------------------------------------------------- exchanges

  /** What a request does to the exchanges: it makes one as asked, binds one free
      key, deletes one, or they lose what was bound to queues that went. */
  ghost predicate ExchangesFollow(s: State, e: Event, s': State) {
    match e
    case EvCreateExchange(name, kind, durable, autoDel) =>
      && s' == s.(exchanges := s'.exchanges)
      && s'.exchanges == if name in s.exchanges then s.exchanges
                         else s.exchanges[name := ExchangeState(name, kind, durable, autoDel, map[])]
    case EvCreateBinding(exchange, queue, key) =>
      && s' == s.(exchanges := s'.exchanges)
      && if exchange in s.exchanges && key !in s.exchanges[exchange].bindings && FindQueue(s, queue).Some? then
           var x := s.exchanges[exchange];
           s'.exchanges == s.exchanges[exchange := x.(bindings := x.bindings[key := [FindQueue(s, queue).value]])]
         else s' == s
    case EvDeleteExchange(name) =>
      && s' == s.(exchanges := s'.exchanges)
      && s'.exchanges.Keys == s.exchanges.Keys - {name}
      && forall n :: n in s'.exchanges ==> s'.exchanges[n] == s.exchanges[n]
    case _ => ExchangesPruned(s.exchanges, s'.exchanges, s'.queues.Keys)
  }

  lemma SameExchanges(s: State, e: Event, s': State)
    requires Inv(s) && s'.exchanges == s.exchanges && s.queues.Keys <= s'.queues.Keys
    ensures ExchangesPruned(s.exchanges, s'.exchanges, s'.queues.Keys)
  {
    hide Inv;
    InvNothingDangles(s);
    forall n | n in s.exchanges
      ensures !BindsOnlyGone(s.exchanges[n], s'.queues.Keys) && Trimmed(s.exchanges[n], s'.exchanges[n], s'.queues.Keys)
    {
      if s.exchanges[n].bindings != map[] {
        var k :| k in s.exchanges[n].bindings;
      }
    }
  }

  lemma BindingFollows(s: State, e: Event)
    requires Inv(s) && e.EvCreateBinding?
    ensures ExchangesFollow(s, e, Step(s, e))
  {
    hide Inv, SoundQueue;
    InvHasRegistry(s);
    FoundByName(s, e.queue);
    hide Registry;
    if e.exchange in s.exchanges {
      assert s.exchanges[e.exchange := s.exchanges[e.exchange]] == s.exchanges;
    }
  }

  lemma DeletionFollows(s: State, name: string)
    requires Inv(s)
    ensures var s' := DeleteQueue(s, name); ExchangesPruned(s.exchanges, s'.exchanges, s'.queues.Keys)
  {
    hide Inv, ExchangesPruned, WithoutQueue, DropWaiting;
    var found := FindQueue(s, name);
    if found.Some? && found.value in s.queues {
      InvNothingDangles(s);
      DropPrunesExchanges(s, found.value);
      assert DeleteQueue(s, name).queues.Keys == s.queues.Keys - {found.value};
    } else {
      SameExchanges(s, EvDeleteQueue(name), s);
    }
  }

  lemma ContentsFollow(s: State, e: Event, s': State)
    requires Inv(s) && OnlyContents(s, s')
    requires e.EvPublish? || e.EvPush? || e.EvRecv? || e.EvAck?
    ensures ExchangesFollow(s, e, s')
  {
    hide Inv, OtherContents, ExchangesPruned;
    SameExchanges(s, e, s');
  }

  /** Over every run: the exchanges change only so. */
  lemma ExchangesChangeOnlySo(events: seq<Event>, e: Event)
    ensures ExchangesFollow(Run(events), e, Step(Run(events), e))
  {
    hide Run, Inv, ExchangesFollow, OnlyContents, Publish, PushOne, Recv, Ack, ClientExit, DeleteQueue;
    RunKeepsInv(events);
    var s := Run(events);
    match e
    case EvPublish(p, order) =>
      PublishChangesContents(s, p, order);
      ContentsFollow(s, e, Step(s, e));
    case EvPush(_, _) =>
      HandingChangesContents(s, e);
      ContentsFollow(s, e, Step(s, e));
    case EvRecv(_, _, _, _) =>
      HandingChangesContents(s, e);
      ContentsFollow(s, e, Step(s, e));
    case EvAck(_) =>
      HandingChangesContents(s, e);
      ContentsFollow(s, e, Step(s, e));
    case EvCreateBinding(_, _, _) => BindingFollows(s, e);
    case _ => RegistryFollows(s, e);
  }

  lemma RegistryFollows(s: State, e: Event)
    requires Inv(s) && !e.EvPublish? && !e.EvPush? && !e.EvRecv? && !e.EvAck? && !e.EvCreateBinding?
    ensures ExchangesFollow(s, e, Step(s, e))
  {
    hide Inv, ExchangesPruned, ClientExit, DeleteQueue, CopiesAfterExit, FindQueue, Subscribe;
    match e
    case EvExit(client, order) => ExitMovesExactly(s, client, order);
    case EvDeleteQueue(name) => DeletionFollows(s, name);
    case EvCreateQueue(_, _, _, _) => SameExchanges(s, e, Step(s, e));
    case EvSubscribe(_, _, _) => SameExchanges(s, e, Step(s, e));
    case _ =>
  }

  /** Name, type and flags of an exchange. */
  predicate SameExchange(x: ExchangeState, x': ExchangeState) {
    x' == x.(bindings := x'.bindings)
  }

  lemma ExchangesStay(s: State, e: Event, s': State, n: string)
    requires ExchangesFollow(s, e, s') && n in s'.exchanges
    ensures n in s.exchanges ==> SameExchange(s.exchanges[n], s'.exchanges[n])
    ensures n !in s.exchanges ==>
      e.EvCreateExchange? && e.name == n && s'.exchanges[n] == ExchangeState(n, e.kind, e.durable, e.autoDel, map[])
  {
    hide FindQueue, BindsOnlyGone;
  }

  /** Over every run: each exchange there is was made by a request that asked for
      its type and flags when there was none of that name, and has been there
      since. */
  lemma {:induction false} ExchangeIsAsRequested(events: seq<Event>, n: string) returns (i: nat)
    requires n in Run(events).exchanges
    ensures var x := Run(events).exchanges[n];
      i < |events| && events[i] == EvCreateExchange(n, x.kind, x.durable, x.autoDel)
    ensures n !in Run(events[..i]).exchanges && forall j :: i < j <= |events| ==> n in Run(events[..j]).exchanges
    decreases |events|
  {
    hide Step, ExchangesFollow;
    var prev, e := events[..|events| - 1], events[|events| - 1];
    ExchangesChangeOnlySo(prev, e);
    ExchangesStay(Run(prev), e, Run(events), n);
    hide Run;
    assert events[..|events|] == events && forall j :: 0 <= j <= |prev| ==> prev[..j] == events[..j];
    if n in Run(prev).exchanges {
      i := ExchangeIsAsRequested(prev, n);
    } else {
      i := |prev|;
    }
  }

  // ------------------------------------------------------------------- queues

  /** The list without the client, the others in their order. */
  ghost predicate WithoutClient(subs: seq<int>, client: int, subs': seq<int>) {
    && client !in subs'
    && (subs' == subs || exists k :: 0 <= k < |subs| && subs[k] == client && subs' == subs[..k] + subs[k + 1..])
  }

  /** What becomes of a queue that there was and is. */
  ghost predicate QueueFollows(e: Event, found: bool, q: Queue, q': Queue) {
    && q'.name == q.name && q'.priority == q.priority && q'.durable == q.durable && q'.autoDel == q.autoDel
    && if e.EvSubscribe? && found then
         q'.subs == (if e.client in q.subs then q.subs else q.subs + [e.client]) && q'.confirm == e.level
       else if e.EvExit? then
         WithoutClient(q.subs, e.client, q'.subs) && (q'.subs != [] ==> q'.confirm == q.confirm)
       else
         q'.subs == q.subs && q'.confirm == q.confirm
  }

  /** What a request does to the queues: it makes one as asked when the name is
      free, deletes the one it names, changes a list of subscribers, or removes a
      client from all of them and deletes what was there for that client alone. */
  ghost predicate QueuesFollow(s: State, e: Event, s': State) {
    && (forall id :: id in s'.queues && id !in s.queues ==>
          && e.EvCreateQueue? && FindQueue(s, e.name).None? && FindQueue(s', e.name) == Some(id)
          && s'.queues[id].name == e.name && s'.queues[id].priority == e.priority
          && s'.queues[id].durable == e.durable && s'.queues[id].autoDel == e.autoDel
          && s'.queues[id].subs == [] && Held(s'.queues[id]) == [])
    && (e.EvCreateQueue? ==> FindQueue(s', e.name).Some?)
    && (forall id :: id in s.queues ==>
          (id !in s'.queues <==>
             || (e.EvDeleteQueue? && FindQueue(s, e.name) == Some(id))
             || (e.EvExit? && s.queues[id].autoDel && s.queues[id].subs == [e.client])))
    && (forall id :: id in s.queues && id in s'.queues ==>
          QueueFollows(e, e.EvSubscribe? && FindQueue(s, e.name) == Some(id), s.queues[id], s'.queues[id]))
  }

  lemma RemoveTakesOne(subs: seq<int>, client: int)
    requires DistinctInts(subs)
    ensures WithoutClient(subs, client, Remove(subs, client))
  {
    hide Remove, DistinctInts;
    if client in subs {
      var k :| 0 <= k < |subs| && subs[k] == client;
      RemoveOne(subs, k);
    } else {
      RemoveAbsent(subs, client);
    }
  }

  lemma NobodyToTake(client: int)
    ensures WithoutClient([], client, Remove([], client))
  {
  }

  /** The subscribers after the client left the queues named in `left`. */
  ghost predicate SubscribersLeft(s: State, client: int, left: seq<string>, s': State) {
    forall id :: id in s'.queues ==>
      && id in s.queues && s'.queues[id].name == s.queues[id].name
      && s'.queues[id].subs
      == if s.queues[id].name in left then Remove(s.queues[id].subs, client) else s.queues[id].subs
  }

  lemma ExitOneShapes(s: State, client: int, name: string)
    ensures var s' := ExitQueue(s, client, name);
      if name in s.sub && s.sub[name] in s.queues then
        var id, q := s.sub[name], s.queues[s.sub[name]];
        && (forall i :: i in s'.queues ==> i in s.queues && (i != id ==> s'.queues[i] == s.queues[i]))
        && (id in s'.queues ==> s'.queues[id].name == q.name && s'.queues[id].subs == Remove(q.subs, client))
      else s' == s
  {
    hide Remove, WithoutQueue, DropWaiting;
  }

  lemma NamedSo(s: State, name: string, id: QueueId)
    requires Registry(s) && id in s.queues && s.queues[id].name == name
    ensures if name in s.sub then s.sub[name] == id else s.queues[id].subs == []
  {
    hide SoundQueue, BoundQueuesExist;
    assert Registered(s, id);
  }

  lemma ExitOneQueue(s: State, client: int, name: string)
    requires Registry(s)
    ensures SubscribersLeft(s, client, [name], ExitQueue(s, client, name))
  {
    hide Registry, ExitQueue;
    ExitOneShapes(s, client, name);
    if name in s.sub {
      SubscribersOf(s, name);
    }
    forall id | id in s.queues && s.queues[id].name == name
      ensures if name in s.sub then s.sub[name] == id else s.queues[id].subs == []
    {
      NamedSo(s, name, id);
    }
  }

  lemma LeaveOneMore(s: State, client: int, left: seq<string>, s1: State, name: string, s2: State)
    requires SubscribersLeft(s, client, left, s1) && SubscribersLeft(s1, client, [name], s2) && name !in left
    ensures SubscribersLeft(s, client, left + [name], s2)
  {
    hide Remove;
  }

  lemma {:induction false} SubscribersLeave(s: State, client: int, order: seq<string>)
    requires Inv(s) && (forall i, j :: 0 <= i < j < |order| ==> order[i] != order[j])
    ensures SubscribersLeft(s, client, order, ExitQueues(s, client, order))
    decreases |order|
  {
    if order != [] {
      hide Inv, ExitQueue, SubscribersLeft;
      var front, name := order[..|order| - 1], order[|order| - 1];
      SubscribersLeave(s, client, front);
      ExitQueuesKeeps(s, client, front);
      InvHasRegistry(ExitQueues(s, client, front));
      ExitOneQueue(ExitQueues(s, client, front), client, name);
      assert order == front + [name] && name !in front;
      LeaveOneMore(s, client, front, ExitQueues(s, client, front), name, ExitQueues(s, client, order));
    }
  }

  lemma ExitQueuesFollow(s: State, client: int, order: seq<string>)
    requires Inv(s) && Enumerates(order, s.sub.Keys)
    ensures QueuesFollow(s, EvExit(client, order), ClientExit(s, client, order))
  {
    hide Inv, ExitQueues, GiveBackAll, Kept, Forget, ClientExit, ByPriority, Remove, WithoutClient, FindQueue;
    var s' := ClientExit(s, client, order);
    ExitDeletesExactly(s, client, order);
    ExitGoesOn(s, client, order);
    forall id | id in s.queues && id in s'.queues
      ensures WithoutClient(s.queues[id].subs, client, s'.queues[id].subs)
    {
      ExitTakesClient(s, client, order, id);
    }
  }

  lemma ExitTakesClient(s: State, client: int, order: seq<string>, id: QueueId)
    requires Inv(s) && Enumerates(order, s.sub.Keys) && id in s.queues && id in ClientExit(s, client, order).queues
    ensures WithoutClient(s.queues[id].subs, client, ClientExit(s, client, order).queues[id].subs)
  {
    hide Inv, ExitQueues, GiveBackAll, Kept, Forget, WithoutClient, DistinctInts, FindQueue;
    var s0 := s.(stored := Forget(s.stored, client));
    SameHere(s, s0);
    SubscribersLeave(s0, client, order);
    var s1 := ExitQueues(s0, client, order);
    GivingBackChangesContents(s1, client, s1.needAck);
    if s.queues[id].subs == [] {
      NobodyToTake(client);
    } else {
      SubscribedUnder(s, id);
      RemoveTakesOne(s.queues[id].subs, client);
    }
  }

  lemma ContentsLeaveQueues(s: State, e: Event, s': State)
    requires OnlyContents(s, s') && (e.EvPublish? || e.EvPush? || e.EvRecv? || e.EvAck?)
    ensures QueuesFollow(s, e, s')
  {
    hide FindQueue;
  }

  lemma NewQueueShape(s: State, name: string, priority: int, durable: bool, autoDel: bool)
    requires s.nextQueue !in s.queues
    ensures var s' := CreateQueue(s, name, priority, durable, autoDel);
      if FindQueue(s, name).Some? then s' == s
      else
        && FindQueue(s', name) == Some(s.nextQueue) && s'.queues.Keys == s.queues.Keys + {s.nextQueue}
        && s'.queues == s.queues[s.nextQueue := s'.queues[s.nextQueue]]
        && var q := s'.queues[s.nextQueue];
          && q.name == name && q.priority == priority && q.durable == durable && q.autoDel == autoDel
          && q.subs == [] && q.heap == [] && q.list == []
  {
  }

  lemma NewQueueFollows(s: State, e: Event)
    requires e.EvCreateQueue? && s.nextQueue !in s.queues
    ensures QueuesFollow(s, e, Step(s, e))
  {
    hide CreateQueue, FindQueue;
    NewQueueShape(s, e.name, e.priority, e.durable, e.autoDel);
  }

  lemma DeletedQueueFollows(s: State, e: Event)
    requires e.EvDeleteQueue? && (FindQueue(s, e.name).Some? ==> FindQueue(s, e.name).value in s.queues)
    ensures QueuesFollow(s, e, Step(s, e))
  {
    hide FindQueue, WithoutQueue, DropWaiting;
  }

  lemma SubscriptionFollows(events: seq<Event>, e: Event)
    requires e.EvSubscribe?
    ensures QueuesFollow(Run(events), e, Step(Run(events), e))
  {
    hide Run, Step, FindQueue;
    SubscriptionTakesEffect(events, e.client, e.name, e.level);
    assert e == EvSubscribe(e.client, e.name, e.level);
  }

  /** Over every run: the queues change only so. */
  lemma QueuesChangeOnlySo(events: seq<Event>, e: Event)
    requires e.EvExit? ==> Enumerates(e.order, Run(events).sub.Keys)
    ensures QueuesFollow(Run(events), e, Step(Run(events), e))
  {
    hide Run, Inv, QueuesFollow, OnlyContents, Publish, PushOne, Recv, Ack, ClientExit, DeleteQueue, Registry, FindQueue;
    hide CreateQueue, SoundQueue;
    RunKeepsInv(events);
    var s := Run(events);
    InvHasRegistry(s);
    match e
    case EvPublish(p, order) =>
      PublishChangesContents(s, p, order);
      ContentsLeaveQueues(s, e, Step(s, e));
    case EvPush(_, _) =>
      HandingChangesContents(s, e);
      ContentsLeaveQueues(s, e, Step(s, e));
    case EvRecv(_, _, _, _) =>
      HandingChangesContents(s, e);
      ContentsLeaveQueues(s, e, Step(s, e));
    case EvAck(_) =>
      HandingChangesContents(s, e);
      ContentsLeaveQueues(s, e, Step(s, e));
    case EvSubscribe(_, _, _) => SubscriptionFollows(events, e);
    case EvDeleteQueue(name) =>
      FoundByName(s, name);
      DeletedQueueFollows(s, e);
    case EvCreateQueue(_, _, _, _) =>
      NextIsNew(s);
      NewQueueFollows(s, e);
    case EvExit(client, order) => ExitQueuesFollow(s, client, order);
    case _ => SameQueuesFollow(s, e, Step(s, e));
  }

  lemma SameQueuesFollow(s: State, e: Event, s': State)
    requires s'.queues == s.queues && (e.EvCreateExchange? || e.EvCreateBinding? || e.EvDeleteExchange?)
    ensures QueuesFollow(s, e, s')
  {
    hide FindQueue;
  }

  lemma QueuesStay(s: State, e: Event, s': State, id: QueueId)
    requires QueuesFollow(s, e, s') && id in s'.queues
    ensures id in s.queues ==>
      && s'.queues[id].name == s.queues[id].name && s'.queues[id].priority == s.queues[id].priority
      && s'.queues[id].durable == s.queues[id].durable && s'.queues[id].autoDel == s.queues[id].autoDel
    ensures id !in s.queues ==>
      var q := s'.queues[id]; e == EvCreateQueue(q.name, q.priority, q.durable, q.autoDel) && FindQueue(s, q.name).None?
  {
    hide FindQueue, Held, WithoutClient;
  }

  /** Every client that exits does so after a walk over all subscribed queues. */
  ghost predicate WholeWalks(events: seq<Event>) {
    forall i :: 0 <= i < |events| && events[i].EvExit? ==> Enumerates(events[i].order, Run(events[..i]).sub.Keys)
  }

  /** Over every run: each queue there is was made by a request that asked for its
      name, priority and flags when the name was free, and has been found under it
      ever since. */
  lemma {:induction false} QueueIsAsRequested(events: seq<Event>, id: QueueId) returns (i: nat)
    requires WholeWalks(events) && id in Run(events).queues
    ensures var q := Run(events).queues[id];
      && i < |events| && events[i] == EvCreateQueue(q.name, q.priority, q.durable, q.autoDel)
      && FindQueue(Run(events[..i]), q.name).None?
      && forall j :: i < j <= |events| ==> FindQueue(Run(events[..j]), q.name) == Some(id)
    decreases |events|
  {
    hide Step, QueuesFollow, Inv, Registry, FindQueue, Enumerates;
    var prev, e := events[..|events| - 1], events[|events| - 1];
    assert events[..|events|] == events && forall j :: 0 <= j <= |prev| ==> prev[..j] == events[..j];
    QueuesChangeOnlySo(prev, e);
    QueuesStay(Run(prev), e, Run(events), id);
    RunKeepsInv(events);
    InvHasRegistry(Run(events));
    FoundByItsName(Run(events), id);
    hide Run;
    if id in Run(prev).queues {
      i := QueueIsAsRequested(prev, id);
    } else {
      i := |prev|;
    }
  }

  // ------------------------------------------------------ files of queues

  function FilesAfter(files: set<string>, c: Command): set<string> {
    if c.MakeQueue? then files + {c.name} else if c.RemoveQueue? then files - {c.name} else files
  }

  /** The queues the persistence server keeps files for. */
  function FilesOf(cmds: seq<Command>): set<string> {
    if cmds == [] then {} else FilesAfter(FilesOf(cmds[..|cmds| - 1]), cmds[|cmds| - 1])
  }

  /** Files are made where there are none, and removed or written where there are. */
  ghost predicate InOrder(files: set<string>, c: Command) {
    match c
    case MakeQueue(name) => name !in files
    case RemoveQueue(name) => name in files
    case Store(name, _, _, _) => name in files
    case _ => true
  }

  ghost predicate AllInOrder(cmds: seq<Command>) {
    forall k :: 0 <= k < |cmds| ==> InOrder(FilesOf(cmds[..k]), cmds[k])
  }

  ghost predicate IsDurableQueue(s: State, name: string) {
    var found := FindQueue(s, name);
    found.Some? && found.value in s.queues && s.queues[found.value].durable
  }

  ghost predicate FilesMatch(s: State) {
    AllInOrder(s.toPersis) && forall n :: n in FilesOf(s.toPersis) <==> IsDurableQueue(s, n)
  }

  lemma OneMoreCommand(cmds: seq<Command>, c: Command)
    requires AllInOrder(cmds) && InOrder(FilesOf(cmds), c)
    ensures AllInOrder(cmds + [c])
    ensures FilesOf(cmds + [c]) == FilesAfter(FilesOf(cmds), c)
  {
    var all := cmds + [c];
    assert all[..|cmds|] == cmds;
    forall k | 0 <= k < |all|
      ensures InOrder(FilesOf(all[..k]), all[k])
    {
      assert k < |cmds| ==> all[..k] == cmds[..k];
    }
  }

  /** Nothing about files is sent, and no queue comes, goes or changes its flag. */
  lemma FilesStay(s: State, s': State, sent: seq<Command>)
    requires FilesMatch(s) && s'.toPersis == s.toPersis + sent && |sent| <= 1
    requires sent != [] ==> InOrder(FilesOf(s.toPersis), sent[0]) && !sent[0].MakeQueue? && !sent[0].RemoveQueue?
    requires forall n :: IsDurableQueue(s', n) <==> IsDurableQueue(s, n)
    ensures FilesMatch(s')
  {
    hide FilesOf, InOrder, AllInOrder, IsDurableQueue;
    if sent == [] {
      assert s.toPersis + sent == s.toPersis;
    } else {
      OneMoreCommand(s.toPersis, sent[0]);
      assert sent == [sent[0]];
    }
  }

  lemma SameDurable(s: State, s': State)
    requires OnlyContents(s, s')
    ensures forall n :: IsDurableQueue(s', n) <==> IsDurableQueue(s, n)
  {
  }

  lemma StoreShape(s: State, p: Publication, id: QueueId)
    ensures var s' := StoreOne(s, p, id);
      if id in s.queues && p.durable && s.queues[id].durable then
        s'.toPersis == s.toPersis + [Store(s.queues[id].name, s.queues[id].nextDurable, p.priority, p.body)]
      else s'.toPersis == s.toPersis + []
  {
    hide Add;
    assert s.toPersis + [] == s.toPersis;
  }

  lemma StoreKeepsFiles(s: State, p: Publication, id: QueueId)
    requires Registry(s) && FilesMatch(s)
    ensures FilesMatch(StoreOne(s, p, id))
  {
    hide StoreOne, OnlyContents, FilesOf, AllInOrder, Registry, FindQueue;
    StoreShape(s, p, id);
    StoreChangesContents(s, p, id);
    SameDurable(s, StoreOne(s, p, id));
    if id in s.queues && p.durable && s.queues[id].durable {
      FoundByItsName(s, id);
      assert IsDurableQueue(s, s.queues[id].name);
      FilesStay(s, StoreOne(s, p, id), [Store(s.queues[id].name, s.queues[id].nextDurable, p.priority, p.body)]);
    } else {
      FilesStay(s, StoreOne(s, p, id), []);
    }
  }

  lemma {:induction false} StoringKeepsFiles(s: State, p: Publication, list: seq<QueueId>)
    requires Inv(s) && FilesMatch(s)
    ensures FilesMatch(StoreAll(s, p, list))
    decreases |list|
  {
    if list != [] {
      hide Inv, FilesMatch, StoreOne;
      var front := list[..|list| - 1];
      StoringKeepsFiles(s, p, front);
      StoreAllKeeps(s, p, front);
      InvHasRegistry(StoreAll(s, p, front));
      StoreKeepsFiles(StoreAll(s, p, front), p, list[|list| - 1]);
    }
  }

  lemma SameFiles(s: State, s': State)
    requires FilesMatch(s) && OnlyContents(s, s') && s'.toPersis == s.toPersis
    ensures FilesMatch(s')
  {
    hide OnlyContents, AllInOrder, FilesOf, IsDurableQueue;
    SameDurable(s, s');
  }

  lemma PublishKeepsFiles(s: State, p: Publication, order: seq<string>)
    requires Inv(s) && FilesMatch(s)
    ensures FilesMatch(Publish(s, p, order))
  {
    hide Inv, StoreAll, Targets, Publish, FilesMatch, OnlyContents, IsRepeat;
    var s', s1 := Publish(s, p, order), StoredOrNot(s, p, order);
    PublishParts(s, p, order);
    StoringKeepsFiles(s, p, Targets(s, p, order));
    SameRegistry(s1, s');
    SameFiles(s1, s');
  }

  lemma HandingKeepsFiles(s: State, e: Event)
    requires FilesMatch(s) && (e.EvPush? || e.EvRecv? || e.EvAck?)
    ensures FilesMatch(Step(s, e))
  {
    hide Step, FilesMatch, OnlyContents;
    HandingChangesContents(s, e);
    var s' := Step(s, e);
    SameDurable(s, s');
    if s'.toPersis == s.toPersis {
      SameFiles(s, s');
    } else {
      var n, i :| s'.toPersis == s.toPersis + [Consume(n, i)];
      FilesStay(s, s', [Consume(n, i)]);
    }
  }

  /** One queue went, its files with it if it had some. */
  lemma GoneWithFiles(s: State, s': State, name: string, sent: seq<Command>)
    requires FilesMatch(s) && s'.toPersis == s.toPersis + sent
    requires sent == if IsDurableQueue(s, name) then [RemoveQueue(name)] else []
    requires forall n :: IsDurableQueue(s', n) <==> IsDurableQueue(s, n) && n != name
    ensures FilesMatch(s')
  {
    hide FilesOf, AllInOrder, IsDurableQueue;
    if IsDurableQueue(s, name) {
      OneMoreCommand(s.toPersis, RemoveQueue(name));
      assert FilesOf(s'.toPersis) == FilesOf(s.toPersis) - {name};
    } else {
      assert s.toPersis + [] == s.toPersis;
    }
  }

  lemma DroppedShape(s: State, name: string)
    requires FindQueue(s, name).Some? && FindQueue(s, name).value in s.queues
    requires forall n :: n != name && FindQueue(s, n).Some? ==> FindQueue(s, n).value != FindQueue(s, name).value
    ensures var s' := DeleteQueue(s, name);
      && s'.toPersis == s.toPersis + (if IsDurableQueue(s, name) then [RemoveQueue(name)] else [])
      && forall n :: IsDurableQueue(s', n) <==> IsDurableQueue(s, n) && n != name
  {
    hide WithoutQueue, DropWaiting;
  }

  lemma OnlyUnderItsName(s: State, name: string)
    requires Registry(s) && FindQueue(s, name).Some?
    ensures FindQueue(s, name).value in s.queues
    ensures forall n :: n != name && FindQueue(s, n).Some? ==> FindQueue(s, n).value != FindQueue(s, name).value
  {
    hide SoundQueue, BoundQueuesExist, Registered;
  }

  lemma DeletionKeepsFiles(s: State, name: string)
    requires Registry(s) && FilesMatch(s)
    ensures FilesMatch(DeleteQueue(s, name))
  {
    hide Registry, FilesMatch, FindQueue, DropQueue;
    if FindQueue(s, name).Some? {
      OnlyUnderItsName(s, name);
      DroppedShape(s, name);
      hide DeleteQueue, IsDurableQueue;
      GoneWithFiles(s, DeleteQueue(s, name), name, if IsDurableQueue(s, name) then [RemoveQueue(name)] else []);
    }
  }

  lemma LeftShape(s: State, client: int, name: string)
    requires name in s.sub && s.sub[name] in s.queues && name !in s.unsub
    requires forall n :: n != name && FindQueue(s, n).Some? ==> FindQueue(s, n).value != s.sub[name]
    ensures var s' := ExitQueue(s, client, name);
      if s.sub[name] in s'.queues then
        s'.toPersis == s.toPersis && forall n :: IsDurableQueue(s', n) <==> IsDurableQueue(s, n)
      else
        && s'.toPersis == s.toPersis + (if IsDurableQueue(s, name) then [RemoveQueue(name)] else [])
        && forall n :: IsDurableQueue(s', n) <==> IsDurableQueue(s, n) && n != name
  {
    hide WithoutQueue, DropWaiting, Remove;
    var q := s.queues[s.sub[name]];
    if q.autoDel && Unsubscribe(q, client).subs == [] && q.subs != [] {
      assert s.sub[name] !in ExitQueue(s, client, name).queues;
    }
  }

  lemma LeavingOneKeepsFiles(s: State, client: int, name: string)
    requires Registry(s) && FilesMatch(s)
    ensures FilesMatch(ExitQueue(s, client, name))
  {
    hide Registry, FilesOf, AllInOrder, ExitQueue, IsDurableQueue, SoundQueue;
    ExitFrame(s, client, name);
    if name in s.sub {
      var s' := ExitQueue(s, client, name);
      SubscribersOf(s, name);
      FoundByName(s, name);
      OnlyUnderItsName(s, name);
      assert name !in s.unsub;
      LeftShape(s, client, name);
      if s.sub[name] !in s'.queues {
        GoneWithFiles(s, s', name, if IsDurableQueue(s, name) then [RemoveQueue(name)] else []);
      }
    }
  }

  lemma {:induction false} LeavingKeepsFiles(s: State, client: int, order: seq<string>)
    requires Inv(s) && FilesMatch(s)
    ensures FilesMatch(ExitQueues(s, client, order))
    decreases |order|
  {
    if order != [] {
      hide Inv, FilesMatch, ExitQueue;
      var front := order[..|order| - 1];
      LeavingKeepsFiles(s, client, front);
      ExitQueuesKeeps(s, client, front);
      InvHasRegistry(ExitQueues(s, client, front));
      LeavingOneKeepsFiles(ExitQueues(s, client, front), client, order[|order| - 1]);
    }
  }

  lemma ExitKeepsFiles(s: State, client: int, order: seq<string>)
    requires Inv(s) && FilesMatch(s)
    ensures FilesMatch(ClientExit(s, client, order))
  {
    hide Inv, FilesMatch, ExitQueues, GiveBackAll, Kept, Forget, OnlyContents;
    var s0 := s.(stored := Forget(s.stored, client));
    SameHere(s, s0);
    SameRegistry(s, s0);
    SameFiles(s, s0);
    LeavingKeepsFiles(s0, client, order);
    var s1 := ExitQueues(s0, client, order);
    GivingBackChangesContents(s1, client, s1.needAck);
    var s2 := GiveBackAll(s1, client, s1.needAck);
    SameFiles(s1, s2);
    SameRegistry(s2, ClientExit(s, client, order));
    SameFiles(s2, ClientExit(s, client, order));
  }

  lemma MadeShape(s: State, name: string, priority: int, durable: bool, autoDel: bool)
    requires Registry(s) && s.nextQueue !in s.queues
    ensures var s' := CreateQueue(s, name, priority, durable, autoDel);
      if FindQueue(s, name).Some? then s' == s
      else
        && s'.toPersis == s.toPersis + (if durable then [MakeQueue(name)] else [])
        && forall n :: IsDurableQueue(s', n) <==> IsDurableQueue(s, n) || (n == name && durable)
  {
    hide SoundQueue, BoundQueuesExist, Registered;
  }

  lemma MakingKeepsFiles(s: State, name: string, priority: int, durable: bool, autoDel: bool)
    requires Registry(s) && s.nextQueue !in s.queues && FilesMatch(s)
    ensures FilesMatch(CreateQueue(s, name, priority, durable, autoDel))
  {
    MadeShape(s, name, priority, durable, autoDel);
    assert FindQueue(s, name).None? ==> !IsDurableQueue(s, name);
    hide FilesOf, AllInOrder, CreateQueue, IsDurableQueue, FindQueue, Registry;
    if FindQueue(s, name).None? {
      if durable {
        OneMoreCommand(s.toPersis, MakeQueue(name));
      } else {
        assert s.toPersis + [] == s.toPersis;
      }
    }
  }

  lemma SubscribingKeepsFiles(events: seq<Event>, e: Event)
    requires e.EvSubscribe? && FilesMatch(Run(events))
    ensures FilesMatch(Step(Run(events), e))
  {
    hide Run, Step, FilesOf, AllInOrder;
    SubscriptionTakesEffect(events, e.client, e.name, e.level);
    assert e == EvSubscribe(e.client, e.name, e.level);
  }

  lemma StepKeepsFiles(events: seq<Event>, e: Event)
    requires FilesMatch(Run(events))
    ensures FilesMatch(Step(Run(events), e))
  {
    hide Run, Inv, FilesMatch, OnlyContents, Publish, PushOne, Recv, Ack, ClientExit, DeleteQueue, CreateQueue;
    hide Registry, CreateSubscribe, Bind;
    RunKeepsInv(events);
    var s := Run(events);
    InvHasRegistry(s);
    match e
    case EvPublish(p, order) => PublishKeepsFiles(s, p, order);
    case EvPush(_, _) => HandingKeepsFiles(s, e);
    case EvRecv(_, _, _, _) => HandingKeepsFiles(s, e);
    case EvAck(_) => HandingKeepsFiles(s, e);
    case EvExit(client, order) => ExitKeepsFiles(s, client, order);
    case EvDeleteQueue(name) => DeletionKeepsFiles(s, name);
    case EvCreateQueue(name, priority, durable, autoDel) =>
      NextIsNew(s);
      MakingKeepsFiles(s, name, priority, durable, autoDel);
    case EvSubscribe(_, _, _) => SubscribingKeepsFiles(events, e);
    case _ => OtherExchangesKeepFiles(s, Step(s, e));
  }

  lemma OtherExchangesKeepFiles(s: State, s': State)
    requires FilesMatch(s) && s' == s.(exchanges := s'.exchanges)
    ensures FilesMatch(s')
  {
    hide FilesOf, AllInOrder;
  }

  /** Over every run: the persistence server keeps files for exactly the durable
      queues there are; it is never told to make files that are there, to remove
      files that are not, or to store a message for a queue without files. */
  lemma {:induction false} FilesAreOfDurableQueues(events: seq<Event>)
    ensures var s := Run(events);
      && (forall n :: n in FilesOf(s.toPersis) <==>
            var found := FindQueue(s, n); found.Some? && found.value in s.queues && s.queues[found.value].durable)
      && forall k :: 0 <= k < |s.toPersis| ==>
           var files, c := FilesOf(s.toPersis[..k]), s.toPersis[k];
           && (c.MakeQueue? ==> c.name !in files)
           && (c.RemoveQueue? || c.Store? ==> c.name in files)
    decreases |events|
  {
    MatchOverRuns(events);
    hide Run, FindQueue, FilesOf;
    var s := Run(events);
    forall n
      ensures n in FilesOf(s.toPersis) <==>
        var found := FindQueue(s, n); found.Some? && found.value in s.queues && s.queues[found.value].durable
    {
      assert n in FilesOf(s.toPersis) <==> IsDurableQueue(s, n);
    }
    forall k | 0 <= k < |s.toPersis|
      ensures s.toPersis[k].MakeQueue? ==> s.toPersis[k].name !in FilesOf(s.toPersis[..k])
      ensures s.toPersis[k].RemoveQueue? || s.toPersis[k].Store? ==> s.toPersis[k].name in FilesOf(s.toPersis[..k])
    {
      assert InOrder(FilesOf(s.toPersis[..k]), s.toPersis[k]);
    }
  }

  lemma {:induction false} MatchOverRuns(events: seq<Event>)
    ensures FilesMatch(Run(events))
    decreases |events|
  {
    if events != [] {
      hide FilesMatch, Step;
      var prev := events[..|events| - 1];
      MatchOverRuns(prev);
      StepKeepsFiles(prev, events[|events| - 1]);
    }
  }

  // ------------------------------------------------------------------ answers

  lemma {:induction false} StoringSendsNothing(s: State, p: Publication, list: seq<QueueId>)
    ensures StoreAll(s, p, list).toConnect == s.toConnect
    decreases |list|
  {
    if list != [] {
      StoringSendsNothing(s, p, list[..|list| - 1]);
      hide Add;
    }
  }

  lemma AnswerShape(s: State, p: Publication, order: seq<string>)
    requires StoreAll(s, p, Targets(s, p, order)).toConnect == s.toConnect
    ensures Publish(s, p, order).toConnect == s.toConnect
      + if IsRepeat(s, p) then [ServerAck(-1, p.seqNo)]
        else if Targets(s, p, order) == [] then [Reply(p.client, false, Complaint(s, p))]
        else if p.level == PRODUCER_SINGLE_ACK then [ServerAck(p.client, p.seqNo)]
        else []
  {
    hide StoreAll, Targets, IsRepeat, SeqKey, Complaint;
    assert s.toConnect + [] == s.toConnect;
  }

  /** A walk over all bindings finds nothing exactly if no bound key matches. */
  lemma NothingIsFound(e: ExchangeState, routingKey: string, order: seq<string>)
    requires Singletons(e) && Enumerates(order, e.bindings.Keys)
    ensures Find(e, routingKey, order) == [] <==>
      forall k :: k in e.bindings ==> !Matches(e.kind, routingKey, k)
  {
    hide Find, Matches, Enumerates;
    FoundAreRouted(e, routingKey, order);
    if k :| k in e.bindings && Matches(e.kind, routingKey, k) {
      assert Routed(e, routingKey, e.bindings[k][0]);
    }
    if Find(e, routingKey, order) != [] {
      assert Routed(e, routingKey, Find(e, routingKey, order)[0]);
    }
  }

  /** Over every run: a publication is answered with a complaint if its exchange is
      missing or no bound key matches, with an ack to its client if it asked for
      single acks, and a repetition with an ack to client -1; nothing else is sent. */
  lemma PublicationIsAnswered(events: seq<Event>, p: Publication, order: seq<string>)
    requires IsWalk(Run(events), p.exchange, order)
    ensures var s, s' := Run(events), Step(Run(events), EvPublish(p, order));
      s'.toConnect == s.toConnect
        + if p.level > 0 && SeqKey(p.client, p.seqNo) in s.stored then [ServerAck(-1, p.seqNo)]
          else if p.exchange !in s.exchanges then
            [Reply(p.client, false, "Exchange not exist! name is " + p.exchange)]
          else if forall k :: k in s.exchanges[p.exchange].bindings ==>
                    !Matches(s.exchanges[p.exchange].kind, p.routingKey, k) then
            [Reply(p.client, false, "Fit queue not exist! routing key is " + p.routingKey)]
          else if p.level == PRODUCER_SINGLE_ACK then [ServerAck(p.client, p.seqNo)]
          else []
  {
    hide Run, Inv, Matches, Publish, StoreAll, Find, Singletons, SeqKey, Enumerates;
    RunKeepsInv(events);
    var s := Run(events);
    InvNothingDangles(s);
    StoringSendsNothing(s, p, Targets(s, p, order));
    AnswerShape(s, p, order);
    if p.exchange in s.exchanges {
      NothingIsFound(s.exchanges[p.exchange], p.routingKey, order);
    }
  }
}
