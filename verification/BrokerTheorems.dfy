/** What the broker guarantees over all runs: registries, bindings and the
    fate of every message copy. */
module BrokerTheorems {
  import opened CommonDefs
  import opened MessageQueues
  import opened Exchanges
  import opened Broker
  import opened BrokerInvariant
  import opened ClientExits
  import opened Topic

  // ------------------------------------------------------------ registry

  /** In every reachable state: a name is in one registry at most, a queue is in
      the subscribed one exactly when it has a subscriber, nobody subscribes
      twice, and whatever a key is bound to can be found by name. */
  lemma RegistriesAgree(events: seq<Event>)
    ensures var s := Run(events);
      && (forall n :: !(n in s.sub && n in s.unsub))
      && (forall n :: n in s.sub ==> s.sub[n] in s.queues && s.queues[s.sub[n]].subs != [])
      && (forall n :: n in s.unsub ==> s.unsub[n] in s.queues && s.queues[s.unsub[n]].subs == [])
      && (forall id :: id in s.queues ==>
            DistinctInts(s.queues[id].subs) && FindQueue(s, s.queues[id].name) == Some(id))
      && (forall n, k :: n in s.exchanges && k in s.exchanges[n].bindings ==>
            && |s.exchanges[n].bindings[k]| == 1 && s.exchanges[n].bindings[k][0] in s.queues)
  {
    RunKeepsInv(events);
    hide Run, Placed, Numbered;
  }

  /** Deleting a queue takes it out of the registries and of every exchange, and
      deletes just those exchanges that delete themselves and bound nothing
      else; all other bindings stay. */
  lemma DeletedQueueIsForgotten(events: seq<Event>, name: string)
    requires FindQueue(Run(events), name).Some?
    ensures var s := Run(events); var id := FindQueue(s, name).value; var s' := DeleteQueue(s, name);
      && id in s.queues && id !in s'.queues && FindQueue(s', name).None?
      && (forall n :: n in s'.exchanges ==> !RefersTo(s'.exchanges[n], id))
      && (forall n :: n in s.exchanges ==>
            (n !in s'.exchanges <==> s.exchanges[n].autoDel && OnlyBinds(s.exchanges[n], id)))
      && (forall n, k :: n in s'.exchanges && n in s.exchanges ==>
            (k in s'.exchanges[n].bindings <==> k in s.exchanges[n].bindings && s.exchanges[n].bindings[k] != [id]))
      && (forall a :: a in s.place && s.place[a] == Waiting(id) ==> s'.place[a] == Dropped)
      && (forall a :: a in s.place && s.place[a] != Waiting(id) ==> s'.place[a] == s.place[a])
  {
    RunKeepsInv(events);
    FoundByName(Run(events), name);
    hide Run, Placed, Numbered, SoundQueue;
    var s := Run(events);
    WithoutQueueForgets(s.exchanges, FindQueue(s, name).value);
    hide WithoutQueue, RefersTo, OnlyBinds;
    StaysUnlisted(s, name);
  }

  lemma StaysUnlisted(s: State, name: string)
    ensures FindQueue(DeleteQueue(s, name), name).Some? ==> FindQueue(s, name).Some? && FindQueue(s, name).value !in s.queues
  {
  }

  // ----------------------------------------------------------- conservation

  /** In every reachable state every copy ever stored is in one place, and the
      queues and the pending list hold exactly the copies placed there. */
  lemma EveryCopyInOnePlace(events: seq<Event>)
    ensures var s := Run(events);
      && (forall a :: a in s.place <==> 0 <= a < s.nextAddr)
      && (forall id :: id in s.queues ==> Bag(Held(s.queues[id])) == multiset(At(s.place, Waiting(id))))
      && Bag(s.needAck) == multiset(At(s.place, Pending))
      && (forall a :: a in s.place && s.place[a].Waiting? ==> s.place[a].queue in s.queues)
  {
    RunKeepsInv(events);
    hide Run, Registry, Numbered, Bag;
    var s := Run(events);
    forall id | id in s.queues
      ensures Bag(Held(s.queues[id])) == multiset(At(s.place, Waiting(id)))
    {
      assert Watched(Waiting(id));
    }
    forall a | a in s.place && s.place[a].Waiting?
      ensures s.place[a].queue in s.queues
    {
      assert Watched(s.place[a]);
      assert a in multiset(At(s.place, s.place[a]));
    }
    assert Watched(Pending);
  }

  /** How the step of an event may move copy a: a push or a request only out of
      the queue it names, an ack only the message it names, and a copy is
      dropped only when its queue is gone. */
  ghost predicate Moveable(s: State, e: Event, s': State, a: nat)
    requires a in s.place && a in s'.place
  {
    var p, p' := s.place[a], s'.place[a];
    || p == p'
    || (e.EvPush? && e.name in s.sub && p == Waiting(s.sub[e.name]) && (p'.Pending? || p'.Delivered?))
    || (e.EvRecv? && p.Waiting? && FindQueue(s, e.name) == Some(p.queue)
        && p' == (if e.level > 0 then Pending else Delivered))
    || (e.EvAck? && p.Pending? && p'.Acked? && exists m :: m in s.needAck && m.addr == a && m.seqNo == e.seqNo)
    || (e.EvExit? && p.Waiting? && p'.Dropped? && p.queue !in s'.queues)
    || (e.EvExit? && p.Pending? && exists m :: m in s.needAck && m.addr == a && m.client == e.client && p' == Home(s', m))
    || (e.EvDeleteQueue? && p.Waiting? && p'.Dropped? && FindQueue(s, e.name) == Some(p.queue) && p.queue !in s'.queues)
  }

  /** A copy moves only in these ways, and every event but a publication leaves
      the number of copies alone. */
  lemma CopiesMoveOnlySo(events: seq<Event>, e: Event)
    ensures var s, s' := Run(events), Step(Run(events), e);
      && (forall a :: a in s.place ==> a in s'.place && Moveable(s, e, s', a))
      && (!e.EvPublish? ==> s'.nextAddr == s.nextAddr)
  {
    hide Run, Inv, Home, Publish, PushOne, Recv, Ack, ClientExit;
    RunKeepsInv(events);
    var s := Run(events);
    match e
    case EvPublish(p, order) =>
      PublishMoves(s, p, order);
    case EvPush(name, top) =>
      PushMoves(s, name, top);
    case EvRecv(client, name, level, top) =>
      RecvMoves(s, client, name, level, top);
    case EvAck(seqNo) =>
      AckMoves(s, seqNo);
    case EvExit(client, order) =>
      ExitMoves(s, client, order);
    case _ =>
      RequestsMove(s, e);
  }

  /** The other requests move nothing but what waits in a deleted queue. */
  lemma RequestsMove(s: State, e: Event)
    requires !e.EvPublish? && !e.EvPush? && !e.EvRecv? && !e.EvAck? && !e.EvExit?
    ensures var s' := Step(s, e);
      s'.nextAddr == s.nextAddr && forall a :: a in s.place ==> a in s'.place && Moveable(s, e, s', a)
  {
    hide Home, WithoutQueue, Subscribe, Bind, NewQueue, Publish, PushOne, Recv, Ack, ClientExit;
  }

  lemma {:induction false} StoreAllMoves(s: State, p: Publication, list: seq<QueueId>)
    requires forall a :: a in s.place ==> a < s.nextAddr
    ensures var s' := StoreAll(s, p, list);
      && s'.nextAddr >= s.nextAddr && (forall a :: a in s'.place ==> a < s'.nextAddr)
      && (forall a :: a in s.place ==> a in s'.place && s'.place[a] == s.place[a])
    decreases |list|
  {
    if list != [] {
      StoreAllMoves(s, p, list[..|list| - 1]);
      hide Add;
    }
  }

  lemma PublishMoves(s: State, p: Publication, order: seq<string>)
    requires Inv(s)
    ensures var s' := Publish(s, p, order);
      forall a :: a in s.place ==> a in s'.place && s'.place[a] == s.place[a]
  {
    hide StoreAll, Targets, SeqKey, Registry, Numbered, Stock;
    StoreAllMoves(s, p, Targets(s, p, order));
  }

  lemma PushMoves(s: State, name: string, top: nat)
    requires Inv(s)
    ensures PushOne(s, name, top).nextAddr == s.nextAddr
    ensures var s' := PushOne(s, name, top);
      forall a :: a in s.place ==> a in s'.place && Moveable(s, EvPush(name, top), s', a)
  {
    if name in s.sub && s.sub[name] in s.queues {
      var id := s.sub[name];
      var q := s.queues[id];
      if CanPop(q, true, top) {
        PopTakes(s, id, true, top);
        WasWaiting(s, Bag(s.needAck), id, Pop(q, true, top).0, Pop(q, true, top).1);
        hide Inv, CanPop, Pop, TakenFrom;
      }
    }
  }

  lemma RecvMoves(s: State, client: int, name: string, level: nat, top: nat)
    requires Inv(s)
    ensures Recv(s, client, name, level, top).nextAddr == s.nextAddr
    ensures var s' := Recv(s, client, name, level, top);
      forall a :: a in s.place ==> a in s'.place && Moveable(s, EvRecv(client, name, level, top), s', a)
  {
    FoundByName(s, name);
    var id := FindQueue(s, name);
    if id.Some? {
      var q := s.queues[id.value];
      if CanPop(q, false, top) {
        PopTakes(s, id.value, false, top);
        WasWaiting(s, Bag(s.needAck), id.value, Pop(q, false, top).0, Pop(q, false, top).1);
        hide Inv, CanPop, Pop, TakenFrom;
      }
    }
  }

  lemma AckMoves(s: State, seqNo: int)
    requires Inv(s)
    ensures Ack(s, seqNo).nextAddr == s.nextAddr
    ensures var s' := Ack(s, seqNo);
      forall a :: a in s.place ==> a in s'.place && Moveable(s, EvAck(seqNo), s', a)
  {
    var i := Position(s.needAck, seqNo);
    if i < |s.needAck| {
      IsPending(s, i);
      hide Inv;
    }
  }

  lemma ExitMoves(s: State, client: int, order: seq<string>)
    requires Inv(s)
    ensures ClientExit(s, client, order).nextAddr == s.nextAddr
    ensures var s' := ClientExit(s, client, order);
      forall a :: a in s.place ==> a in s'.place && Moveable(s, EvExit(client, order), s', a)
  {
    ExitMovesExactly(s, client, order);
    hide ClientExit, Home, ExchangesPruned;
    var s' := ClientExit(s, client, order);
    forall a | a in s.place
      ensures a in s'.place && Moveable(s, EvExit(client, order), s', a)
    {
      if s.place[a].Pending? {
        var i := CarriedBy(s, a);
        hide Inv;
        assert s.needAck[i] in s.needAck;
      }
    }
  }

  /** A copy that is pending is in the pending list. */
  lemma CarriedBy(s: State, a: nat) returns (i: nat)
    requires Inv(s) && a in s.place && s.place[a] == Pending
    ensures i < |s.needAck| && s.needAck[i].addr == a
  {
    hide Registry, Numbered, Bag, Stock;
    StockOfPending(s.queues, Bag(s.needAck));
    assert Watched(Pending);
    assert a in multiset(At(s.place, Pending));
    i := BagHas(s.needAck, a);
  }

  // -------------------------------------------------------------- publishing

  lemma {:induction false} StoreAllCounts(s: State, p: Publication, list: seq<QueueId>, q: QueueId)
    requires forall a :: a in s.place ==> a < s.nextAddr
    requires forall i :: 0 <= i < |list| ==> list[i] in s.queues
    ensures var s' := StoreAll(s, p, list);
      && s'.queues.Keys == s.queues.Keys && (forall a :: a in s'.place ==> a < s'.nextAddr)
      && s'.nextAddr == s.nextAddr + |list|
      && |At(s'.place, Waiting(q))| == |At(s.place, Waiting(q))| + Count(list, q)
    decreases |list|
  {
    if list != [] {
      hide StoreOne, At;
      var front, t := list[..|list| - 1], list[|list| - 1];
      StoreAllCounts(s, p, front, q);
      StoreOneCounts(StoreAll(s, p, front), p, t, q);
    }
  }

  lemma StoreOneCounts(s: State, p: Publication, t: QueueId, q: QueueId)
    requires (forall a :: a in s.place ==> a < s.nextAddr) && t in s.queues
    ensures var s' := StoreOne(s, p, t);
      && s'.queues.Keys == s.queues.Keys && (forall a :: a in s'.place ==> a < s'.nextAddr)
      && s'.nextAddr == s.nextAddr + 1
      && |At(s'.place, Waiting(q))| == |At(s.place, Waiting(q))| + (if t == q then 1 else 0)
  {
    hide Add;
    assert At(s.place[s.nextAddr := Waiting(t)], Waiting(q))
        == if t == q then At(s.place, Waiting(q)) + {s.nextAddr} else At(s.place, Waiting(q));
    assert s.nextAddr !in At(s.place, Waiting(q));
  }

  /** A publication that is not a repetition adds to each queue as many copies as
      it has selected keys in the exchange, and to nothing else; a repetition
      adds none. */
  lemma PublishAddsPerKey(events: seq<Event>, p: Publication, order: seq<string>, q: QueueId)
    requires forall i, j :: 0 <= i < j < |order| ==> order[i] != order[j]
    ensures var s, s' := Run(events), Publish(Run(events), p, order);
      |At(s'.place, Waiting(q))| - |At(s.place, Waiting(q))|
      == if IsRepeat(s, p) || p.exchange !in s.exchanges then 0
         else |KeysOf(s.exchanges[p.exchange], p.routingKey, order, q)|
  {
    hide Run, Inv, Registry, SeqKey, KeysOf, Find, Selects, IsRepeat, Singletons, At, StoreAll;
    RunKeepsInv(events);
    var s := Run(events);
    InvHasRegistry(s);
    CopiesAreNumbered(s);
    var list := Targets(s, p, order);
    if !IsRepeat(s, p) && p.exchange in s.exchanges {
      AllSingle(s, p.exchange);
      ListedOncePerKey(s.exchanges[p.exchange], p.routingKey, order, q);
      TargetsExist(s, p, order);
    }
    StoreAllCounts(s, p, list, q);
  }

  lemma AllSingle(s: State, name: string)
    requires Registry(s) && name in s.exchanges
    ensures Singletons(s.exchanges[name])
  {
    hide Registered, SoundQueue, Singletons;
  }

  lemma CopiesAreNumbered(s: State)
    requires Inv(s)
    ensures forall a :: a in s.place ==> a < s.nextAddr
  {
    hide Registry, Numbered, Stock, Bag;
  }

  // ------------------------------------------- several queues under one key

  /** Binding a queue under a key, a request that is never refused when exchange
      and queue exist, has its effect exactly when the key was free or bound to
      this queue; otherwise nothing changes. */
  lemma BindingTakesEffect(events: seq<Event>, exchange: string, queue: string, key: string)
    requires exchange in Run(events).exchanges && FindQueue(Run(events), queue).Some?
    ensures var s, s' := Run(events), CreateBinding(Run(events), exchange, queue, key);
      var id, b, b' := FindQueue(s, queue).value, s.exchanges[exchange].bindings, s'.exchanges[exchange].bindings;
      && key in b' && (id in b'[key] <==> (key in b ==> b[key] == [id]))
      && (key in b ==> s' == s)
  {
    hide Run, Inv, SoundQueue, Registered;
    RunKeepsInv(events);
    var s := Run(events);
    InvHasRegistry(s);
    FoundByName(s, queue);
    AllSingle(s, exchange);
    hide Registry;
    var b := s.exchanges[exchange].bindings;
    if key in b {
      assert b[key] == [b[key][0]];
      assert s.exchanges[exchange := s.exchanges[exchange]] == s.exchanges;
    }
  }

  /** A publication to a direct exchange adds one copy to the one queue that its
      key is bound to, and none to any other queue. */
  lemma DirectPublicationAddsToOne(events: seq<Event>, p: Publication, order: seq<string>, q: QueueId)
    requires p.exchange in Run(events).exchanges
    requires Run(events).exchanges[p.exchange].kind == EXCHANGE_TYPE_DIRECT
    requires Enumerates(order, Run(events).exchanges[p.exchange].bindings.Keys)
    ensures var s, s' := Run(events), Publish(Run(events), p, order); var b := s.exchanges[p.exchange].bindings;
      |At(s'.place, Waiting(q))| - |At(s.place, Waiting(q))|
      == if !IsRepeat(s, p) && p.routingKey in b && b[p.routingKey] == [q] then 1 else 0
  {
    hide Run, At, IsRepeat, Publish;
    PublishAddsPerKey(events, p, order, q);
    var e := Run(events).exchanges[p.exchange];
    var keys := KeysOf(e, p.routingKey, order, q);
    if p.routingKey in e.bindings && e.bindings[p.routingKey] == [q] {
      assert keys == {p.routingKey};
    } else {
      assert keys == {};
    }
  }

  /** The keys bound to the queue that the routing key reaches. */
  function RoutesTo(e: ExchangeState, routingKey: string, q: QueueId): set<string> {
    set k | k in e.bindings && e.bindings[k] == [q] && Matches(e.kind, routingKey, k)
  }

  lemma KeysAreRoutes(e: ExchangeState, routingKey: string, order: seq<string>, q: QueueId)
    requires Enumerates(order, e.bindings.Keys)
    ensures KeysOf(e, routingKey, order, q) == RoutesTo(e, routingKey, q)
  {
    hide Selects, Matches;
    forall k
      ensures k in KeysOf(e, routingKey, order, q) <==> k in RoutesTo(e, routingKey, q)
    {
      SelectsMatching(e, routingKey, k);
    }
  }

  lemma RoutedPublication(events: seq<Event>, p: Publication, order: seq<string>, q: QueueId)
    requires p.exchange in Run(events).exchanges
    requires Enumerates(order, Run(events).exchanges[p.exchange].bindings.Keys)
    ensures var s, s' := Run(events), Step(Run(events), EvPublish(p, order));
      |At(s'.place, Waiting(q))| - |At(s.place, Waiting(q))|
      == if IsRepeat(s, p) then 0 else |RoutesTo(s.exchanges[p.exchange], p.routingKey, q)|
  {
    hide Run, At, IsRepeat, Publish, KeysOf, RoutesTo;
    PublishAddsPerKey(events, p, order, q);
    KeysAreRoutes(Run(events).exchanges[p.exchange], p.routingKey, order, q);
  }

  /** The keys bound to the queue whose words match the pattern. */
  function GlobKeys(b: map<string, seq<QueueId>>, pattern: seq<string>, q: QueueId): set<string> {
    set k | k in b && b[k] == [q] && Glob(pattern, Words(k))
  }

  /** A publication to a topic exchange adds to each queue as many copies as there
      are keys bound to it that are matched by the words of the routing key, read
      as a glob; none when the routing key starts with `#`. */
  lemma TopicPublicationAdds(events: seq<Event>, p: Publication, order: seq<string>, q: QueueId)
    requires p.exchange in Run(events).exchanges
    requires Run(events).exchanges[p.exchange].kind == EXCHANGE_TYPE_TOPIC
    requires Enumerates(order, Run(events).exchanges[p.exchange].bindings.Keys)
    ensures var s, s' := Run(events), Step(Run(events), EvPublish(p, order));
      var b, w := s.exchanges[p.exchange].bindings, Words(p.routingKey);
      |At(s'.place, Waiting(q))| - |At(s.place, Waiting(q))|
      == if IsRepeat(s, p) || (w != [] && w[0] == HASH) then 0 else |GlobKeys(b, w, q)|
  {
    hide Run, At, IsRepeat, Step, Words, Glob;
    RoutedPublication(events, p, order, q);
    var e, w := Run(events).exchanges[p.exchange], Words(p.routingKey);
    if w != [] && w[0] == HASH {
      assert RoutesTo(e, p.routingKey, q) == {};
    } else {
      assert RoutesTo(e, p.routingKey, q) == GlobKeys(e.bindings, w, q);
    }
  }

  /** A publication to a fanout exchange adds to each queue as many copies as it
      has keys there. */
  lemma FanoutPublicationAdds(events: seq<Event>, p: Publication, order: seq<string>, q: QueueId)
    requires p.exchange in Run(events).exchanges
    requires Run(events).exchanges[p.exchange].kind == EXCHANGE_TYPE_FANOUT
    requires Enumerates(order, Run(events).exchanges[p.exchange].bindings.Keys)
    ensures var s, s' := Run(events), Step(Run(events), EvPublish(p, order)); var b := s.exchanges[p.exchange].bindings;
      |At(s'.place, Waiting(q))| - |At(s.place, Waiting(q))|
      == if IsRepeat(s, p) then 0 else |set k | k in b && b[k] == [q]|
  {
    hide Run, At, IsRepeat, Step;
    RoutedPublication(events, p, order, q);
    var e := Run(events).exchanges[p.exchange];
    assert RoutesTo(e, p.routingKey, q) == set k | k in e.bindings && e.bindings[k] == [q];
  }

  const BIND_TWO := [
    EvCreateExchange("e", EXCHANGE_TYPE_DIRECT, false, false),
    EvCreateQueue("a", 0, false, false), EvCreateQueue("b", 0, false, false),
    EvCreateBinding("e", "a", "k"), EvCreateBinding("e", "b", "k")]

  lemma AfterOne(events: seq<Event>, e: Event)
    ensures Run(events + [e]) == Step(Run(events), e)
  {
    hide Step;
    assert (events + [e])[..|events|] == events;
  }

  /** The run in which two queues are bound under one key: both exist, but only
      the first is bound. */
  lemma TwoQueuesUnderOneKey()
    ensures var s := Run(BIND_TWO);
      && "e" in s.exchanges && s.exchanges["e"].kind == EXCHANGE_TYPE_DIRECT
      && FindQueue(s, "a") == Some(0) && FindQueue(s, "b") == Some(1)
      && s.exchanges["e"].bindings == map["k" := [0]]
      && !IsRepeat(s, Publication(7, "e", "k", 0, false, 0, 0, []))
  {
    hide Run, Step, SeqKey;
    RunOfNothing();
    AfterOne([], BIND_TWO[0]);
    AfterOne(BIND_TWO[..1], BIND_TWO[1]);
    AfterOne(BIND_TWO[..2], BIND_TWO[2]);
    AfterOne(BIND_TWO[..3], BIND_TWO[3]);
    AfterOne(BIND_TWO[..4], BIND_TWO[4]);
    assert [] + [BIND_TWO[0]] == BIND_TWO[..1] && BIND_TWO[..1] + [BIND_TWO[1]] == BIND_TWO[..2];
    assert BIND_TWO[..2] + [BIND_TWO[2]] == BIND_TWO[..3] && BIND_TWO[..3] + [BIND_TWO[3]] == BIND_TWO[..4];
    assert BIND_TWO[..4] + [BIND_TWO[4]] == BIND_TWO;
    TwoQueuesCreated();
    SecondBindingIsLost(Step(Step(Step(INITIAL, BIND_TWO[0]), BIND_TWO[1]), BIND_TWO[2]));
  }

  ghost predicate TwoQueuesReady(s: State) {
    && s.sub == map[] && s.unsub == map["a" := 0, "b" := 1] && s.stored == {}
    && s.exchanges == map["e" := ExchangeState("e", EXCHANGE_TYPE_DIRECT, false, false, map[])]
  }

  lemma TwoQueuesCreated()
    ensures TwoQueuesReady(Step(Step(Step(INITIAL, BIND_TWO[0]), BIND_TWO[1]), BIND_TWO[2]))
  {
    var s1 := CreateExchange(INITIAL, "e", EXCHANGE_TYPE_DIRECT, false, false);
    var s2 := CreateQueue(s1, "a", 0, false, false);
    assert s2.unsub == map["a" := 0] && s2.nextQueue == 1 && s2.sub == map[];
    assert "a" != "b" && "b" !in s2.unsub;
    assert CreateQueue(s2, "b", 0, false, false).unsub == map["a" := 0, "b" := 1];
  }

  lemma SecondBindingIsLost(s: State)
    requires TwoQueuesReady(s)
    ensures var s' := Step(Step(s, BIND_TWO[3]), BIND_TWO[4]);
      && s'.exchanges == map["e" := ExchangeState("e", EXCHANGE_TYPE_DIRECT, false, false, map["k" := [0]])]
      && s'.sub == s.sub && s'.unsub == s.unsub && s'.stored == {}
  {
    assert "a" in s.unsub && "b" in s.unsub;
    var s1 := CreateBinding(s, "e", "a", "k");
    assert s1.exchanges["e"].bindings == map["k" := [0]];
  }

  lemma RunOfNothing()
    ensures Run([]) == INITIAL
  {
  }

  /** After that run a publication with the key reaches the first queue only,
      though both bindings were reported as successful. */
  lemma SecondQueueGetsNothing(order: seq<string>)
    requires "e" in Run(BIND_TWO).exchanges ==> Enumerates(order, Run(BIND_TWO).exchanges["e"].bindings.Keys)
    ensures var s := Run(BIND_TWO);
      var s' := Publish(s, Publication(7, "e", "k", 0, false, 0, 0, []), order);
      && |At(s'.place, Waiting(0))| - |At(s.place, Waiting(0))| == 1
      && |At(s'.place, Waiting(1))| - |At(s.place, Waiting(1))| == 0
  {
    TwoQueuesUnderOneKey();
    hide Run, At, IsRepeat, Publish;
    var p := Publication(7, "e", "k", 0, false, 0, 0, []);
    DirectPublicationAddsToOne(BIND_TWO, p, order, 0);
    DirectPublicationAddsToOne(BIND_TWO, p, order, 1);
  }

  // ---------------------------------------------------------- client exit

  /** An exit deletes exactly the queues that delete themselves and had no
      other subscriber, and exactly the exchanges that delete themselves and
      were emptied by that; the other exchanges lose exactly their bindings to
      those queues. Copies waiting in lost queues are dropped, the client's
      pending copies go back to the queue of their name or are dropped when
      there is none, all other copies stay where they are. */
  lemma ExitDeletesAndDrops(events: seq<Event>, client: int, order: seq<string>)
    requires Enumerates(order, Run(events).sub.Keys)
    ensures var s, s' := Run(events), ClientExit(Run(events), client, order);
      && s'.queues.Keys <= s.queues.Keys
      && (forall id :: id in s.queues ==> (id !in s'.queues <==> s.queues[id].autoDel && s.queues[id].subs == [client]))
      && ExchangesPruned(s.exchanges, s'.exchanges, s'.queues.Keys)
      && CopiesAfterExit(s, client, s')
  {
    hide Run, Inv, ClientExit, ExchangesPruned, CopiesAfterExit, Enumerates;
    RunKeepsInv(events);
    ExitMovesExactly(Run(events), client, order);
    ExitDeletesExactly(Run(events), client, order);
  }

  /** So no exchange that deletes itself is left empty by an exit. */
  lemma NoEmptiedExchangeRemains(events: seq<Event>, client: int, order: seq<string>, n: string)
    requires n in Run(events).exchanges && n in ClientExit(Run(events), client, order).exchanges
    requires Run(events).exchanges[n].autoDel && Run(events).exchanges[n].bindings != map[]
    ensures ClientExit(Run(events), client, order).exchanges[n].bindings != map[]
  {
    hide Run, Inv, ClientExit, CopiesAfterExit;
    RunKeepsInv(events);
    ExitMovesExactly(Run(events), client, order);
    InvNothingDangles(Run(events));
  }

  /** The pending messages of the client that came from a queue of that name,
      oldest first: the normal ones, or those that belong in the heap. */
  function Returned(ms: seq<Msg>, client: int, q: Queue, urgent: bool): seq<Msg> {
    if ms == [] then []
    else
      var m := ms[|ms| - 1];
      Returned(ms[..|ms| - 1], client, q, urgent)
        + (if m.client == client && m.queueName == q.name && UsesHeap(q, m) == urgent then [Clamp(q, m)] else [])
  }

  function Reversed(ms: seq<Msg>): seq<Msg> {
    if ms == [] then [] else [ms[|ms| - 1]] + Reversed(ms[..|ms| - 1])
  }

  /** The same queue but for its subscribers. */
  predicate SameContents(q: Queue, q': Queue) {
    q'.heap == q.heap && q'.list == q.list && q'.name == q.name && q'.priority == q.priority
  }

  /** Every queue that is left has the contents it had. */
  ghost predicate ContentsStay(s: State, s': State) {
    forall id :: id in s'.queues ==> id in s.queues && SameContents(s.queues[id], s'.queues[id])
  }

  lemma ExitQueueContents(s: State, client: int, name: string)
    ensures ContentsStay(s, ExitQueue(s, client, name))
  {
    hide WithoutQueue, Remove, DropWaiting;
  }

  lemma ContentsStayTwice(s: State, s1: State, s2: State)
    requires ContentsStay(s, s1) && ContentsStay(s1, s2)
    ensures ContentsStay(s, s2)
  {
  }

  lemma {:induction false} ExitQueuesContents(s: State, client: int, order: seq<string>)
    ensures ContentsStay(s, ExitQueues(s, client, order))
    decreases |order|
  {
    if order != [] {
      hide ExitQueue, ContentsStay;
      var front, name := order[..|order| - 1], order[|order| - 1];
      ExitQueuesContents(s, client, front);
      var s1 := ExitQueues(s, client, front);
      ExitQueueContents(s1, client, name);
      ContentsStayTwice(s, s1, ExitQueue(s1, client, name));
    } else {
      assert ContentsStay(s, s);
    }
  }

  /** q' is q with the client's messages among ms put back. */
  ghost predicate HasBack(q: Queue, q': Queue, ms: seq<Msg>, client: int) {
    && q'.list == Reversed(Returned(ms, client, q, false)) + q.list
    && q'.heap == q.heap + Returned(ms, client, q, true)
    && q'.name == q.name && q'.priority == q.priority
  }

  lemma OneBack(q: Queue, q': Queue, ms: seq<Msg>, client: int)
    requires ms != [] && HasBack(q, q', ms[..|ms| - 1], client)
    ensures var m := ms[|ms| - 1];
      HasBack(q, if m.client == client && m.queueName == q.name then AddFront(q', m) else q', ms, client)
  {
    hide Reversed, Returned, AddFront;
    var m, front := ms[|ms| - 1], ms[..|ms| - 1];
    var normal, urgent := Returned(front, client, q, false), Returned(front, client, q, true);
    ReturnedMore(ms, client, q);
    AddFrontIs(q', m);
    if m.client == client && m.queueName == q.name {
      if UsesHeap(q, m) {
        assert (q.heap + urgent) + [Clamp(q, m)] == q.heap + (urgent + [Clamp(q, m)]);
      } else {
        ReversedMore(normal, m);
        assert [m] + (Reversed(normal) + q.list) == ([m] + Reversed(normal)) + q.list;
      }
    }
  }

  lemma ReturnedMore(ms: seq<Msg>, client: int, q: Queue)
    requires ms != []
    ensures var m, front := ms[|ms| - 1], ms[..|ms| - 1]; var back := m.client == client && m.queueName == q.name;
      && Returned(ms, client, q, true)
         == (if back && UsesHeap(q, m) then Returned(front, client, q, true) + [Clamp(q, m)]
             else Returned(front, client, q, true))
      && Returned(ms, client, q, false)
         == (if back && !UsesHeap(q, m) then Returned(front, client, q, false) + [m]
             else Returned(front, client, q, false))
  {
    hide UsesHeap;
    var front := ms[..|ms| - 1];
    assert Returned(front, client, q, true) + [] == Returned(front, client, q, true);
    assert Returned(front, client, q, false) + [] == Returned(front, client, q, false);
  }

  lemma AddFrontIs(q: Queue, m: Msg)
    ensures UsesHeap(q, m) ==> AddFront(q, m) == q.(heap := q.heap + [Clamp(q, m)])
    ensures !UsesHeap(q, m) ==> AddFront(q, m) == q.(list := [m] + q.list)
  {
  }

  lemma {:induction false} GivenBackTo(s: State, client: int, ms: seq<Msg>, id: QueueId)
    requires Registry(s) && id in s.queues
    ensures id in GiveBackAll(s, client, ms).queues
    ensures HasBack(s.queues[id], GiveBackAll(s, client, ms).queues[id], ms, client)
    decreases |ms|
  {
    if ms != [] {
      var front, m := ms[..|ms| - 1], ms[|ms| - 1];
      var s1 := GiveBackAll(s, client, front);
      GivenBackTo(s, client, front, id);
      OneBack(s.queues[id], s1.queues[id], ms, client);
      hide HasBack, AddFront;
      GiveBackAllFrame(s, client, front);
      FoundByName(s, m.queueName);
      assert Registered(s, id);
      hide Registry, SoundQueue;
      assert FindQueue(s1, m.queueName) == FindQueue(s, m.queueName);
    }
  }

  lemma ReversedMore(ms: seq<Msg>, m: Msg)
    ensures Reversed(ms + [m]) == [m] + Reversed(ms)
  {
    assert (ms + [m])[..|ms|] == ms;
  }

  /** After a client leaves, none of its messages is pending and all others
      are, in their order; every queue that survives has its unacknowledged
      normal messages back at the front, the last one given out first. */
  lemma ExitGivesBack(events: seq<Event>, client: int, order: seq<string>)
    ensures var s, s' := Run(events), ClientExit(Run(events), client, order);
      && (forall m :: m in s'.needAck <==> m in s.needAck && m.client != client)
      && (forall id :: id in s'.queues ==> (
            && id in s.queues
            && s'.queues[id].list == Reversed(Returned(s.needAck, client, s.queues[id], false)) + s.queues[id].list
            && s'.queues[id].heap == s.queues[id].heap + Returned(s.needAck, client, s.queues[id], true)))
  {
    RunKeepsInv(events);
    hide Run;
    var s := Run(events);
    var s0 := s.(stored := Forget(s.stored, client));
    SameHere(s, s0);
    hide Inv, ExitQueues, GiveBackAll, Kept, Forget, Reversed, Returned;
    ExitQueuesKeeps(s0, client, order);
    ExitQueuesContents(s0, client, order);
    var s1 := ExitQueues(s0, client, order);
    KeptInOrder(s1.needAck, client);
    var s' := ClientExit(s, client, order);
    assert Registry(s1) by {
      InvHasRegistry(s1);
    }
    GiveBackAllFrame(s1, client, s1.needAck);
    forall id | id in s'.queues
      ensures id in s.queues
      ensures s'.queues[id].list == Reversed(Returned(s.needAck, client, s.queues[id], false)) + s.queues[id].list
      ensures s'.queues[id].heap == s.queues[id].heap + Returned(s.needAck, client, s.queues[id], true)
    {
      hide Registry;
      GivenBackTo(s1, client, s1.needAck, id);
      ReturnedSame(s.needAck, client, s.queues[id], s1.queues[id]);
    }
  }

  lemma {:induction false} ReturnedSame(ms: seq<Msg>, client: int, q: Queue, q': Queue)
    requires SameContents(q, q')
    ensures Returned(ms, client, q, false) == Returned(ms, client, q', false)
    ensures Returned(ms, client, q, true) == Returned(ms, client, q', true)
    decreases |ms|
  {
    if ms != [] {
      ReturnedSame(ms[..|ms| - 1], client, q, q');
    }
  }

  /** The pending list is strictly increasing in sequence number and below the
      counter, so an ack takes out the one message that carries its number, or
      nothing. */
  lemma AckTakesOne(events: seq<Event>, seqNo: int)
    ensures var s := Run(events);
      && (forall i, j :: 0 <= i < j < |s.needAck| ==> s.needAck[i].seqNo < s.needAck[j].seqNo)
      && (forall i :: 0 <= i < |s.needAck| ==> 0 <= s.needAck[i].seqNo < s.ackSeq)
    ensures var s, s' := Run(events), Ack(Run(events), seqNo);
      && (forall m :: m in s'.needAck <==> m in s.needAck && m.seqNo != seqNo)
      && |s.needAck| - |s'.needAck| == (if exists m :: m in s.needAck && m.seqNo == seqNo then 1 else 0)
  {
    RunKeepsInv(events);
    hide Run, Registry, Placed, Ack;
    AckRemovesOne(Run(events), seqNo);
  }
}
