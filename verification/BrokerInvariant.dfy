/** What every run of the broker keeps: the registries are consistent and no
    binding outlives its queue; every copy of a message is in one place;
    pending messages are numbered in order. */
module BrokerInvariant {
  import opened CommonDefs
  import opened MessageQueues
  import opened Exchanges
  import opened Broker

  // ---------------------------------------------------------- the invariant

  /** The queue is in exactly one registry, under its own name, and it is in
      the subscribed one when it has a subscriber. */
  ghost predicate Registered(s: State, id: QueueId)
    requires id in s.queues
  {
    var q := s.queues[id];
    if q.subs != [] then q.name in s.sub && s.sub[q.name] == id && q.name !in s.unsub
    else q.name in s.unsub && s.unsub[q.name] == id && q.name !in s.sub
  }

  ghost predicate SoundQueue(q: Queue) {
    DistinctInts(q.subs) && q.pushIndex >= -1 && q.confirm >= 0 && q.nextDurable >= 0
  }

  ghost predicate BoundQueuesExist(s: State) {
    forall n :: n in s.exchanges ==>
      && Singletons(s.exchanges[n])
      && forall k :: k in s.exchanges[n].bindings ==> s.exchanges[n].bindings[k][0] in s.queues
  }

  /** All but the registration of the queue `but`. */
  ghost predicate RegistryBut(s: State, but: set<QueueId>) {
    && (forall n :: n in s.unsub ==> s.unsub[n] in s.queues && s.unsub[n] !in but && s.queues[s.unsub[n]].name == n)
    && (forall n :: n in s.sub ==> s.sub[n] in s.queues && s.sub[n] !in but && s.queues[s.sub[n]].name == n)
    && (forall id :: id in s.queues ==>
          id < s.nextQueue && SoundQueue(s.queues[id]) && (id !in but ==> Registered(s, id)))
    && BoundQueuesExist(s)
  }

  ghost predicate Registry(s: State) {
    RegistryBut(s, {})
  }

  function At(place: map<nat, Place>, p: Place): set<nat> {
    set a | a in place && place[a] == p
  }

  predicate Watched(p: Place) {
    p.Waiting? || p.Pending?
  }

  /** The copies that are really held where p says. */
  function Stock(queues: map<QueueId, Queue>, pending: multiset<nat>, p: Place): multiset<nat> {
    if p.Pending? then pending
    else if p.Waiting? && p.queue in queues then Bag(Held(queues[p.queue]))
    else multiset{}
  }

  /** Queues and the pending list hold exactly the copies whose place says so,
      each once. */
  ghost predicate Placed(s: State, pending: multiset<nat>) {
    && (forall a :: a in s.place <==> 0 <= a < s.nextAddr)
    && (forall p :: Watched(p) ==> Stock(s.queues, pending, p) == multiset(At(s.place, p)))
  }

  /** Pending messages carry growing sequence numbers below the counter. */
  ghost predicate Numbered(s: State) {
    && (forall i, j :: 0 <= i < j < |s.needAck| ==> s.needAck[i].seqNo < s.needAck[j].seqNo)
    && (forall i :: 0 <= i < |s.needAck| ==> 0 <= s.needAck[i].seqNo < s.ackSeq)
  }

  ghost predicate Inv(s: State) {
    Registry(s) && Placed(s, Bag(s.needAck)) && Numbered(s)
  }

  lemma InvHasRegistry(s: State)
    requires Inv(s)
    ensures Registry(s)
  {
    hide Registry;
  }

  // ------------------------------------------------------- moving a message

  function Adjusted(b: multiset<nat>, a: nat, gains: bool, loses: bool): multiset<nat> {
    if gains then b + multiset{a} else if loses then b - multiset{a} else b
  }

  lemma AtMoved(place: map<nat, Place>, a: nat, to: Place, p: Place)
    requires a in place ==> place[a] != to
    ensures multiset(At(place[a := to], p))
         == Adjusted(multiset(At(place, p)), a, p == to, a in place && place[a] == p)
  {
    AtMovedSet(place, a, to, p);
    hide At;
  }

  lemma AtMovedSet(place: map<nat, Place>, a: nat, to: Place, p: Place)
    requires a in place ==> place[a] != to
    ensures p == to ==> a !in At(place, p) && At(place[a := to], p) == At(place, p) + {a}
    ensures p != to && a in place && place[a] == p ==> a in At(place, p) && At(place[a := to], p) == At(place, p) - {a}
    ensures p != to && !(a in place && place[a] == p) ==> At(place[a := to], p) == At(place, p)
  {
  }

  /** A new copy arrives, or one copy moves to another place. */
  lemma Moved(s: State, pending: multiset<nat>, s': State, pending': multiset<nat>, a: nat, to: Place)
    requires Placed(s, pending)
    requires s'.place == s.place[a := to]
    requires if a in s.place then s.place[a] != to && s'.nextAddr == s.nextAddr
             else a == s.nextAddr && s'.nextAddr == a + 1
    requires forall p :: Watched(p) ==> (
      Stock(s'.queues, pending', p) == Adjusted(Stock(s.queues, pending, p), a, p == to, a in s.place && s.place[a] == p))
    ensures Placed(s', pending')
  {
    hide Stock, Adjusted;
    forall p | Watched(p)
      ensures Stock(s'.queues, pending', p) == multiset(At(s'.place, p))
    {
      AtMoved(s.place, a, to, p);
    }
  }

  lemma PlaceOf(s: State, pending: multiset<nat>, a: nat, p: Place)
    requires Placed(s, pending) && Watched(p) && a in Stock(s.queues, pending, p)
    ensures a in s.place && s.place[a] == p
  {
    hide Stock;
    assert a in multiset(At(s.place, p));
  }

  lemma StockSame(s: State, pending: multiset<nat>, s': State)
    requires Placed(s, pending) && s'.place == s.place && s'.nextAddr == s.nextAddr
    requires forall p :: Watched(p) ==> Stock(s'.queues, pending, p) == Stock(s.queues, pending, p)
    ensures Placed(s', pending)
  {
    hide Stock;
  }

  // ------------------------------------------------- registry operations

  /** A queue changes, but not its name, and is listed by its subscribers. */
  ghost predicate OnlyQueue(s: State, s': State, id: QueueId) {
    && id in s.queues && id in s'.queues && s'.queues == s.queues[id := s'.queues[id]]
    && s'.nextQueue == s.nextQueue && s'.exchanges == s.exchanges
    && s'.queues[id].name == s.queues[id].name && SoundQueue(s'.queues[id])
    && ListedAt(s, s', s.queues[id].name, id, s'.queues[id].subs != [])
    && forall i :: i in s.queues && i != id ==> s.queues[i].name != s.queues[id].name
  }

  lemma OthersRegistered(s: State, s': State, id: QueueId, i: QueueId)
    requires RegistryBut(s, {id}) || Registry(s)
    requires OnlyQueue(s, s', id) && i in s'.queues
    ensures Registered(s', i) && i < s'.nextQueue && SoundQueue(s'.queues[i])
  {
    hide SoundQueue, BoundQueuesExist;
    if i != id {
      assert s.queues[i].name != s.queues[id].name;
      assert Registered(s, i);
    }
  }

  lemma QueueChanged(s: State, s': State, id: QueueId)
    requires Registry(s) && OnlyQueue(s, s', id)
    ensures Registry(s')
  {
    hide SoundQueue, Registered;
    assert BoundQueuesExist(s');
    forall i | i in s'.queues
      ensures Registered(s', i) && i < s'.nextQueue && SoundQueue(s'.queues[i])
    {
      OthersRegistered(s, s', id, i);
    }
    hide BoundQueuesExist;
    forall n | n in s'.sub
      ensures s'.sub[n] in s'.queues && s'.queues[s'.sub[n]].name == n
    {
      assert n == s.queues[id].name || n in s.sub;
    }
    forall n | n in s'.unsub
      ensures s'.unsub[n] in s'.queues && s'.queues[s'.unsub[n]].name == n
    {
      assert n == s.queues[id].name || n in s.unsub;
    }
  }

  ghost predicate ListedAt(s: State, s': State, name: string, id: QueueId, subscribed: bool) {
    if subscribed then s'.sub == s.sub[name := id] && s'.unsub == s.unsub - {name}
    else s'.unsub == s.unsub[name := id] && s'.sub == s.sub - {name}
  }

  lemma NamesDiffer(s: State, i: QueueId, j: QueueId)
    requires Registry(s) && i in s.queues && j in s.queues && i != j
    ensures s.queues[i].name != s.queues[j].name
  {
    hide SoundQueue, BoundQueuesExist;
  }

  lemma OtherNames(s: State, id: QueueId)
    requires Registry(s) && id in s.queues
    ensures forall i :: i in s.queues && i != id ==> s.queues[i].name != s.queues[id].name
    ensures ListedAt(s, s, s.queues[id].name, id, s.queues[id].subs != [])
  {
    hide Registry;
    forall i | i in s.queues && i != id
      ensures s.queues[i].name != s.queues[id].name
    {
      NamesDiffer(s, i, id);
    }
    FoundByItsName(s, id);
    FoundByName(s, s.queues[id].name);
  }

  lemma FoundByItsName(s: State, id: QueueId)
    requires Registry(s) && id in s.queues
    ensures FindQueue(s, s.queues[id].name) == Some(id)
  {
    hide SoundQueue, BoundQueuesExist;
    assert Registered(s, id);
  }

  lemma AddKeepsSound(q: Queue, m: Msg)
    requires SoundQueue(q)
    ensures SoundQueue(AddFront(q, m)) && AddFront(q, m).name == q.name && AddFront(q, m).subs == q.subs
    ensures SoundQueue(Add(q, m)) && Add(q, m).name == q.name && Add(q, m).subs == q.subs
  {
    hide DistinctInts;
  }

  lemma FoundByName(s: State, name: string)
    requires Registry(s)
    ensures FindQueue(s, name).Some? ==>
      var id := FindQueue(s, name).value;
        && id in s.queues && s.queues[id].name == name && SoundQueue(s.queues[id])
        && ListedAt(s, s, name, id, s.queues[id].subs != [])
  {
    hide SoundQueue, BoundQueuesExist;
    if FindQueue(s, name).Some? {
      var id := FindQueue(s, name).value;
      assert Registered(s, id);
      assert s.unsub - {name} == s.unsub || s.sub - {name} == s.sub;
      if name in s.sub {
        assert s.sub[name := id] == s.sub;
      } else {
        assert s.unsub[name := id] == s.unsub;
      }
    }
  }

  lemma NewExchangeKeeps(s: State, name: string, kind: int, durable: bool, autoDel: bool)
    requires Inv(s)
    ensures Inv(CreateExchange(s, name, kind, durable, autoDel))
  {
    hide Inv, Registered, SoundQueue;
    InvHasRegistry(s);
    var s' := CreateExchange(s, name, kind, durable, autoDel);
    assert BoundQueuesExist(s');
    hide Registry, BoundQueuesExist;
    ExchangesChanged(s, s'.exchanges);
  }

  lemma EmptyBag(q: Queue)
    requires Held(q) == []
    ensures Bag(Held(q)) == multiset{}
  {
  }

  function WithNewQueue(s: State, q: Queue): State {
    s.(queues := s.queues[s.nextQueue := q], unsub := s.unsub[q.name := s.nextQueue], nextQueue := s.nextQueue + 1)
  }

  lemma NewQueueRegistered(s: State, q: Queue, i: QueueId)
    requires Registry(s) && q.name !in s.unsub && q.name !in s.sub && q.subs == []
    requires i in WithNewQueue(s, q).queues
    ensures Registered(WithNewQueue(s, q), i) && i < s.nextQueue + 1 && (i in s.queues ==> i != s.nextQueue)
  {
    hide SoundQueue, BoundQueuesExist;
    if i in s.queues {
      assert Registered(s, i);
    }
  }

  lemma NewQueueListed(s: State, q: Queue)
    requires Registry(s) && q.name !in s.unsub && q.name !in s.sub && q.subs == [] && SoundQueue(q)
    ensures Registry(WithNewQueue(s, q))
  {
    hide SoundQueue, Registered;
    var s' := WithNewQueue(s, q);
    NextIsNew(s);
    assert BoundQueuesExist(s');
    hide BoundQueuesExist;
    forall i | i in s'.queues
      ensures Registered(s', i) && i < s'.nextQueue && SoundQueue(s'.queues[i])
    {
      NewQueueRegistered(s, q, i);
    }
  }

  lemma StoresNothing(s: State, pending: multiset<nat>, q: Queue, p: Place)
    requires Held(q) == [] && s.nextQueue !in s.queues
    ensures Stock(s.queues[s.nextQueue := q], pending, p) == Stock(s.queues, pending, p)
  {
    EmptyBag(q);
    hide Bag;
  }

  lemma WithNewQueueKeeps(s: State, q: Queue)
    requires Inv(s) && q.name !in s.unsub && q.name !in s.sub
    requires q.subs == [] && Held(q) == [] && SoundQueue(q)
    ensures Inv(WithNewQueue(s, q))
  {
    hide Registry, Placed, Bag, Numbered, SoundQueue, Held;
    NewQueueListed(s, q);
    NextIsNew(s);
    var s1 := WithNewQueue(s, q);
    forall p | Watched(p)
      ensures Stock(s1.queues, Bag(s.needAck), p) == Stock(s.queues, Bag(s.needAck), p)
    {
      StoresNothing(s, Bag(s.needAck), q, p);
    }
    StockSame(s, Bag(s.needAck), s1);
    NumberedSame(s, s1);
  }

  lemma NewQueueKeeps(s: State, name: string, priority: int, durable: bool, autoDel: bool)
    requires Inv(s)
    ensures Inv(CreateQueue(s, name, priority, durable, autoDel))
  {
    hide Inv, SoundQueue;
    if name !in s.unsub && name !in s.sub {
      var q := NewQueue(name, priority, durable, autoDel);
      NewIsSound(name, priority, durable, autoDel);
      WithNewQueueKeeps(s, q);
      SameHere(WithNewQueue(s, q), CreateQueue(s, name, priority, durable, autoDel));
    }
  }

  lemma NewIsSound(name: string, priority: int, durable: bool, autoDel: bool)
    ensures SoundQueue(NewQueue(name, priority, durable, autoDel))
  {
  }

  lemma NextIsNew(s: State)
    requires Registry(s)
    ensures s.nextQueue !in s.queues
  {
    hide SoundQueue, BoundQueuesExist, Registered;
  }

  /** The invariant looks at exchanges only for what they bind. */
  lemma ExchangesChanged(s: State, es: map<string, ExchangeState>)
    requires Inv(s) && BoundQueuesExist(s.(exchanges := es))
    ensures Inv(s.(exchanges := es))
  {
    hide Placed, SoundQueue, Bag, BoundQueuesExist;
    StockSame(s, Bag(s.needAck), s.(exchanges := es));
    assert forall i :: i in s.queues ==> (Registered(s, i) <==> Registered(s.(exchanges := es), i));
  }

  lemma NewBindingKeeps(s: State, exchange: string, queue: string, key: string)
    requires Inv(s)
    ensures Inv(CreateBinding(s, exchange, queue, key))
  {
    hide Inv;
    InvHasRegistry(s);
    FoundByName(s, queue);
    hide Registered, SoundQueue;
    var s' := CreateBinding(s, exchange, queue, key);
    assert BoundQueuesExist(s');
    hide Registry, BoundQueuesExist;
    ExchangesChanged(s, s'.exchanges);
  }

  lemma SubscribedSound(q: Queue, client: int, level: nat)
    requires SoundQueue(q)
    ensures SoundQueue(Subscribe(q, client, level)) && Subscribe(q, client, level).subs != []
    ensures Subscribe(q, client, level).name == q.name
  {
  }

  lemma SubscribedRegistry(s: State, client: int, name: string, level: nat)
    requires Registry(s)
    ensures Registry(CreateSubscribe(s, client, name, level))
  {
    hide Registry, SoundQueue, Subscribe;
    FoundByName(s, name);
    var s', found := CreateSubscribe(s, client, name, level), FindQueue(s, name);
    if found.Some? {
      var id := found.value;
      OtherNames(s, id);
      SubscribedSound(s.queues[id], client, level);
      assert s'.sub == s.sub[name := id] && s'.unsub == s.unsub - {name};
      QueueChanged(s, s', id);
    }
  }

  lemma SubscribeKeeps(s: State, client: int, name: string, level: nat)
    requires Inv(s)
    ensures Inv(CreateSubscribe(s, client, name, level))
  {
    hide Registry, Bag, Stock, CreateSubscribe;
    SubscribedRegistry(s, client, name, level);
    HeldSame(s, client, name, level);
    SubscribeMovesNothing(s, client, name, level);
    StockSame(s, Bag(s.needAck), CreateSubscribe(s, client, name, level));
  }

  lemma SubscribeMovesNothing(s: State, client: int, name: string, level: nat)
    ensures var s' := CreateSubscribe(s, client, name, level);
      s'.place == s.place && s'.nextAddr == s.nextAddr && s'.needAck == s.needAck && s'.ackSeq == s.ackSeq
  {
    hide FindQueue, Subscribe;
  }

  lemma HeldSame(s: State, client: int, name: string, level: nat)
    ensures var s' := CreateSubscribe(s, client, name, level);
      forall p :: Watched(p) ==> Stock(s'.queues, Bag(s.needAck), p) == Stock(s.queues, Bag(s.needAck), p)
  {
    hide Bag;
  }

  lemma DropExchangeKeeps(s: State, name: string)
    requires Inv(s)
    ensures Inv(DeleteExchange(s, name))
  {
    hide Inv, Registered, SoundQueue;
    InvHasRegistry(s);
    assert BoundQueuesExist(DeleteExchange(s, name));
    hide Registry, BoundQueuesExist;
    ExchangesChanged(s, DeleteExchange(s, name).exchanges);
  }

  // --------------------------------------------------- deleting a queue

  /** After a queue is deleted no exchange refers to it, no exchange that it
      emptied remains if it deletes itself, the others keep their bindings. */
  lemma WithoutQueueForgets(es: map<string, ExchangeState>, id: QueueId)
    requires forall n :: n in es ==> Singletons(es[n])
    ensures var es' := WithoutQueue(es, id);
      && (forall n :: n in es' ==> n in es && Singletons(es'[n]) && !RefersTo(es'[n], id))
      && (forall n, k :: n in es' ==> (k in es'[n].bindings <==> k in es[n].bindings && es[n].bindings[k] != [id]))
      && (forall n, k :: n in es' && k in es'[n].bindings ==> es'[n].bindings[k] == es[n].bindings[k])
      && (forall n :: n in es && n !in es' <==> n in es && es[n].autoDel && OnlyBinds(es[n], id))
  {
    var es' := WithoutQueue(es, id);
    forall n | n in es
      ensures Singletons(DeleteBinding(es[n], id)) && !RefersTo(DeleteBinding(es[n], id), id)
      ensures forall k :: k in DeleteBinding(es[n], id).bindings <==> k in es[n].bindings && es[n].bindings[k] != [id]
    {
      BindingsStaySingle(es[n], "", id);
    }
    forall n | n in es
      ensures DeleteBinding(es[n], id).bindings == map[] && es[n].bindings != map[] <==> OnlyBinds(es[n], id)
    {
      var d := DeleteBinding(es[n], id).bindings;
      if d != map[] {
        var k :| k in d;
      }
    }
  }

  /** The queue is bound, and nothing else is. */
  ghost predicate OnlyBinds(e: ExchangeState, id: QueueId) {
    e.bindings != map[] && forall k :: k in e.bindings ==> e.bindings[k] == [id]
  }

  lemma BindingsRemain(s: State, id: QueueId)
    requires BoundQueuesExist(s)
    ensures BoundQueuesExist(DropQueue(s, id))
  {
    var s' := DropQueue(s, id);
    WithoutQueueForgets(s.exchanges, id);
    hide DeleteBinding, WithoutQueue, RefersTo, OnlyBinds;
    forall n, k | n in s'.exchanges && k in s'.exchanges[n].bindings
      ensures s'.exchanges[n].bindings[k][0] in s'.queues
    {
      var b := s'.exchanges[n].bindings[k];
      assert b == [b[0]];
    }
  }

  lemma WaitingDropped(s: State, pending: multiset<nat>, id: QueueId)
    requires Placed(s, pending)
    ensures Placed(DropQueue(s, id), pending)
  {
    hide Bag;
    var s' := DropQueue(s, id);
    forall p | Watched(p)
      ensures Stock(s'.queues, pending, p) == multiset(At(s'.place, p))
    {
      assert Stock(s.queues, pending, p) == multiset(At(s.place, p));
      assert At(s'.place, p) == if p == Waiting(id) then {} else At(s.place, p);
    }
  }

  lemma DropQueueKeeps(s: State, id: QueueId)
    requires RegistryBut(s, {id}) && id in s.queues && Placed(s, Bag(s.needAck)) && Numbered(s)
    ensures Inv(DropQueue(s, id))
  {
    BindingsRemain(s, id);
    WaitingDropped(s, Bag(s.needAck), id);
    hide Placed, BoundQueuesExist, SoundQueue;
  }

  function Unlist(s: State, name: string, sent: seq<Command>): State {
    s.(unsub := s.unsub - {name}, sub := s.sub - {name}, toPersis := s.toPersis + sent)
  }

  lemma UnlistedRegistry(s: State, id: QueueId, sent: seq<Command>)
    requires Registry(s) && id in s.queues
    ensures RegistryBut(Unlist(s, s.queues[id].name, sent), {id})
  {
    hide SoundQueue;
    var s' := Unlist(s, s.queues[id].name, sent);
    assert BoundQueuesExist(s');
    hide BoundQueuesExist;
    forall i | i in s'.queues && i != id
      ensures Registered(s', i)
    {
      NamesDiffer(s, i, id);
    }
  }

  lemma DeleteQueueKeeps(s: State, name: string)
    requires Inv(s)
    ensures Inv(DeleteQueue(s, name))
  {
    FoundByName(s, name);
    hide SoundQueue;
    var q := FindQueue(s, name);
    if q.Some? {
      var sent := if s.queues[q.value].durable then [RemoveQueue(name)] else [];
      UnlistedRegistry(s, q.value, sent);
      hide RegistryBut, Stock, Bag;
      var s' := Unlist(s, name, sent);
      StockSame(s, Bag(s.needAck), s');
      hide Placed;
      DropQueueKeeps(s', q.value);
      assert DeleteQueue(s, name) == DropQueue(s', q.value);
    }
  }

  // ------------------------------------------------------------ publishing

  lemma StoredRegistry(s: State, p: Publication, q: QueueId)
    requires Registry(s)
    ensures Registry(StoreOne(s, p, q))
    ensures StoreOne(s, p, q).exchanges == s.exchanges && StoreOne(s, p, q).queues.Keys == s.queues.Keys
  {
    var s' := StoreOne(s, p, q);
    if q in s.queues {
      FoundByName(s, s.queues[q].name);
      forall i | i in s.queues && i != q
        ensures s.queues[i].name != s.queues[q].name
      {
        NamesDiffer(s, i, q);
      }
      assert Registered(s, q);
      assert SoundQueue(s'.queues[q]);
      hide Registry, SoundQueue;
      QueueChanged(s, s', q);
    }
  }

  lemma StoreOneHolds(s: State, p: Publication, q: QueueId)
    requires q in s.queues
    ensures Bag(Held(StoreOne(s, p, q).queues[q])) == Bag(Held(s.queues[q])) + multiset{s.nextAddr}
  {
    hide Bag;
    var queue := s.queues[q];
    var persistent := p.durable && queue.durable;
    var index := if persistent then queue.nextDurable else -1;
    var m := Msg(s.nextAddr, p.body, p.priority, p.durable, index, -1, -1, 0, if persistent then queue.name else "");
    var counted := if persistent then queue.(nextDurable := index + 1) else queue;
    AddHolds(counted, m);
  }

  lemma StoredPlaced(s: State, pending: multiset<nat>, p: Publication, q: QueueId)
    requires Placed(s, pending)
    ensures Placed(StoreOne(s, p, q), pending)
  {
    var s' := StoreOne(s, p, q);
    if q in s.queues {
      StoreOneHolds(s, p, q);
      hide Bag, Held;
      assert s.nextAddr !in s.place;
      Moved(s, pending, s', pending, s.nextAddr, Waiting(q));
    }
  }

  lemma StoredFrame(s: State, p: Publication, q: QueueId)
    ensures StoreOne(s, p, q).needAck == s.needAck && StoreOne(s, p, q).ackSeq == s.ackSeq
  {
    hide Add;
  }

  lemma {:induction false} StoreAllKeeps(s: State, p: Publication, list: seq<QueueId>)
    requires Inv(s)
    ensures var s' := StoreAll(s, p, list);
      Inv(s') && s'.exchanges == s.exchanges && s'.queues.Keys == s.queues.Keys && s'.needAck == s.needAck
    decreases |list|
  {
    hide Registry, Placed, Bag, Numbered;
    if list != [] {
      var front, q := list[..|list| - 1], list[|list| - 1];
      StoreAllKeeps(s, p, front);
      var s1 := StoreAll(s, p, front);
      hide StoreOne;
      StoredRegistry(s1, p, q);
      StoredPlaced(s1, Bag(s.needAck), p, q);
      StoredFrame(s1, p, q);
      NumberedSame(s1, StoreOne(s1, p, q));
    }
  }

  lemma TargetsExist(s: State, p: Publication, order: seq<string>)
    requires Registry(s) && p.exchange in s.exchanges
    ensures forall i :: 0 <= i < |Targets(s, p, order)| ==> Targets(s, p, order)[i] in s.queues
  {
    var e := s.exchanges[p.exchange];
    FoundAreBound(e, p.routingKey, order);
    hide Find;
    forall q | RefersTo(e, q)
      ensures q in s.queues
    {
      var k :| k in e.bindings && q in e.bindings[k];
      assert e.bindings[k] == [e.bindings[k][0]];
    }
  }

  lemma PublishKeeps(s: State, p: Publication, order: seq<string>)
    requires Inv(s)
    ensures Inv(Publish(s, p, order))
  {
    hide Inv, StoreAll, Targets, IsRepeat, SeqKey;
    var list := Targets(s, p, order);
    StoreAllKeeps(s, p, list);
    var s1 := StoreAll(s, p, list);
    SameHere(s1, Publish(s, p, order));
    SameHere(s, Publish(s, p, order));
  }

  /** The invariant does not speak of what is sent or of the stored keys. */
  lemma SameHere(s: State, s': State)
    ensures Inv(s) && s' == s.(toConnect := s'.toConnect, stored := s'.stored, toPersis := s'.toPersis) ==> Inv(s')
  {
    hide SoundQueue, Bag;
    if Inv(s) && s' == s.(toConnect := s'.toConnect, stored := s'.stored, toPersis := s'.toPersis) {
      StockSame(s, Bag(s.needAck), s');
      hide Placed;
    }
  }

  // -------------------------------------------- handing messages to clients

  /** q' is queue id of s with message m taken out. */
  ghost predicate TakenFrom(s: State, id: QueueId, q': Queue, m: Msg) {
    && id in s.queues
    && Bag(Held(s.queues[id])) == Bag(Held(q')) + multiset{m.addr}
    && q'.name == s.queues[id].name && q'.subs == s.queues[id].subs && SoundQueue(q')
  }

  lemma PopTakes(s: State, id: QueueId, push: bool, k: nat)
    requires id in s.queues && SoundQueue(s.queues[id]) && CanPop(s.queues[id], push, k)
    ensures TakenFrom(s, id, Pop(s.queues[id], push, k).0, Pop(s.queues[id], push, k).1)
  {
    PopHolds(s.queues[id], push, k);
    hide Bag, Held;
  }

  lemma HandedRegistry(s: State, id: QueueId, q': Queue, m: Msg, name: string, level: int)
    requires Registry(s) && TakenFrom(s, id, q', m)
    ensures Registry(Hand(s.(queues := s.queues[id := q']), name, m, level))
  {
    hide Bag, Held, SoundQueue;
    FoundByName(s, s.queues[id].name);
    forall i | i in s.queues && i != id
      ensures s.queues[i].name != s.queues[id].name
    {
      NamesDiffer(s, i, id);
    }
    assert Registered(s, id);
    hide Registry;
    QueueChanged(s, Hand(s.(queues := s.queues[id := q']), name, m, level), id);
  }

  lemma WasWaiting(s: State, pending: multiset<nat>, id: QueueId, q': Queue, m: Msg)
    requires Placed(s, pending) && TakenFrom(s, id, q', m)
    ensures m.addr in s.place && s.place[m.addr] == Waiting(id)
  {
    hide Bag, Held, SoundQueue;
    assert m.addr in Stock(s.queues, pending, Waiting(id));
    PlaceOf(s, pending, m.addr, Waiting(id));
  }

  /** What is held where, after the message left its queue for the place to. */
  lemma StockTaken(s: State, pending: multiset<nat>, id: QueueId, q': Queue, m: Msg, to: Place, p: Place)
    requires TakenFrom(s, id, q', m) && m.addr in s.place && s.place[m.addr] == Waiting(id) && !to.Waiting? && Watched(p)
    ensures Stock(s.queues[id := q'], if to.Pending? then pending + multiset{m.addr} else pending, p)
         == Adjusted(Stock(s.queues, pending, p), m.addr, p == to, s.place[m.addr] == p)
  {
    hide Bag, Held, SoundQueue;
    if p == Waiting(id) {
      var b, b' := Bag(Held(s.queues[id])), Bag(Held(q'));
      assert b - multiset{m.addr} == b';
    }
  }

  lemma TakenPlaced(s: State, pending: multiset<nat>, id: QueueId, q': Queue, m: Msg, to: Place, s': State)
    requires Placed(s, pending) && TakenFrom(s, id, q', m) && !to.Waiting?
    requires s'.queues == s.queues[id := q'] && s'.place == s.place[m.addr := to] && s'.nextAddr == s.nextAddr
    ensures Placed(s', if to.Pending? then pending + multiset{m.addr} else pending)
  {
    WasWaiting(s, pending, id, q', m);
    var pending' := if to.Pending? then pending + multiset{m.addr} else pending;
    forall p | Watched(p)
      ensures Stock(s'.queues, pending', p)
           == Adjusted(Stock(s.queues, pending, p), m.addr, p == to, m.addr in s.place && s.place[m.addr] == p)
    {
      StockTaken(s, pending, id, q', m, to, p);
    }
    hide Stock, TakenFrom, Adjusted;
    Moved(s, pending, s', pending', m.addr, to);
  }

  lemma HandedPlaced(s: State, id: QueueId, q': Queue, m: Msg, name: string, level: int)
    requires Placed(s, Bag(s.needAck)) && TakenFrom(s, id, q', m)
    ensures var s' := Hand(s.(queues := s.queues[id := q']), name, m, level); Placed(s', Bag(s'.needAck))
  {
    hide Placed, TakenFrom, Bag;
    var s' := Hand(s.(queues := s.queues[id := q']), name, m, level);
    TakenPlaced(s, Bag(s.needAck), id, q', m, if level > 0 then Pending else Delivered, s');
    var m' := m.(confirm := level, seqNo := s.ackSeq, queueName := name);
    BagConcat(s.needAck, [m']);
    BagOne(m');
  }

  lemma HandKeeps(s: State, id: QueueId, q': Queue, m: Msg, name: string, level: int)
    requires Inv(s) && TakenFrom(s, id, q', m)
    ensures Inv(Hand(s.(queues := s.queues[id := q']), name, m, level))
  {
    HandedRegistry(s, id, q', m, name, level);
    HandedPlaced(s, id, q', m, name, level);
    hide Registry, Placed, Bag, TakenFrom;
  }

  lemma PushKeeps(s: State, name: string, top: nat)
    requires Inv(s)
    ensures Inv(PushOne(s, name, top))
  {
    if name in s.sub && s.sub[name] in s.queues {
      var id := s.sub[name];
      var q := s.queues[id];
      if CanPop(q, true, top) {
        PopTakes(s, id, true, top);
        hide Inv, CanPop, Pop, TakenFrom, Hand;
        HandKeeps(s, id, Pop(q, true, top).0, Pop(q, true, top).1, name, q.confirm);
      }
    }
  }

  lemma RecvKeeps(s: State, client: int, name: string, level: int, top: nat)
    requires Inv(s)
    ensures Inv(Recv(s, client, name, level, top))
  {
    FoundByName(s, name);
    var id := FindQueue(s, name);
    if id.Some? {
      var q := s.queues[id.value];
      if CanPop(q, false, top) {
        PopTakes(s, id.value, false, top);
        hide Inv, CanPop, Pop, Hand, SoundQueue;
        HandKeeps(s, id.value, Pop(q, false, top).0, Pop(q, false, top).1.(client := client), name, level);
      }
    }
  }

  // -------------------------------------------------------------- the ack

  lemma BagWithout(ms: seq<Msg>, i: nat)
    requires i < |ms|
    ensures Bag(ms) == Bag(ms[..i] + ms[i + 1..]) + multiset{ms[i].addr}
  {
    assert ms == ms[..i] + [ms[i]] + ms[i + 1..];
    BagConcat(ms[..i] + [ms[i]], ms[i + 1..]);
    BagConcat(ms[..i], [ms[i]]);
    BagConcat(ms[..i], ms[i + 1..]);
    BagOne(ms[i]);
  }

  lemma AckedPlaced(s: State, i: nat, s': State)
    requires Placed(s, Bag(s.needAck)) && i < |s.needAck|
    requires s'.queues == s.queues && s'.place == s.place[s.needAck[i].addr := Acked] && s'.nextAddr == s.nextAddr
    requires s'.needAck == s.needAck[..i] + s.needAck[i + 1..]
    ensures Placed(s', Bag(s'.needAck))
  {
    BagWithout(s.needAck, i);
    hide Bag, Held;
    var a := s.needAck[i].addr;
    assert a in Stock(s.queues, Bag(s.needAck), Pending);
    PlaceOf(s, Bag(s.needAck), a, Pending);
    forall p | Watched(p)
      ensures Stock(s'.queues, Bag(s'.needAck), p)
           == Adjusted(Stock(s.queues, Bag(s.needAck), p), a, p == Acked, s.place[a] == p)
    {
    }
    hide Stock, Adjusted;
    Moved(s, Bag(s.needAck), s', Bag(s'.needAck), a, Acked);
  }

  lemma AckedNumbered(s: State, i: nat, s': State)
    requires Numbered(s) && i < |s.needAck|
    requires s'.needAck == s.needAck[..i] + s.needAck[i + 1..] && s'.ackSeq == s.ackSeq
    ensures Numbered(s')
  {
  }

  lemma AckKeeps(s: State, seqNo: int)
    requires Inv(s)
    ensures Inv(Ack(s, seqNo))
  {
    hide Registry, Placed, Numbered, Bag;
    var i, s' := Position(s.needAck, seqNo), Ack(s, seqNo);
    if i < |s.needAck| {
      AckedPlaced(s, i, s');
      AckedNumbered(s, i, s');
      RegistrySame(s, s');
    }
  }

  /** An ack takes out exactly the one pending message with that number. */
  lemma AckRemovesOne(s: State, seqNo: int)
    requires Numbered(s)
    ensures var s' := Ack(s, seqNo);
      && (forall m :: m in s'.needAck <==> m in s.needAck && m.seqNo != seqNo)
      && |s.needAck| - |s'.needAck| == (if exists m :: m in s.needAck && m.seqNo == seqNo then 1 else 0)
  {
    var i := Position(s.needAck, seqNo);
    if i < |s.needAck| {
      assert s.needAck[i] in s.needAck;
      var a, b := s.needAck[..i], s.needAck[i + 1..];
      assert s.needAck == a + [s.needAck[i]] + b;
    }
  }

  // ---------------------------------------------------------- client exit

  lemma HiddenQueueChanged(s: State, id: QueueId, q': Queue)
    requires RegistryBut(s, {id}) && id in s.queues && q'.name == s.queues[id].name && SoundQueue(q')
    ensures RegistryBut(s.(queues := s.queues[id := q']), {id})
  {
    hide SoundQueue;
    var s' := s.(queues := s.queues[id := q']);
    assert BoundQueuesExist(s');
    hide BoundQueuesExist;
    forall i | i in s'.queues && i != id
      ensures Registered(s', i)
    {
      assert Registered(s, i);
    }
  }

  lemma UnsubscribedSound(q: Queue, client: int)
    requires SoundQueue(q)
    ensures SoundQueue(Unsubscribe(q, client))
    ensures |Unsubscribe(q, client).subs| >= |q.subs| ==> Unsubscribe(q, client).subs == q.subs
  {
    RemoveKeepsDistinct(q.subs, client);
    if client !in q.subs {
      RemoveAbsent(q.subs, client);
    }
  }

  lemma ExitRegistry(s: State, client: int, name: string)
    requires Registry(s) && name in s.sub
    requires !s.queues[s.sub[name]].autoDel || Unsubscribe(s.queues[s.sub[name]], client).subs != []
    ensures Registry(ExitQueue(s, client, name))
  {
    FoundByName(s, name);
    var id := s.sub[name];
    UnsubscribedSound(s.queues[id], client);
    assert Registered(s, id);
    forall i | i in s.queues && i != id
      ensures s.queues[i].name != s.queues[id].name
    {
      NamesDiffer(s, i, id);
    }
    hide Registry, SoundQueue, Remove;
    QueueChanged(s, ExitQueue(s, client, name), id);
  }

  lemma ExitHeld(s: State, pending: multiset<nat>, id: QueueId, client: int, p: Place)
    requires id in s.queues && Watched(p)
    ensures Stock(s.queues[id := Unsubscribe(s.queues[id], client)], pending, p) == Stock(s.queues, pending, p)
  {
    hide Bag;
  }

  lemma AutoDeletedKeeps(s: State, client: int, name: string)
    requires Inv(s) && name in s.sub && s.queues[s.sub[name]].autoDel
    requires Unsubscribe(s.queues[s.sub[name]], client).subs == []
    ensures Inv(ExitQueue(s, client, name))
  {
    FoundByName(s, name);
    var id := s.sub[name];
    var q := s.queues[id];
    var q' := Unsubscribe(q, client);
    UnsubscribedSound(q, client);
    var sent := if q.durable then [RemoveQueue(name)] else [];
    UnlistedRegistry(s, id, sent);
    assert s.unsub - {name} == s.unsub;
    hide Registry, SoundQueue, Remove;
    HiddenQueueChanged(Unlist(s, name, sent), id, q');
    var s' := Unlist(s, name, sent).(queues := s.queues[id := q']);
    hide RegistryBut;
    forall p | Watched(p)
      ensures Stock(s'.queues, Bag(s.needAck), p) == Stock(s.queues, Bag(s.needAck), p)
    {
      ExitHeld(s, Bag(s.needAck), id, client, p);
    }
    hide Stock;
    StockSame(s, Bag(s.needAck), s');
    hide Placed;
    DropQueueKeeps(s', id);
    ExitDrops(s, client, name);
  }

  lemma ExitDrops(s: State, client: int, name: string)
    requires name in s.sub && s.sub[name] in s.queues && s.queues[s.sub[name]].autoDel && name !in s.unsub
    requires s.queues[s.sub[name]].subs != [] && Unsubscribe(s.queues[s.sub[name]], client).subs == []
    ensures var id := s.sub[name]; var q := s.queues[id];
      ExitQueue(s, client, name) == DropQueue(Unlist(s, name, if q.durable then [RemoveQueue(name)] else []).(
                                                queues := s.queues[id := Unsubscribe(q, client)]), id)
  {
    hide DropQueue, Remove;
    assert s.unsub - {name} == s.unsub;
  }

  lemma ExitPlaced(s: State, client: int, name: string)
    requires Placed(s, Bag(s.needAck)) && name in s.sub && s.sub[name] in s.queues
    requires !s.queues[s.sub[name]].autoDel || Unsubscribe(s.queues[s.sub[name]], client).subs != []
    ensures Placed(ExitQueue(s, client, name), Bag(s.needAck))
  {
    var s', id := ExitQueue(s, client, name), s.sub[name];
    hide Remove;
    forall p | Watched(p)
      ensures Stock(s'.queues, Bag(s.needAck), p) == Stock(s.queues, Bag(s.needAck), p)
    {
      ExitHeld(s, Bag(s.needAck), id, client, p);
    }
    hide Stock;
    StockSame(s, Bag(s.needAck), s');
  }

  lemma ExitQueueKeeps(s: State, client: int, name: string)
    requires Inv(s)
    ensures Inv(ExitQueue(s, client, name)) && ExitQueue(s, client, name).needAck == s.needAck
  {
    hide Registry, Placed, Bag, SoundQueue, Unsubscribe, Numbered, ExitQueue;
    ExitFrame(s, client, name);
    if name in s.sub {
      FoundByName(s, name);
      SubscribedQueue(s, name);
      if s.queues[s.sub[name]].autoDel && Unsubscribe(s.queues[s.sub[name]], client).subs == [] {
        AutoDeletedKeeps(s, client, name);
      } else {
        ExitRegistry(s, client, name);
        ExitPlaced(s, client, name);
        NumberedSame(s, ExitQueue(s, client, name));
      }
    }
  }

  lemma SubscribedQueue(s: State, name: string)
    requires Registry(s) && name in s.sub
    ensures s.sub[name] in s.queues
  {
    hide SoundQueue;
  }

  lemma ExitFrame(s: State, client: int, name: string)
    ensures var s' := ExitQueue(s, client, name); s'.needAck == s.needAck && s'.ackSeq == s.ackSeq
    ensures name !in s.sub ==> ExitQueue(s, client, name) == s
  {
    hide Unsubscribe, WithoutQueue, DropWaiting;
  }

  lemma NumberedSame(s: State, s': State)
    requires Numbered(s) && s'.needAck == s.needAck && s'.ackSeq == s.ackSeq
    ensures Numbered(s')
  {
  }

  lemma {:induction false} ExitQueuesKeeps(s: State, client: int, order: seq<string>)
    requires Inv(s)
    ensures Inv(ExitQueues(s, client, order)) && ExitQueues(s, client, order).needAck == s.needAck
    decreases |order|
  {
    if order != [] {
      ExitQueuesKeeps(s, client, order[..|order| - 1]);
      hide Inv, ExitQueue;
      ExitQueueKeeps(ExitQueues(s, client, order[..|order| - 1]), client, order[|order| - 1]);
    }
  }

  lemma RegistrySame(s: State, s': State)
    requires Registry(s) && s'.queues == s.queues && s'.nextQueue == s.nextQueue
    requires s'.sub == s.sub && s'.unsub == s.unsub && s'.exchanges == s.exchanges
    ensures Registry(s')
  {
    hide SoundQueue;
    assert BoundQueuesExist(s');
    hide BoundQueuesExist;
    assert forall i :: i in s.queues ==> (Registered(s, i) <==> Registered(s', i));
  }

  lemma GivenRegistry(s: State, m: Msg)
    requires Registry(s)
    ensures Registry(GiveBack(s, m))
  {
    hide Registry, SoundQueue, FindQueue, AddFront;
    FoundByName(s, m.queueName);
    if FindQueue(s, m.queueName).Some? {
      var id := FindQueue(s, m.queueName).value;
      OtherNames(s, id);
      AddKeepsSound(s.queues[id], m);
      QueueChanged(s, GiveBack(s, m), id);
    } else {
      RegistrySame(s, GiveBack(s, m));
    }
  }

  lemma StockPut(queues: map<QueueId, Queue>, pending: multiset<nat>, a: nat, id: QueueId, q': Queue, p: Place)
    requires id in queues && Bag(Held(q')) == Bag(Held(queues[id])) + multiset{a} && Watched(p)
    ensures Stock(queues[id := q'], pending, p)
         == Adjusted(Stock(queues, pending + multiset{a}, p), a, p == Waiting(id), p == Pending)
  {
    hide Bag, Held;
    assert pending + multiset{a} - multiset{a} == pending;
  }

  lemma StockLost(queues: map<QueueId, Queue>, pending: multiset<nat>, a: nat, p: Place)
    requires Watched(p)
    ensures Stock(queues, pending, p)
         == Adjusted(Stock(queues, pending + multiset{a}, p), a, p == Dropped, p == Pending)
  {
    hide Bag, Held;
    assert pending + multiset{a} - multiset{a} == pending;
  }

  lemma GivenPlaced(s: State, pending: multiset<nat>, m: Msg)
    requires Placed(s, pending + multiset{m.addr})
    ensures Placed(GiveBack(s, m), pending)
  {
    var before := pending + multiset{m.addr};
    assert m.addr in Stock(s.queues, before, Pending);
    PlaceOf(s, before, m.addr, Pending);
    var s', id := GiveBack(s, m), FindQueue(s, m.queueName);
    hide Stock, Adjusted, AddFront, Held, Bag, FindQueue;
    if id.Some? && id.value in s.queues {
      AddHolds(s.queues[id.value], m);
      forall p | Watched(p)
        ensures Stock(s'.queues, pending, p)
             == Adjusted(Stock(s.queues, before, p), m.addr, p == Waiting(id.value), s.place[m.addr] == p)
      {
        StockPut(s.queues, pending, m.addr, id.value, AddFront(s.queues[id.value], m), p);
      }
      Moved(s, before, s', pending, m.addr, Waiting(id.value));
    } else {
      forall p | Watched(p)
        ensures Stock(s'.queues, pending, p)
             == Adjusted(Stock(s.queues, before, p), m.addr, p == Dropped, s.place[m.addr] == p)
      {
        StockLost(s.queues, pending, m.addr, p);
      }
      Moved(s, before, s', pending, m.addr, Dropped);
    }
  }

  /** rest are the pending messages not looked at yet. */
  lemma {:induction false} GivenAllPlaced(s: State, client: int, ms: seq<Msg>, rest: multiset<nat>)
    requires Registry(s) && Placed(s, Bag(ms) + rest)
    ensures Registry(GiveBackAll(s, client, ms)) && Placed(GiveBackAll(s, client, ms), Bag(Kept(ms, client)) + rest)
    decreases |ms|
  {
    if ms != [] {
      var front, m := ms[..|ms| - 1], ms[|ms| - 1];
      assert ms == front + [m];
      BagConcat(front, [m]);
      BagConcat(Kept(front, client), [m]);
      BagOne(m);
      hide Bag, Registry, GiveBack;
      assert Bag(ms) + rest == Bag(front) + (multiset{m.addr} + rest);
      hide Placed;
      GivenAllPlaced(s, client, front, multiset{m.addr} + rest);
      var kept := Bag(Kept(front, client));
      assert kept + (multiset{m.addr} + rest) == (kept + rest) + multiset{m.addr};
      if m.client == client {
        assert Kept(ms, client) == Kept(front, client);
        GivenRegistry(GiveBackAll(s, client, front), m);
        GivenPlaced(GiveBackAll(s, client, front), kept + rest, m);
      } else {
        assert kept + (multiset{m.addr} + rest) == (kept + multiset{m.addr}) + rest;
      }
    }
  }

  /** Exactly the messages of other clients are kept, in their order. */
  lemma {:induction false} KeptInOrder(ms: seq<Msg>, client: int)
    ensures forall m :: m in Kept(ms, client) <==> m in ms && m.client != client
    ensures (forall i, j :: 0 <= i < j < |ms| ==> ms[i].seqNo < ms[j].seqNo)
        ==> forall i, j :: 0 <= i < j < |Kept(ms, client)| ==> Kept(ms, client)[i].seqNo < Kept(ms, client)[j].seqNo
    decreases |ms|
  {
    if ms != [] {
      var front, m := ms[..|ms| - 1], ms[|ms| - 1];
      assert ms == front + [m];
      KeptInOrder(front, client);
    }
  }

  lemma {:induction false} GiveBackAllFrame(s: State, client: int, ms: seq<Msg>)
    ensures var s' := GiveBackAll(s, client, ms);
      && s'.needAck == s.needAck && s'.ackSeq == s.ackSeq && s'.sub == s.sub && s'.unsub == s.unsub
      && s'.queues.Keys == s.queues.Keys
    decreases |ms|
  {
    if ms != [] {
      GiveBackAllFrame(s, client, ms[..|ms| - 1]);
    }
  }

  lemma NothingGivenBack(s: State, client: int, ms: seq<Msg>)
    ensures GiveBackAll(s, client, ms[..0]) == s && Kept(ms[..0], client) + ms[0..] == ms && Kept(ms[..0], client) == []
  {
  }

  /** One round of the walk over the pending messages. */
  lemma NextPending(s: State, client: int, ms: seq<Msg>, n: nat)
    requires n < |ms|
    ensures var k, k' := Kept(ms[..n], client), Kept(ms[..n + 1], client);
      && (k + ms[n..])[|k|] == ms[n]
      && (ms[n].client == client ==> k' == k && (k + ms[n..])[..|k|] + (k + ms[n..])[|k| + 1..] == k' + ms[n + 1..])
      && (ms[n].client != client ==> |k'| == |k| + 1 && k + ms[n..] == k' + ms[n + 1..])
    ensures var s' := GiveBackAll(s, client, ms[..n]);
      GiveBackAll(s, client, ms[..n + 1]) == if ms[n].client == client then GiveBack(s', ms[n]) else s'
  {
    hide GiveBack;
    assert ms[..n + 1][..n] == ms[..n];
    assert ms[n..] == [ms[n]] + ms[n + 1..];
  }

  lemma GiveBackIgnoresPending(s: State, m: Msg, ms: seq<Msg>)
    ensures GiveBack(s, m).(needAck := ms) == GiveBack(s.(needAck := ms), m)
  {
    hide AddFront, FindQueue;
    assert FindQueue(s.(needAck := ms), m.queueName) == FindQueue(s, m.queueName) by {
      FindsTheSame(s, ms, m.queueName);
    }
  }

  lemma FindsTheSame(s: State, ms: seq<Msg>, name: string)
    ensures FindQueue(s.(needAck := ms), name) == FindQueue(s, name)
  {
  }

  lemma ExitKeeps(s: State, client: int, order: seq<string>)
    requires Inv(s)
    ensures Inv(ClientExit(s, client, order))
  {
    var s0 := s.(stored := Forget(s.stored, client));
    SameHere(s, s0);
    ExitQueuesKeeps(s0, client, order);
    var s1 := ExitQueues(s0, client, order);
    hide Bag, SoundQueue, ExitQueues, GiveBackAll, Kept;
    assert Bag(s1.needAck) + multiset{} == Bag(s1.needAck);
    GivenAllPlaced(s1, client, s1.needAck, multiset{});
    GiveBackAllFrame(s1, client, s1.needAck);
    KeptInOrder(s1.needAck, client);
    hide Placed, Registry;
    var s2 := GiveBackAll(s1, client, s1.needAck);
    var s3 := s2.(needAck := Kept(s1.needAck, client));
    assert Bag(s3.needAck) + multiset{} == Bag(s3.needAck);
    PendingReplaced(s2, s3.needAck);
    NumberedKept(s1, client, s3);
  }

  lemma PendingReplaced(s: State, ms: seq<Msg>)
    requires Registry(s) && Placed(s, Bag(ms))
    ensures Registry(s.(needAck := ms)) && Placed(s.(needAck := ms), Bag(ms))
  {
    hide Bag, SoundQueue;
  }

  lemma NumberedKept(s: State, client: int, s': State)
    requires Numbered(s) && s'.needAck == Kept(s.needAck, client) && s'.ackSeq == s.ackSeq
    ensures Numbered(s')
  {
    KeptInOrder(s.needAck, client);
    forall i | 0 <= i < |s'.needAck|
      ensures 0 <= s'.needAck[i].seqNo < s'.ackSeq
    {
      assert s'.needAck[i] in s.needAck;
    }
  }

  // ------------------------------------------------------------- all runs

  lemma StepKeeps(s: State, e: Event)
    requires Inv(s)
    ensures Inv(Step(s, e))
  {
    hide Inv;
    match e
    case EvCreateExchange(name, kind, durable, autoDel) => NewExchangeKeeps(s, name, kind, durable, autoDel);
    case EvCreateQueue(name, priority, durable, autoDel) => NewQueueKeeps(s, name, priority, durable, autoDel);
    case EvCreateBinding(exchange, queue, key) => NewBindingKeeps(s, exchange, queue, key);
    case EvSubscribe(client, name, level) => SubscribeKeeps(s, client, name, level);
    case EvDeleteExchange(name) => DropExchangeKeeps(s, name);
    case EvDeleteQueue(name) => DeleteQueueKeeps(s, name);
    case EvPublish(p, order) => PublishKeeps(s, p, order);
    case EvPush(name, top) => PushKeeps(s, name, top);
    case EvRecv(client, name, level, top) => RecvKeeps(s, client, name, level, top);
    case EvAck(seqNo) => AckKeeps(s, seqNo);
    case EvExit(client, order) => ExitKeeps(s, client, order);
  }

  lemma {:induction false} RunKeepsInv(events: seq<Event>)
    ensures Inv(Run(events))
    decreases |events|
  {
    if events == [] {
      InitiallyPlaced();
    } else {
      RunKeepsInv(events[..|events| - 1]);
      StepKeeps(Run(events[..|events| - 1]), events[|events| - 1]);
    }
  }

  lemma InitiallyPlaced()
    ensures Inv(INITIAL)
  {
    forall p | Watched(p)
      ensures Stock(INITIAL.queues, multiset{}, p) == multiset(At(INITIAL.place, p))
    {
      assert At(INITIAL.place, p) == {};
    }
    assert Bag([]) == multiset{};
  }
}
