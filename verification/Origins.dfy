/** What every copy of a message carries, over all runs: body and durable flag of
    the publication it was made for, its priority under the limits of the queues
    it was put into, and, once it was handed out, the client it went to. */
module Origins {
  import opened CommonDefs
  import opened MessageQueues
  import opened Exchanges
  import opened Broker
  import opened BrokerInvariant
  import opened ClientExits
  import opened Deliveries

  // ------------------------------------------------------------- histories

  /** The publication a copy was made for, and the priority it has by now. */
  datatype Origin = Origin(p: Publication, priority: int)

  /** The copy was put into a queue by this step. */
  predicate PutIn(s: State, s': State, a: nat)
    requires a in s'.place
  {
    && s'.place[a].Waiting? && s'.place[a].queue in s'.queues
    && !(a in s.place && s.place[a] == s'.place[a])
  }

  /** A queue lowers a priority to its limit. */
  function PriorityAfter(s: State, s': State, a: nat, priority: int): int
    requires a in s'.place
  {
    if PutIn(s, s', a) then Clamped(s'.queues[s'.place[a].queue].priority, priority) else priority
  }

  /** Only a publication makes copies; each copy stays one of that publication. */
  function OriginsAfter(s: State, e: Event, s': State, h: map<nat, Origin>): map<nat, Origin> {
    map a | a in s'.place && (a in h || e.EvPublish?) ::
      if a in h then Origin(h[a].p, PriorityAfter(s, s', a, h[a].priority))
      else Origin(e.p, PriorityAfter(s, s', a, e.p.priority))
  }

  function OriginsOf(events: seq<Event>): map<nat, Origin> {
    if events == [] then map[]
    else
      var prev, e := events[..|events| - 1], events[|events| - 1];
      OriginsAfter(Run(prev), e, Run(events), OriginsOf(prev))
  }

  /** The message is as its origin says. */
  predicate TrueTo(m: Msg, h: map<nat, Origin>) {
    && m.addr in h && m.body == h[m.addr].p.body && m.durable == h[m.addr].p.durable
    && m.priority == h[m.addr].priority
  }

  ghost predicate AllTrue(s: State, h: map<nat, Origin>) {
    && h.Keys == s.place.Keys
    && (forall id, m :: id in s.queues && m in Held(s.queues[id]) ==> TrueTo(m, h))
    && (forall m :: m in s.needAck ==> TrueTo(m, h))
    && (forall k :: 0 <= k < |s.toConnect| && s.toConnect[k].Deliver? ==> SentFor(s.toConnect[k].m, h))
  }

  /** The packet carries the body of the publication. */
  predicate SentFor(d: Msg, h: map<nat, Origin>) {
    d.addr in h && d.body == h[d.addr].p.body && d.durable == h[d.addr].p.durable
  }

  // ---------------------------------------------------- where messages come from

  /** The same message but for where it is going. */
  predicate SameMessage(m: Msg, m': Msg) {
    m'.addr == m.addr && m'.body == m.body && m'.durable == m.durable && m'.priority == m.priority
  }

  /** The message in queue q was given back, with its priority under the limit. */
  predicate PutBack(m: Msg, q: Queue, m': Msg) {
    m'.addr == m.addr && m'.body == m.body && m'.durable == m.durable && m'.priority == Clamped(q.priority, m.priority)
  }

  /** The message in queue q is a new copy of the publication. */
  predicate NewCopy(p: Publication, q: Queue, m: Msg) {
    m.body == p.body && m.durable == p.durable && m.priority == Clamped(q.priority, p.priority)
  }

  ghost predicate HeldComeFrom(s: State, e: Event, s': State) {
    forall id, m :: id in s'.queues && m in Held(s'.queues[id]) ==>
      || (id in s.queues && m in Held(s.queues[id]))
      || (exists x :: x in s.needAck && PutBack(x, s'.queues[id], m))
      || (e.EvPublish? && s.nextAddr <= m.addr && NewCopy(e.p, s'.queues[id], m))
  }

  ghost predicate WasHeld(s: State, m: Msg) {
    exists id, x :: id in s.queues && x in Held(s.queues[id]) && SameMessage(x, m)
  }

  ghost predicate OthersComeFrom(s: State, s': State) {
    && (forall m :: m in s'.needAck ==> m in s.needAck || WasHeld(s, m))
    && s.toConnect <= s'.toConnect
    && (forall k :: |s.toConnect| <= k < |s'.toConnect| && s'.toConnect[k].Deliver? ==> WasHeld(s, s'.toConnect[k].m))
  }

  lemma HeldIsPlaced(s: State, id: QueueId, m: Msg)
    requires Inv(s) && id in s.queues && m in Held(s.queues[id])
    ensures m.addr in s.place && s.place[m.addr] == Waiting(id)
  {
    hide Registry, Numbered, Held, Bag;
    var ms := Held(s.queues[id]);
    var i :| 0 <= i < |ms| && ms[i] == m;
    BagMember(ms, i);
    assert m.addr in Stock(s.queues, Bag(s.needAck), Waiting(id));
    PlaceOf(s, Bag(s.needAck), m.addr, Waiting(id));
  }

  lemma PendingIsPlaced(s: State, m: Msg)
    requires Inv(s) && m in s.needAck
    ensures m.addr in s.place && s.place[m.addr] == Pending
  {
    hide Inv;
    var i :| 0 <= i < |s.needAck| && s.needAck[i] == m;
    IsPending(s, i);
  }

  lemma Numbers(s: State)
    requires Inv(s)
    ensures forall a :: a in s.place <==> 0 <= a < s.nextAddr
  {
    hide Registry, Numbered, Stock, Bag;
  }

  lemma HeldStaysTrue(s: State, e: Event, s': State, h: map<nat, Origin>, id: QueueId, m: Msg)
    requires Inv(s) && Inv(s') && AllTrue(s, h) && HeldComeFrom(s, e, s')
    requires id in s'.queues && m in Held(s'.queues[id])
    ensures TrueTo(m, OriginsAfter(s, e, s', h))
  {
    hide Inv, Held;
    HeldIsPlaced(s', id, m);
    Numbers(s);
    if id in s.queues && m in Held(s.queues[id]) {
      assert TrueTo(m, h);
      HeldIsPlaced(s, id, m);
    } else if x :| x in s.needAck && PutBack(x, s'.queues[id], m) {
      PendingIsPlaced(s, x);
    }
  }

  lemma PendingStaysTrue(s: State, e: Event, s': State, h: map<nat, Origin>, m: Msg)
    requires Inv(s) && Inv(s') && AllTrue(s, h) && OthersComeFrom(s, s') && m in s'.needAck
    ensures TrueTo(m, OriginsAfter(s, e, s', h))
  {
    hide Inv, Held;
    PendingIsPlaced(s', m);
    if m !in s.needAck {
      var id, x :| id in s.queues && x in Held(s.queues[id]) && SameMessage(x, m);
      assert TrueTo(x, h);
    }
  }

  lemma PacketStaysTrue(s: State, e: Event, s': State, h: map<nat, Origin>, k: nat)
    requires Inv(s) && Inv(s') && AllTrue(s, h) && OthersComeFrom(s, s') && s.nextAddr <= s'.nextAddr
    requires k < |s'.toConnect| && s'.toConnect[k].Deliver?
    ensures SentFor(s'.toConnect[k].m, OriginsAfter(s, e, s', h))
  {
    hide Inv, Held;
    Numbers(s);
    Numbers(s');
    var d := s'.toConnect[k].m;
    if k < |s.toConnect| {
      assert s'.toConnect[k] == s.toConnect[k];
    } else {
      var id, x :| id in s.queues && x in Held(s.queues[id]) && SameMessage(x, d);
      assert TrueTo(x, h);
    }
  }

  lemma StaysTrue(s: State, e: Event, s': State, h: map<nat, Origin>)
    requires Inv(s) && Inv(s') && AllTrue(s, h) && HeldComeFrom(s, e, s') && OthersComeFrom(s, s')
    requires s.nextAddr <= s'.nextAddr && (!e.EvPublish? ==> s'.nextAddr == s.nextAddr)
    ensures AllTrue(s', OriginsAfter(s, e, s', h))
  {
    hide Inv, Held, HeldComeFrom, OthersComeFrom, TrueTo, SentFor;
    var h' := OriginsAfter(s, e, s', h);
    Numbers(s);
    Numbers(s');
    assert h'.Keys == s'.place.Keys;
    forall id, m | id in s'.queues && m in Held(s'.queues[id])
      ensures TrueTo(m, h')
    {
      HeldStaysTrue(s, e, s', h, id, m);
    }
    forall m | m in s'.needAck
      ensures TrueTo(m, h')
    {
      PendingStaysTrue(s, e, s', h, m);
    }
    forall k | 0 <= k < |s'.toConnect| && s'.toConnect[k].Deliver?
      ensures SentFor(s'.toConnect[k].m, h')
    {
      PacketStaysTrue(s, e, s', h, k);
    }
  }

  // ------------------------------------------------------------ each event

  lemma OnlyFewer(s: State, e: Event, s': State)
    requires forall id :: id in s'.queues ==>
      Held(s'.queues[id]) == [] || (id in s.queues && Held(s'.queues[id]) == Held(s.queues[id]))
    requires s'.toConnect == s.toConnect && forall m :: m in s'.needAck ==> m in s.needAck
    ensures HeldComeFrom(s, e, s') && OthersComeFrom(s, s')
  {
    hide Held;
  }

  lemma AddedMembers(q: Queue, m: Msg, x: Msg)
    ensures x in Held(Add(q, m)) ==> x in Held(q) || (PutBack(m, q, x) && x == m.(priority := x.priority))
    ensures x in Held(AddFront(q, m)) ==> x in Held(q) || (PutBack(m, q, x) && x == m.(priority := x.priority))
  {
  }

  /** Copies stored so far. */
  ghost predicate StoredFrom(s: State, p: Publication, s': State) {
    && s'.nextAddr >= s.nextAddr && s'.needAck == s.needAck && s'.toConnect == s.toConnect
    && forall id, m :: id in s'.queues && m in Held(s'.queues[id]) ==>
         || (id in s.queues && m in Held(s.queues[id]))
         || (s.nextAddr <= m.addr && NewCopy(p, s'.queues[id], m))
  }

  lemma OneStored(s: State, p: Publication, t: QueueId)
    ensures StoredFrom(s, p, StoreOne(s, p, t))
  {
    hide Held, Add;
    var s' := StoreOne(s, p, t);
    if t in s.queues {
      var q := s.queues[t];
      var persistent := p.durable && q.durable;
      var index := if persistent then q.nextDurable else -1;
      var m := Msg(s.nextAddr, p.body, p.priority, p.durable, index, -1, -1, 0, if persistent then q.name else "");
      var counted := if persistent then q.(nextDurable := index + 1) else q;
      SamePlaces(q, counted);
      AddGoesOn(q, m, counted.nextDurable);
      forall x | x in Held(s'.queues[t])
        ensures x in Held(q) || (s.nextAddr <= x.addr && NewCopy(p, s'.queues[t], x))
      {
        AddedMembers(counted, m, x);
      }
    }
  }

  lemma SamePlaces(q: Queue, q': Queue)
    requires q'.heap == q.heap && q'.list == q.list
    ensures Held(q') == Held(q)
  {
  }

  lemma {:induction false} AllStored(s: State, p: Publication, list: seq<QueueId>)
    ensures StoredFrom(s, p, StoreAll(s, p, list))
    decreases |list|
  {
    if list != [] {
      hide Held, StoreOne, NewCopy;
      var s1 := StoreAll(s, p, list[..|list| - 1]);
      AllStored(s, p, list[..|list| - 1]);
      OneStored(s1, p, list[|list| - 1]);
      StoreGoesOn(s1, p, list[|list| - 1]);
      StoredTwice(s, p, s1, StoreOne(s1, p, list[|list| - 1]));
    }
  }

  lemma StoredTwice(s: State, p: Publication, s1: State, s2: State)
    requires StoredFrom(s, p, s1) && StoredFrom(s1, p, s2) && AllGoOn(s1, s2)
    ensures StoredFrom(s, p, s2)
  {
    hide Held, ByPriority;
  }

  lemma PublishShape(s: State, p: Publication, order: seq<string>, s1: State) returns (news: seq<Packet>)
    requires s1 == StoreAll(s, p, Targets(s, p, order)) && s1.needAck == s.needAck && s1.toConnect == s.toConnect
    ensures |news| <= 1 && (news != [] ==> !news[0].Deliver?)
    ensures var s' := Publish(s, p, order);
      && s'.needAck == s.needAck && s'.toConnect == s.toConnect + news
      && ((s'.queues == s.queues && s'.nextAddr == s.nextAddr) || (s'.queues == s1.queues && s'.nextAddr == s1.nextAddr))
  {
    hide StoreAll, Targets, IsRepeat, SeqKey, Complaint;
    if IsRepeat(s, p) {
      news := [ServerAck(-1, p.seqNo)];
    } else if Targets(s, p, order) == [] {
      news := [Reply(p.client, false, Complaint(s, p))];
    } else if p.level == PRODUCER_SINGLE_ACK {
      news := [ServerAck(p.client, p.seqNo)];
    } else {
      news := [];
    }
  }

  lemma SamePacketsCome(s: State, s': State, news: seq<Packet>)
    requires s'.needAck == s.needAck && s'.toConnect == s.toConnect + news
    requires forall k :: 0 <= k < |news| ==> !news[k].Deliver?
    ensures OthersComeFrom(s, s')
  {
    hide WasHeld;
  }

  lemma StoredHeldCome(s: State, p: Publication, order: seq<string>, s1: State, s': State)
    requires StoredFrom(s, p, s1) && (s'.queues == s.queues || s'.queues == s1.queues)
    ensures HeldComeFrom(s, EvPublish(p, order), s')
  {
    hide NewCopy, PutBack, Held;
  }

  lemma PublishedComeFrom(s: State, p: Publication, order: seq<string>)
    ensures var s' := Publish(s, p, order);
      HeldComeFrom(s, EvPublish(p, order), s') && OthersComeFrom(s, s') && s.nextAddr <= s'.nextAddr
  {
    hide StoreAll, Targets, Publish, NewCopy, Held, HeldComeFrom, OthersComeFrom;
    var s1, s' := StoreAll(s, p, Targets(s, p, order)), Publish(s, p, order);
    AllStored(s, p, Targets(s, p, order));
    var news := PublishShape(s, p, order, s1);
    StoredHeldCome(s, p, order, s1, s');
    SamePacketsCome(s, s', news);
  }

  lemma GivenComeFrom(s: State, e: Event, s': State, id: QueueId, name: string, m: Msg, client: int, level: int)
    requires id in s.queues && GivenOut(s, s', id, name, m, client, level)
    ensures HeldComeFrom(s, e, s') && OthersComeFrom(s, s') && s'.nextAddr == s.nextAddr
  {
    hide PutBack, NewCopy, Held;
    forall x | x in Held(s'.queues[id])
      ensures x in Held(s.queues[id])
    {
      assert x in multiset(Held(s'.queues[id]));
      assert x in multiset(Held(s.queues[id]));
    }
    assert m in Held(s.queues[id]) && SameMessage(m, s'.toConnect[|s.toConnect|].m);
  }

  /** One message was given back. */
  lemma GivenBackMembers(s: State, m: Msg, id: QueueId, x: Msg)
    requires id in GiveBack(s, m).queues && x in Held(GiveBack(s, m).queues[id])
    ensures id in s.queues && (x in Held(s.queues[id]) || PutBack(m, GiveBack(s, m).queues[id], x))
  {
    hide Held, AddFront, FindQueue;
    var found := FindQueue(s, m.queueName);
    if found.Some? && found.value in s.queues && id == found.value {
      AddedMembers(s.queues[id], m, x);
      AddGoesOn(s.queues[id], m, 0);
    }
  }

  lemma {:induction false} AllGivenBack(s: State, client: int, ms: seq<Msg>, id: QueueId, x: Msg)
    requires id in GiveBackAll(s, client, ms).queues && x in Held(GiveBackAll(s, client, ms).queues[id])
    ensures id in s.queues
    ensures x in Held(s.queues[id]) || exists m :: m in ms && PutBack(m, GiveBackAll(s, client, ms).queues[id], x)
    decreases |ms|
  {
    hide Held, GiveBack, ByPriority;
    GiveBackAllGoesOn(s, client, ms);
    if ms != [] {
      var front, m := ms[..|ms| - 1], ms[|ms| - 1];
      var s1, s2 := GiveBackAll(s, client, front), GiveBackAll(s, client, ms);
      if m.client == client {
        GivenBackMembers(s1, m, id, x);
        GiveBackGoesOn(s1, m);
      }
      if x in Held(s1.queues[id]) {
        AllGivenBack(s, client, front, id, x);
        if x !in Held(s.queues[id]) {
          var y :| y in front && PutBack(y, s1.queues[id], x);
          assert y in ms && PutBack(y, s2.queues[id], x);
        }
      } else {
        assert m in ms && PutBack(m, s2.queues[id], x);
      }
    }
  }

  lemma {:induction false} LeavingSends(s: State, client: int, order: seq<string>)
    ensures var s' := ExitQueues(s, client, order);
      && s'.needAck == s.needAck && s'.toConnect == s.toConnect && s'.nextAddr == s.nextAddr
      && forall id :: id in s'.queues ==> id in s.queues && Held(s'.queues[id]) == Held(s.queues[id])
    decreases |order|
  {
    if order != [] {
      LeavingSends(s, client, order[..|order| - 1]);
      hide Remove, WithoutQueue, DropWaiting;
    }
  }

  lemma {:induction false} GivingBackSends(s: State, client: int, ms: seq<Msg>)
    ensures var s' := GiveBackAll(s, client, ms); s'.toConnect == s.toConnect && s'.nextAddr == s.nextAddr
    decreases |ms|
  {
    if ms != [] {
      GivingBackSends(s, client, ms[..|ms| - 1]);
      hide AddFront, FindQueue;
    }
  }

  lemma ExitComesFrom(s: State, client: int, order: seq<string>)
    ensures var s' := ClientExit(s, client, order);
      HeldComeFrom(s, EvExit(client, order), s') && OthersComeFrom(s, s') && s'.nextAddr == s.nextAddr
  {
    hide Held, PutBack, NewCopy, ExitQueues, GiveBackAll, Kept, Forget;
    var s0 := s.(stored := Forget(s.stored, client));
    LeavingSends(s0, client, order);
    var s1 := ExitQueues(s0, client, order);
    GivingBackSends(s1, client, s1.needAck);
    KeptInOrder(s1.needAck, client);
    var s' := ClientExit(s, client, order);
    forall id, x | id in s'.queues && x in Held(s'.queues[id])
      ensures (id in s.queues && x in Held(s.queues[id])) || exists m :: m in s.needAck && PutBack(m, s'.queues[id], x)
    {
      AllGivenBack(s1, client, s1.needAck, id, x);
    }
  }

  lemma AckComesFrom(s: State, seqNo: int)
    ensures HeldComeFrom(s, EvAck(seqNo), Ack(s, seqNo)) && OthersComeFrom(s, Ack(s, seqNo))
  {
    hide Held, Position;
    OnlyFewer(s, EvAck(seqNo), Ack(s, seqNo));
  }

  lemma RegistryShape(s: State, e: Event)
    requires !e.EvPublish? && !e.EvPush? && !e.EvRecv? && !e.EvAck? && !e.EvExit?
    ensures var s' := Step(s, e); s'.toConnect == s.toConnect && s'.needAck == s.needAck && s'.nextAddr == s.nextAddr
  {
    hide Bind, WithoutQueue, DropWaiting, Subscribe, FindQueue;
  }

  lemma RegistryHolds(s: State, e: Event)
    requires !e.EvPublish? && !e.EvPush? && !e.EvRecv? && !e.EvAck? && !e.EvExit? && !e.EvSubscribe?
    ensures var s' := Step(s, e); forall id :: id in s'.queues ==>
      (s'.queues[id].heap == [] && s'.queues[id].list == []) || (id in s.queues && s'.queues[id] == s.queues[id])
  {
    hide Bind, WithoutQueue, DropWaiting, FindQueue;
  }

  lemma SubscriptionHolds(s: State, client: int, name: string, level: int)
    ensures var s' := CreateSubscribe(s, client, name, level); forall id :: id in s'.queues ==>
      id in s.queues && s'.queues[id].heap == s.queues[id].heap && s'.queues[id].list == s.queues[id].list
  {
    hide FindQueue;
  }

  lemma RegistryComesFrom(s: State, e: Event)
    requires !e.EvPublish? && !e.EvPush? && !e.EvRecv? && !e.EvAck? && !e.EvExit?
    ensures HeldComeFrom(s, e, Step(s, e)) && OthersComeFrom(s, Step(s, e)) && Step(s, e).nextAddr == s.nextAddr
  {
    hide Step, HeldComeFrom, OthersComeFrom, CreateSubscribe;
    RegistryShape(s, e);
    if e.EvSubscribe? {
      SubscriptionHolds(s, e.client, e.name, e.level);
      SubscriptionIsStep(s, e);
    } else {
      RegistryHolds(s, e);
    }
    OnlyFewer(s, e, Step(s, e));
  }

  lemma SubscriptionIsStep(s: State, e: Event)
    requires e.EvSubscribe?
    ensures Step(s, e) == CreateSubscribe(s, e.client, e.name, e.level)
  {
    hide CreateSubscribe;
  }

  /** A heap entry that is not the top cannot be taken. */
  lemma NotTheTop(s: State, e: Event)
    requires (e.EvRecv? && FindQueue(s, e.name).Some? && FindQueue(s, e.name).value in s.queues
              && !MayTake(s.queues[FindQueue(s, e.name).value], e.top))
          || (e.EvPush? && e.name in s.sub && s.sub[e.name] in s.queues && !MayTake(s.queues[s.sub[e.name]], e.top))
    ensures Step(s, e) == s
  {
    hide IsTop, Hand, Pop;
  }

  lemma NothingHappens(s: State, e: Event)
    ensures HeldComeFrom(s, e, s) && OthersComeFrom(s, s)
  {
    OnlyFewer(s, e, s);
  }

  lemma PullComesFrom(events: seq<Event>, e: Event)
    requires e.EvRecv?
    ensures var s := Run(events);
      HeldComeFrom(s, e, Step(s, e)) && OthersComeFrom(s, Step(s, e)) && Step(s, e).nextAddr == s.nextAddr
  {
    hide Run, Step, FindQueue, MayTake, GivenOut, HeldComeFrom, OthersComeFrom, Held;
    var s := Run(events);
    NothingHappens(s, e);
    var found := FindQueue(s, e.name);
    if found.Some? && found.value in s.queues && !MayTake(s.queues[found.value], e.top) {
      NotTheTop(s, e);
    } else {
      PullGoesToCaller(events, e.client, e.name, e.level, e.top);
      assert e == EvRecv(e.client, e.name, e.level, e.top);
      if Step(s, e) != s {
        var m :| GivenOut(s, Step(s, e), found.value, e.name, m, e.client, e.level);
        GivenComeFrom(s, e, Step(s, e), found.value, e.name, m, e.client, e.level);
      }
    }
  }

  lemma PushComesFrom(events: seq<Event>, e: Event)
    requires e.EvPush?
    ensures var s := Run(events);
      HeldComeFrom(s, e, Step(s, e)) && OthersComeFrom(s, Step(s, e)) && Step(s, e).nextAddr == s.nextAddr
  {
    hide Run, Step, MayTake, GivenOut, HeldComeFrom, OthersComeFrom, Held, LastLevel;
    var s := Run(events);
    NothingHappens(s, e);
    SubscribedThere(events, e.name);
    if e.name in s.sub && !MayTake(s.queues[s.sub[e.name]], e.top) {
      NotTheTop(s, e);
    } else {
      PushGoesToNextSubscriber(events, e.name, e.top);
      assert e == EvPush(e.name, e.top);
      if Step(s, e) != s {
        var id := s.sub[e.name];
        var client, level := s.queues[id].subs[NextTurn(s.queues[id])], LastLevel(events, id);
        var m :| GivenOut(s, Step(s, e), id, e.name, m, client, level);
        GivenComeFrom(s, e, Step(s, e), id, e.name, m, client, level);
      }
    }
  }

  lemma SubscribedThere(events: seq<Event>, name: string)
    ensures var s := Run(events); name in s.sub ==> s.sub[name] in s.queues
  {
    hide Run, Inv;
    RunKeepsInv(events);
    InvHasRegistry(Run(events));
    if name in Run(events).sub {
      SubscribedFound(Run(events), name);
    }
  }

  lemma EveryStepComesFrom(events: seq<Event>, e: Event)
    ensures var s, s' := Run(events), Step(Run(events), e);
      && HeldComeFrom(s, e, s') && OthersComeFrom(s, s') && s.nextAddr <= s'.nextAddr
      && (!e.EvPublish? ==> s'.nextAddr == s.nextAddr)
  {
    hide Run, HeldComeFrom, OthersComeFrom, Publish, PushOne, Recv, Ack, ClientExit;
    var s := Run(events);
    match e
    case EvPublish(p, order) => PublishedComeFrom(s, p, order);
    case EvPush(_, _) => PushComesFrom(events, e);
    case EvRecv(_, _, _, _) => PullComesFrom(events, e);
    case EvAck(seqNo) =>
      AckComesFrom(s, seqNo);
      AckMakesNothing(s, seqNo);
    case EvExit(client, order) => ExitComesFrom(s, client, order);
    case _ => RegistryComesFrom(s, e);
  }

  lemma AckMakesNothing(s: State, seqNo: int)
    ensures Ack(s, seqNo).nextAddr == s.nextAddr
  {
    hide Position;
  }

  // --------------------------------------------------------------- results

  lemma {:induction false} TrueOverRuns(events: seq<Event>)
    ensures AllTrue(Run(events), OriginsOf(events))
    decreases |events|
  {
    if events != [] {
      hide AllTrue, HeldComeFrom, OthersComeFrom, OriginsAfter, Inv, Step;
      var prev, e := events[..|events| - 1], events[|events| - 1];
      TrueOverRuns(prev);
      EveryStepComesFrom(prev, e);
      RunKeepsInv(prev);
      RunKeepsInv(events);
      StaysTrue(Run(prev), e, Run(events), OriginsOf(prev));
    }
  }

  /** Over every run: every copy held in a queue or pending carries the body and
      the durable flag of the publication it was made for, and its priority under
      the limits of the queues it was put into; every message ever sent out
      carries the body of its publication. */
  lemma ContentsArePublished(events: seq<Event>)
    ensures var s, h := Run(events), OriginsOf(events);
      && h.Keys == s.place.Keys
      && (forall id, m :: id in s.queues && m in Held(s.queues[id]) ==>
            && m.addr in h && m.body == h[m.addr].p.body && m.durable == h[m.addr].p.durable
            && m.priority == h[m.addr].priority)
      && (forall m :: m in s.needAck ==>
            && m.addr in h && m.body == h[m.addr].p.body && m.durable == h[m.addr].p.durable
            && m.priority == h[m.addr].priority)
      && (forall k :: 0 <= k < |s.toConnect| && s.toConnect[k].Deliver? ==>
            var d := s.toConnect[k].m; d.addr in h && d.body == h[d.addr].p.body && d.durable == h[d.addr].p.durable)
  {
    hide Run, OriginsOf, Held, TrueTo;
    TrueOverRuns(events);
    var s, h := Run(events), OriginsOf(events);
    forall id, m | id in s.queues && m in Held(s.queues[id])
      ensures && m.addr in h && m.body == h[m.addr].p.body && m.durable == h[m.addr].p.durable
              && m.priority == h[m.addr].priority
    {
      TrueMeans(m, h);
    }
    forall m | m in s.needAck
      ensures && m.addr in h && m.body == h[m.addr].p.body && m.durable == h[m.addr].p.durable
              && m.priority == h[m.addr].priority
    {
      TrueMeans(m, h);
    }
  }

  lemma TrueMeans(m: Msg, h: map<nat, Origin>)
    requires TrueTo(m, h)
    ensures m.addr in h && m.body == h[m.addr].p.body && m.durable == h[m.addr].p.durable
    ensures m.priority == h[m.addr].priority
  {
  }

  /** The i-th event made the copy, for that publication. */
  ghost predicate MadeBy(events: seq<Event>, i: nat, a: nat, p: Publication)
    requires i < |events|
  {
    && events[i].EvPublish? && events[i].p == p
    && Run(events[..i]).nextAddr <= a < Run(events[..i + 1]).nextAddr
  }

  lemma MadeBefore(events: seq<Event>, e: Event, i: nat, a: nat, p: Publication)
    requires i < |events|
    ensures MadeBy(events + [e], i, a, p) <==> MadeBy(events, i, a, p)
  {
    hide Run;
    assert (events + [e])[..i] == events[..i] && (events + [e])[..i + 1] == events[..i + 1];
  }

  /** The origin of a copy is the publication whose event made it, and its
      priority starts from there. */
  lemma {:induction false} OriginsAreTheMakers(events: seq<Event>, a: nat) returns (i: nat)
    requires a in OriginsOf(events)
    ensures i < |events| && MadeBy(events, i, a, OriginsOf(events)[a].p)
    decreases |events|
  {
    hide Run, OriginsAfter;
    var prev, e := events[..|events| - 1], events[|events| - 1];
    OriginsStep(events, a);
    assert events == prev + [e];
    if a in OriginsOf(prev) {
      i := OriginsAreTheMakers(prev, a);
      MadeBefore(prev, e, i, a, OriginsOf(events)[a].p);
    } else {
      i := |prev|;
      assert events[..i] == prev && events[..i + 1] == events;
      KeysAreNumbers(prev);
      KeysAreNumbers(events);
    }
  }

  lemma OriginsStep(events: seq<Event>, a: nat)
    requires events != [] && a in OriginsOf(events)
    ensures var prev, e := events[..|events| - 1], events[|events| - 1];
      if a in OriginsOf(prev) then OriginsOf(events)[a].p == OriginsOf(prev)[a].p
      else e.EvPublish? && OriginsOf(events)[a].p == e.p
  {
    hide Run, PriorityAfter;
  }

  lemma KeysAreNumbers(events: seq<Event>)
    ensures forall a :: a in OriginsOf(events) <==> 0 <= a < Run(events).nextAddr
  {
    hide Run, OriginsOf, Inv, Held;
    TrueOverRuns(events);
    RunKeepsInv(events);
    Numbers(Run(events));
  }

  // ------------------------------------------------------------- receivers

  /** The copy leaves its queue for a client. */
  predicate Leaves(s: State, s': State, a: nat) {
    && a in s.place && s.place[a].Waiting? && a in s'.place
    && (s'.place[a].Pending? || s'.place[a].Delivered?)
  }

  /** Who a copy leaves for: the client that asked, or the subscriber whose turn
      it is. */
  function Receiver(s: State, e: Event): int {
    if e.EvRecv? then e.client
    else if e.EvPush? && e.name in s.sub && s.sub[e.name] in s.queues then
      var q := s.queues[s.sub[e.name]];
      if 0 <= NextTurn(q) < |q.subs| then q.subs[NextTurn(q)] else -1
    else -1
  }

  function ReceiversAfter(s: State, e: Event, s': State, r: map<nat, int>): map<nat, int> {
    map a | a in s'.place && (a in r || Leaves(s, s', a)) :: if Leaves(s, s', a) then Receiver(s, e) else r[a]
  }

  /** The client each copy last left for. */
  function ReceiversOf(events: seq<Event>): map<nat, int> {
    if events == [] then map[]
    else
      var prev, e := events[..|events| - 1], events[|events| - 1];
      ReceiversAfter(Run(prev), e, Run(events), ReceiversOf(prev))
  }

  /** New among the pending messages is only what leaves for its receiver. */
  ghost predicate PendingReceived(s: State, e: Event, s': State) {
    forall m :: m in s'.needAck ==>
      m in s.needAck || (m.client == Receiver(s, e) && m.addr in s.place && s.place[m.addr].Waiting?)
  }

  lemma GivenReceived(s: State, e: Event, s': State, id: QueueId, name: string, m: Msg, level: int)
    requires Inv(s) && id in s.queues && GivenOut(s, s', id, name, m, Receiver(s, e), level)
    ensures PendingReceived(s, e, s')
  {
    hide Inv, Receiver, Held;
    HeldIsPlaced(s, id, m);
  }

  lemma EveryStepReceives(events: seq<Event>, e: Event)
    ensures PendingReceived(Run(events), e, Step(Run(events), e))
  {
    hide Run, Step, MayTake, GivenOut, FindQueue, LastLevel, Inv, Held;
    RunKeepsInv(events);
    var s := Run(events);
    if e.EvRecv? {
      var found := FindQueue(s, e.name);
      if found.Some? && found.value in s.queues && !MayTake(s.queues[found.value], e.top) {
        NotTheTop(s, e);
      } else {
        PullGoesToCaller(events, e.client, e.name, e.level, e.top);
        assert e == EvRecv(e.client, e.name, e.level, e.top);
        if Step(s, e) != s {
          var m :| GivenOut(s, Step(s, e), found.value, e.name, m, e.client, e.level);
          GivenReceived(s, e, Step(s, e), found.value, e.name, m, e.level);
        }
      }
    } else if e.EvPush? {
      SubscribedThere(events, e.name);
      if e.name in s.sub && !MayTake(s.queues[s.sub[e.name]], e.top) {
        NotTheTop(s, e);
      } else {
        PushGoesToNextSubscriber(events, e.name, e.top);
        assert e == EvPush(e.name, e.top);
        if Step(s, e) != s {
          var id := s.sub[e.name];
          var client := s.queues[id].subs[NextTurn(s.queues[id])];
          var m :| GivenOut(s, Step(s, e), id, e.name, m, client, LastLevel(events, id));
          assert Receiver(s, e) == client;
          GivenReceived(s, e, Step(s, e), id, e.name, m, LastLevel(events, id));
        }
      }
    } else {
      OthersHandNothing(s, e);
    }
  }

  lemma OthersHandNothing(s: State, e: Event)
    requires !e.EvRecv? && !e.EvPush?
    ensures forall m :: m in Step(s, e).needAck ==> m in s.needAck
  {
    hide Publish, Ack, ClientExit, WithoutQueue, DropWaiting, Subscribe, Bind;
    match e
    case EvPublish(p, order) => PublishHandsNothing(s, p, order);
    case EvAck(seqNo) => AckComesFrom(s, seqNo);
      AckHandsNothing(s, seqNo);
    case EvExit(client, order) => ExitHandsNothing(s, client, order);
    case _ =>
  }

  lemma PublishHandsNothing(s: State, p: Publication, order: seq<string>)
    ensures Publish(s, p, order).needAck == s.needAck
  {
    hide StoreAll, Targets, Publish, NewCopy, Held;
    AllStored(s, p, Targets(s, p, order));
    var news := PublishShape(s, p, order, StoreAll(s, p, Targets(s, p, order)));
  }

  lemma AckHandsNothing(s: State, seqNo: int)
    ensures forall m :: m in Ack(s, seqNo).needAck ==> m in s.needAck
  {
    hide Position;
  }

  lemma ExitHandsNothing(s: State, client: int, order: seq<string>)
    ensures forall m :: m in ClientExit(s, client, order).needAck ==> m in s.needAck
  {
    hide ExitQueues, GiveBackAll, Kept, Forget;
    var s0 := s.(stored := Forget(s.stored, client));
    LeavingSends(s0, client, order);
    KeptInOrder(s0.needAck, client);
  }

  lemma StaysReceived(s: State, e: Event, s': State, r: map<nat, int>, m: Msg)
    requires Inv(s) && Inv(s') && PendingReceived(s, e, s') && m in s'.needAck
    requires m in s.needAck ==> m.addr in r && r[m.addr] == m.client
    ensures var r' := ReceiversAfter(s, e, s', r); m.addr in r' && r'[m.addr] == m.client
  {
    hide Inv, Receiver;
    PendingIsPlaced(s', m);
    if m in s.needAck {
      PendingIsPlaced(s, m);
    }
  }

  /** Over every run: a pending message belongs to the client it was pushed to or
      that asked for it, so that the exit of that client, and of no other, gives
      it back. */
  lemma {:induction false} PendingBelongsToReceiver(events: seq<Event>)
    ensures var s, r := Run(events), ReceiversOf(events);
      forall m :: m in s.needAck ==> m.addr in r && m.client == r[m.addr]
    decreases |events|
  {
    if events != [] {
      hide Inv, Step, PendingReceived, ReceiversAfter;
      var prev, e := events[..|events| - 1], events[|events| - 1];
      PendingBelongsToReceiver(prev);
      EveryStepReceives(prev, e);
      RunKeepsInv(prev);
      RunKeepsInv(events);
      forall m | m in Run(events).needAck
        ensures m.addr in ReceiversOf(events) && m.client == ReceiversOf(events)[m.addr]
      {
        StaysReceived(Run(prev), e, Run(events), ReceiversOf(prev), m);
      }
    }
  }
}
