/** What the exit of a client does to queues, exchanges and copies. */
module ClientExits {
  import opened MessageQueues
  import opened Exchanges
  import opened Broker
  import opened BrokerInvariant

  // ------------------------------------------- what goes with a lost queue

  /** The exchange binds something, and only queues that are gone. */
  ghost predicate BindsOnlyGone(e: ExchangeState, left: set<QueueId>) {
    e.bindings != map[] && forall k :: k in e.bindings ==> e.bindings[k] != [] && e.bindings[k][0] !in left
  }

  /** e' is e without its bindings to queues that are gone. */
  ghost predicate Trimmed(e: ExchangeState, e': ExchangeState, left: set<QueueId>) {
    && e' == e.(bindings := e'.bindings)
    && (forall k :: k in e'.bindings <==> k in e.bindings && e.bindings[k] != [] && e.bindings[k][0] in left)
    && (forall k :: k in e'.bindings ==> e'.bindings[k] == e.bindings[k])
  }

  /** Exactly the exchanges go that delete themselves and were emptied; the
      others lose exactly their bindings to lost queues. */
  ghost predicate ExchangesPruned(es: map<string, ExchangeState>, es': map<string, ExchangeState>, left: set<QueueId>) {
    && es'.Keys <= es.Keys
    && (forall n :: n in es ==> (n !in es' <==> es[n].autoDel && BindsOnlyGone(es[n], left)))
    && (forall n :: n in es' ==> Trimmed(es[n], es'[n], left))
  }

  /** Exactly the copies waiting in lost queues are dropped. */
  ghost predicate CopiesPruned(place: map<nat, Place>, place': map<nat, Place>, left: set<QueueId>) {
    && place'.Keys == place.Keys
    && forall a :: a in place ==>
         place'[a] == if place[a].Waiting? && place[a].queue !in left then Dropped else place[a]
  }

  ghost predicate Pruned(s: State, s': State) {
    && s'.queues.Keys <= s.queues.Keys
    && ExchangesPruned(s.exchanges, s'.exchanges, s'.queues.Keys)
    && CopiesPruned(s.place, s'.place, s'.queues.Keys)
  }

  /** Every binding has a queue, every waiting copy too. */
  ghost predicate NothingDangles(s: State) {
    && (forall n :: n in s.exchanges ==> Singletons(s.exchanges[n]))
    && (forall n, k :: n in s.exchanges && k in s.exchanges[n].bindings ==> s.exchanges[n].bindings[k][0] in s.queues)
    && (forall a :: a in s.place && s.place[a].Waiting? ==> s.place[a].queue in s.queues)
  }

  lemma InvNothingDangles(s: State)
    requires Inv(s)
    ensures NothingDangles(s)
  {
    hide Registered, SoundQueue, Numbered, Bag;
    forall a | a in s.place && s.place[a].Waiting?
      ensures s.place[a].queue in s.queues
    {
      assert Watched(s.place[a]);
      assert a in multiset(At(s.place, s.place[a]));
    }
  }

  lemma NothingPruned(s: State, s': State)
    requires NothingDangles(s)
    requires s'.queues.Keys == s.queues.Keys && s'.exchanges == s.exchanges && s'.place == s.place
    ensures Pruned(s, s')
  {
    forall n | n in s.exchanges
      ensures !BindsOnlyGone(s.exchanges[n], s.queues.Keys)
    {
      if s.exchanges[n].bindings != map[] {
        var k :| k in s.exchanges[n].bindings;
      }
    }
  }

  lemma TrimmedTwice(e: ExchangeState, e1: ExchangeState, e2: ExchangeState, left1: set<QueueId>, left2: set<QueueId>)
    requires left2 <= left1 && Trimmed(e, e1, left1) && Trimmed(e1, e2, left2)
    ensures Trimmed(e, e2, left2)
  {
  }

  lemma GoneTwice(e: ExchangeState, e1: ExchangeState, left1: set<QueueId>, left2: set<QueueId>)
    requires left2 <= left1 && Trimmed(e, e1, left1) && Singletons(e) && !(e.autoDel && BindsOnlyGone(e, left1))
    ensures e.autoDel ==> (BindsOnlyGone(e1, left2) <==> BindsOnlyGone(e, left2))
  {
    if e.autoDel && BindsOnlyGone(e, left2) && e1.bindings == map[] {
      assert BindsOnlyGone(e, left1);
    }
    if BindsOnlyGone(e1, left2) {
      var k :| k in e1.bindings;
      assert k in e.bindings;
    }
  }

  lemma ExchangesPrunedTwice(es: map<string, ExchangeState>, es1: map<string, ExchangeState>,
                             es2: map<string, ExchangeState>, left1: set<QueueId>, left2: set<QueueId>)
    requires left2 <= left1 && ExchangesPruned(es, es1, left1) && ExchangesPruned(es1, es2, left2)
    requires forall n :: n in es ==> Singletons(es[n])
    ensures ExchangesPruned(es, es2, left2)
  {
    hide Trimmed, BindsOnlyGone, Singletons;
    forall n | n in es
      ensures n !in es2 <==> es[n].autoDel && BindsOnlyGone(es[n], left2)
    {
      if n in es1 {
        GoneTwice(es[n], es1[n], left1, left2);
        TrimmedKeeps(es[n], es1[n], left1);
      } else {
        FewerLeft(es[n], left1, left2);
      }
    }
    forall n | n in es2
      ensures Trimmed(es[n], es2[n], left2)
    {
      TrimmedTwice(es[n], es1[n], es2[n], left1, left2);
    }
  }

  lemma TrimmedKeeps(e: ExchangeState, e': ExchangeState, left: set<QueueId>)
    requires Trimmed(e, e', left)
    ensures e'.autoDel == e.autoDel
  {
  }

  lemma FewerLeft(e: ExchangeState, left1: set<QueueId>, left2: set<QueueId>)
    requires left2 <= left1 && BindsOnlyGone(e, left1)
    ensures BindsOnlyGone(e, left2)
  {
  }

  lemma PrunedTwice(s: State, s1: State, s2: State)
    requires Pruned(s, s1) && Pruned(s1, s2) && NothingDangles(s)
    ensures Pruned(s, s2)
  {
    ExchangesPrunedTwice(s.exchanges, s1.exchanges, s2.exchanges, s1.queues.Keys, s2.queues.Keys);
    hide ExchangesPruned;
  }

  lemma DropPrunes(s: State, id: QueueId)
    requires NothingDangles(s) && id in s.queues
    ensures Pruned(s, DropQueue(s, id))
  {
    hide NothingDangles, ExchangesPruned;
    DropPrunesExchanges(s, id);
    assert DropQueue(s, id).queues.Keys == s.queues.Keys - {id};
    WaitingExist(s);
  }

  lemma WaitingExist(s: State)
    requires NothingDangles(s)
    ensures forall a :: a in s.place && s.place[a].Waiting? ==> s.place[a].queue in s.queues
  {
    hide Singletons;
  }

  lemma DropPrunesExchanges(s: State, id: QueueId)
    requires NothingDangles(s) && id in s.queues
    ensures ExchangesPruned(s.exchanges, WithoutQueue(s.exchanges, id), s.queues.Keys - {id})
  {
    hide OnlyBinds, BindsOnlyGone, Trimmed, Singletons, WithoutQueue, RefersTo;
    WithoutQueueForgets(s.exchanges, id);
    var es' := WithoutQueue(s.exchanges, id);
    forall n | n in s.exchanges
      ensures OnlyBinds(s.exchanges[n], id) <==> BindsOnlyGone(s.exchanges[n], s.queues.Keys - {id})
    {
      OnlyOneGone(s.exchanges[n], s.queues.Keys, id);
    }
    forall n | n in es'
      ensures Trimmed(s.exchanges[n], es'[n], s.queues.Keys - {id})
    {
      TrimmedOfOne(s, id, n);
    }
  }

  lemma OnlyOneGone(e: ExchangeState, queues: set<QueueId>, id: QueueId)
    requires Singletons(e) && forall k :: k in e.bindings ==> e.bindings[k][0] in queues
    ensures OnlyBinds(e, id) <==> BindsOnlyGone(e, queues - {id})
  {
    forall k | k in e.bindings
      ensures e.bindings[k] == [e.bindings[k][0]]
    {
    }
  }

  lemma TrimmedOfOne(s: State, id: QueueId, n: string)
    requires NothingDangles(s) && id in s.queues && n in WithoutQueue(s.exchanges, id) && n in s.exchanges
    ensures Trimmed(s.exchanges[n], WithoutQueue(s.exchanges, id)[n], s.queues.Keys - {id})
  {
    hide DeleteBinding, Vanishes, Singletons, Trimmed;
    TrimmedByDelete(s.exchanges[n], id, s.queues.Keys);
  }

  lemma TrimmedByDelete(e: ExchangeState, id: QueueId, queues: set<QueueId>)
    requires Singletons(e) && forall k :: k in e.bindings ==> e.bindings[k][0] in queues
    ensures Trimmed(e, if e.bindings == map[] then e else DeleteBinding(e, id), queues - {id})
  {
    BindingsStaySingle(e, "", id);
    DeletesBindingsOnly(e, id);
    hide DeleteBinding;
    forall k | k in e.bindings
      ensures e.bindings[k] == [e.bindings[k][0]]
    {
    }
  }

  lemma DeletesBindingsOnly(e: ExchangeState, id: QueueId)
    ensures DeleteBinding(e, id) == e.(bindings := DeleteBinding(e, id).bindings)
  {
    hide Others;
  }

  /** Leaving one queue, in terms of what it loses. */
  lemma LeavePrunes(s: State, client: int, name: string)
    requires NothingDangles(s)
    ensures Pruned(s, ExitQueue(s, client, name))
  {
    hide Unsubscribe, NothingDangles, Pruned;
    if name in s.sub && s.sub[name] in s.queues {
      var id := s.sub[name];
      var q := s.queues[id];
      var q' := Unsubscribe(q, client);
      if |q'.subs| < |q.subs| && q'.subs == [] && q.autoDel {
        var s1 := s.(queues := s.queues[id := q'], sub := s.sub - {name},
                     toPersis := s.toPersis + (if q.durable then [RemoveQueue(name)] else []));
        assert ExitQueue(s, client, name) == DropQueue(s1, id);
        hide DropQueue;
        DanglesTheSame(s, s1);
        DropPrunes(s1, id);
        NothingPruned(s, s1);
        PrunedTwice(s, s1, DropQueue(s1, id));
      } else {
        NothingPruned(s, ExitQueue(s, client, name));
      }
    } else {
      NothingPruned(s, s);
    }
  }

  lemma DanglesTheSame(s: State, s': State)
    requires s'.queues.Keys == s.queues.Keys && s'.exchanges == s.exchanges && s'.place == s.place
    ensures NothingDangles(s) <==> NothingDangles(s')
  {
    hide Singletons;
  }

  lemma {:induction false} LeavingPrunes(s: State, client: int, order: seq<string>)
    requires Inv(s)
    ensures Pruned(s, ExitQueues(s, client, order))
    decreases |order|
  {
    hide Inv, Pruned, ExitQueue, NothingDangles;
    InvNothingDangles(s);
    if order == [] {
      NothingPruned(s, s);
    } else {
      var front := order[..|order| - 1];
      LeavingPrunes(s, client, front);
      ExitQueuesKeeps(s, client, front);
      var s1 := ExitQueues(s, client, front);
      InvNothingDangles(s1);
      LeavePrunes(s1, client, order[|order| - 1]);
      PrunedTwice(s, s1, ExitQueue(s1, client, order[|order| - 1]));
    }
  }

  // ------------------------------------------------------ which queues go

  /** The queue after the client left the queues named in `left`, if it is still
      there. */
  ghost predicate LeftSoFar(s: State, client: int, left: seq<string>, s': State) {
    && s'.queues.Keys <= s.queues.Keys
    && (forall id :: id in s.queues ==>
          (id !in s'.queues <==>
             s.queues[id].name in left && s.queues[id].autoDel && s.queues[id].subs == [client]))
    && (forall id :: id in s'.queues ==>
          && s'.queues[id].name == s.queues[id].name && s'.queues[id].autoDel == s.queues[id].autoDel
          && (s.queues[id].name !in left ==> s'.queues[id].subs == s.queues[id].subs))
  }

  /** What is left of a subscriber list. */
  lemma LastOneOut(subs: seq<int>, client: int)
    requires DistinctInts(subs)
    ensures |Remove(subs, client)| < |subs| && Remove(subs, client) == [] <==> subs == [client]
  {
    RemoveKeepsDistinct(subs, client);
    assert forall i :: 0 <= i < |subs| && subs[i] != client ==> subs[i] in Remove(subs, client);
    if Remove(subs, client) == [] && subs != [] {
      assert |subs| == 1;
    }
  }

  lemma ExitOneShape(s: State, client: int, name: string)
    requires name in s.sub && s.sub[name] in s.queues && DistinctInts(s.queues[s.sub[name]].subs)
    ensures var s', id := ExitQueue(s, client, name), s.sub[name]; var q := s.queues[id];
      && (forall i :: i in s'.queues <==> i in s.queues && (i != id || !(q.autoDel && q.subs == [client])))
      && (forall i :: i in s'.queues && i != id ==> s'.queues[i] == s.queues[i])
      && (id in s'.queues ==> s'.queues[id].name == q.name && s'.queues[id].autoDel == q.autoDel)
  {
    LastOneOut(s.queues[s.sub[name]].subs, client);
    hide Remove, DistinctInts, WithoutQueue, DropWaiting;
  }

  /** A queue under its own name, and nobody else. */
  lemma SubscribedUnder(s: State, id: QueueId)
    requires Inv(s) && id in s.queues && s.queues[id].subs != []
    ensures var n := s.queues[id].name; n in s.sub && s.sub[n] == id
    ensures DistinctInts(s.queues[id].subs)
  {
    hide DistinctInts, BoundQueuesExist, Placed, Numbered;
    assert Registered(s, id);
  }

  lemma LeftOneMore(s: State, client: int, left: seq<string>, s1: State, name: string)
    requires Inv(s) && Inv(s1) && LeftSoFar(s, client, left, s1) && name !in left && name in s.sub
    ensures LeftSoFar(s, client, left + [name], ExitQueue(s1, client, name))
  {
    hide Inv, DistinctInts, ExitQueue, LeftSoFar, Registry;
    InvHasRegistry(s);
    var id := s.sub[name];
    SubscribersOf(s, name);
    StillThere(s, client, left, s1, id);
    SubscribedUnder(s1, id);
    ExitOneShape(s1, client, name);
    forall i | i in s.queues && i != id
      ensures s.queues[i].name != name
    {
      NamesDiffer(s, i, id);
    }
    LeftThatOne(s, client, left, s1, name, id, ExitQueue(s1, client, name));
  }

  lemma LeftThatOne(s: State, client: int, left: seq<string>, s1: State, name: string, id: QueueId, s2: State)
    requires LeftSoFar(s, client, left, s1) && name !in left && id in s1.queues
    requires forall i :: i in s.queues ==> (s.queues[i].name == name <==> i == id)
    requires forall i :: i in s2.queues <==>
      i in s1.queues && (i != id || !(s1.queues[id].autoDel && s1.queues[id].subs == [client]))
    requires forall i :: i in s2.queues && i != id ==> s2.queues[i] == s1.queues[i]
    requires id in s2.queues ==> s2.queues[id].name == s1.queues[id].name && s2.queues[id].autoDel == s1.queues[id].autoDel
    ensures LeftSoFar(s, client, left + [name], s2)
  {
  }

  lemma StillThere(s: State, client: int, left: seq<string>, s1: State, id: QueueId)
    requires LeftSoFar(s, client, left, s1) && id in s.queues && s.queues[id].name !in left
    ensures id in s1.queues && s1.queues[id].name == s.queues[id].name && s1.queues[id].subs == s.queues[id].subs
  {
  }

  lemma SubscribersOf(s: State, name: string)
    requires Registry(s) && name in s.sub
    ensures s.sub[name] in s.queues && s.queues[s.sub[name]].subs != [] && s.queues[s.sub[name]].name == name
  {
    hide SoundQueue, BoundQueuesExist;
    assert Registered(s, s.sub[name]);
  }

  lemma {:induction false} QueuesLeft(s: State, client: int, order: seq<string>)
    requires Inv(s) && (forall i, j :: 0 <= i < j < |order| ==> order[i] != order[j])
    requires forall n :: n in order ==> n in s.sub
    ensures LeftSoFar(s, client, order, ExitQueues(s, client, order))
    decreases |order|
  {
    hide Inv, ExitQueue, LeftSoFar;
    if order == [] {
      NobodyLeft(s, client);
    } else {
      var front, name := order[..|order| - 1], order[|order| - 1];
      QueuesLeft(s, client, front);
      ExitQueuesKeeps(s, client, front);
      assert order == front + [name] && name !in front;
      LeftOneMore(s, client, front, ExitQueues(s, client, front), name);
    }
  }

  lemma NobodyLeft(s: State, client: int)
    ensures LeftSoFar(s, client, [], s)
  {
  }

  // --------------------------------------------------- where copies end up

  /** Where a pending message of the client goes: back to the queue of its
      name, or nowhere when there is none. */
  function Home(s: State, m: Msg): Place {
    var id := FindQueue(s, m.queueName);
    if id.Some? && id.value in s.queues then Waiting(id.value) else Dropped
  }

  ghost predicate DistinctAddrs(ms: seq<Msg>) {
    forall i, j :: 0 <= i < j < |ms| ==> ms[i].addr != ms[j].addr
  }

  lemma PendingIsDistinct(s: State)
    requires Inv(s)
    ensures DistinctAddrs(s.needAck)
  {
    hide Registry, Numbered, Stock;
    var ms := s.needAck;
    assert Stock(s.queues, Bag(ms), Pending) == Bag(ms) by {
      StockOfPending(s.queues, Bag(ms));
    }
    assert Watched(Pending);
    hide Bag;
    forall i, j | 0 <= i < j < |ms|
      ensures ms[i].addr != ms[j].addr
    {
      BagWithout(ms, i);
      var rest := ms[..i] + ms[i + 1..];
      assert rest[j - 1] == ms[j];
      BagMember(rest, j - 1);
      assert multiset(At(s.place, Pending))[ms[i].addr] <= 1;
    }
  }

  lemma StockOfPending(queues: map<QueueId, Queue>, pending: multiset<nat>)
    ensures Stock(queues, pending, Pending) == pending
  {
  }

  lemma IsPending(s: State, i: nat)
    requires Inv(s) && i < |s.needAck|
    ensures s.needAck[i].addr in s.place && s.place[s.needAck[i].addr] == Pending
  {
    BagMember(s.needAck, i);
    hide Bag, Registry, Numbered;
    assert s.needAck[i].addr in Stock(s.queues, Bag(s.needAck), Pending);
    PlaceOf(s, Bag(s.needAck), s.needAck[i].addr, Pending);
  }

  lemma HomeStays(s: State, client: int, ms: seq<Msg>, m: Msg)
    ensures Home(GiveBackAll(s, client, ms), m) == Home(s, m)
  {
    hide GiveBackAll;
    GiveBackAllFrame(s, client, ms);
  }

  /** Exactly the client's messages among ms move, each to its home. */
  lemma {:induction false} GivenHome(s: State, client: int, ms: seq<Msg>)
    requires DistinctAddrs(ms)
    ensures var s' := GiveBackAll(s, client, ms);
      && s'.nextAddr == s.nextAddr && s'.exchanges == s.exchanges
      && (forall i :: 0 <= i < |ms| && ms[i].client == client ==>
            ms[i].addr in s'.place && s'.place[ms[i].addr] == Home(s, ms[i]))
      && (forall a :: a in s.place && (forall i :: 0 <= i < |ms| && ms[i].client == client ==> ms[i].addr != a) ==>
            a in s'.place && s'.place[a] == s.place[a])
    decreases |ms|
  {
    if ms != [] {
      var front, m := ms[..|ms| - 1], ms[|ms| - 1];
      GivenHome(s, client, front);
      HomeStays(s, client, front, m);
      hide FindQueue, AddFront;
      forall i | 0 <= i < |front|
        ensures front[i] == ms[i] && front[i].addr != m.addr
      {
      }
    }
  }

  // ---------------------------------------------------------- all together

  /** What an exit does to copies: those waiting in lost queues are dropped; the
      client's pending ones go home, or are dropped when no queue of that name
      is left; nothing else moves. */
  ghost predicate CopiesAfterExit(s: State, client: int, s': State) {
    && s'.place.Keys == s.place.Keys
    && (forall a :: a in s.place && s.place[a].Waiting? ==>
          s'.place[a] == if s.place[a].queue in s'.queues then s.place[a] else Dropped)
    && (forall i :: 0 <= i < |s.needAck| ==> (
          && s.needAck[i].addr in s.place
          && s'.place[s.needAck[i].addr] == if s.needAck[i].client == client then Home(s', s.needAck[i]) else Pending))
    && (forall a :: a in s.place && !Watched(s.place[a]) ==> s'.place[a] == s.place[a])
  }

  /** Pending, and nothing but pending. */
  lemma PendingElsewhere(s: State, a: nat)
    requires Inv(s) && a in s.place && s.place[a] != Pending
    ensures forall i :: 0 <= i < |s.needAck| ==> s.needAck[i].addr != a
  {
    hide Inv;
    forall i | 0 <= i < |s.needAck|
      ensures s.needAck[i].addr != a
    {
      IsPending(s, i);
    }
  }

  /** The second half of an exit: the pending messages. */
  lemma GivingBackMoves(s: State, client: int)
    requires Inv(s)
    ensures var s' := GiveBackAll(s, client, s.needAck);
      && s'.queues.Keys == s.queues.Keys && s'.exchanges == s.exchanges && s'.nextAddr == s.nextAddr
      && (forall m :: Home(s', m) == Home(s, m))
      && (forall a :: a in s.place && s.place[a] != Pending ==> a in s'.place && s'.place[a] == s.place[a])
      && (forall i :: 0 <= i < |s.needAck| ==> (
            && s.needAck[i].addr in s'.place
            && s'.place[s.needAck[i].addr] == if s.needAck[i].client == client then Home(s, s.needAck[i]) else Pending))
  {
    hide Inv, GiveBackAll, Home;
    PendingIsDistinct(s);
    GivenHome(s, client, s.needAck);
    GiveBackAllFrame(s, client, s.needAck);
    var s' := GiveBackAll(s, client, s.needAck);
    forall m
      ensures Home(s', m) == Home(s, m)
    {
      HomeStays(s, client, s.needAck, m);
    }
    forall a | a in s.place && s.place[a] != Pending
      ensures a in s'.place && s'.place[a] == s.place[a]
    {
      PendingElsewhere(s, a);
    }
    forall i | 0 <= i < |s.needAck|
      ensures s.needAck[i].addr in s'.place
      ensures s'.place[s.needAck[i].addr] == if s.needAck[i].client == client then Home(s, s.needAck[i]) else Pending
    {
      IsPending(s, i);
    }
  }

  lemma {:induction false} GiveBackAllAddsNothing(s: State, client: int, ms: seq<Msg>)
    requires forall i :: 0 <= i < |ms| ==> ms[i].addr in s.place
    ensures GiveBackAll(s, client, ms).place.Keys == s.place.Keys
    decreases |ms|
  {
    if ms != [] {
      GiveBackAllAddsNothing(s, client, ms[..|ms| - 1]);
      hide AddFront, FindQueue;
    }
  }

  lemma ExitInSteps(s: State, client: int, order: seq<string>)
    ensures var s1 := ExitQueues(s.(stored := Forget(s.stored, client)), client, order);
      ClientExit(s, client, order) == GiveBackAll(s1, client, s1.needAck).(needAck := Kept(s1.needAck, client))
  {
    hide ExitQueues, GiveBackAll, Kept, Forget;
  }

  lemma PrunedParts(s: State, s': State)
    requires Pruned(s, s')
    ensures s'.queues.Keys <= s.queues.Keys && ExchangesPruned(s.exchanges, s'.exchanges, s'.queues.Keys)
    ensures CopiesPruned(s.place, s'.place, s'.queues.Keys)
  {
    hide ExchangesPruned, CopiesPruned;
  }

  /** Exchanges and copies after an exit, whatever walk it took. */
  lemma ExitMovesExactly(s: State, client: int, order: seq<string>)
    requires Inv(s)
    ensures var s' := ClientExit(s, client, order);
      && s'.queues.Keys <= s.queues.Keys && s'.nextAddr == s.nextAddr
      && ExchangesPruned(s.exchanges, s'.exchanges, s'.queues.Keys)
      && CopiesAfterExit(s, client, s')
  {
    hide Inv, ExitQueues, GiveBackAll, Kept, Forget, ClientExit, Pruned, ExchangesPruned, Home;
    var s0 := s.(stored := Forget(s.stored, client));
    SameHere(s, s0);
    ExitInSteps(s, client, order);
    var s1 := ExitQueues(s0, client, order);
    ExitQueuesKeeps(s0, client, order);
    LeavingPrunes(s0, client, order);
    PrunedParts(s0, s1);
    LeavingCounts(s0, client, order);
    GivingBackMoves(s1, client);
    forall i | 0 <= i < |s1.needAck|
      ensures s1.needAck[i].addr in s1.place && s1.needAck[i].addr in s.place
    {
      IsPending(s1, i);
    }
    GiveBackAllAddsNothing(s1, client, s1.needAck);
    var s' := ClientExit(s, client, order);
    forall m
      ensures Home(s', m) == Home(s1, m)
    {
      HomeIgnoresPending(GiveBackAll(s1, client, s1.needAck), Kept(s1.needAck, client), m);
    }
  }

  lemma HomeIgnoresPending(s: State, ms: seq<Msg>, m: Msg)
    ensures Home(s.(needAck := ms), m) == Home(s, m)
  {
  }

  lemma {:induction false} LeavingCounts(s: State, client: int, order: seq<string>)
    ensures ExitQueues(s, client, order).nextAddr == s.nextAddr
    decreases |order|
  {
    if order != [] {
      LeavingCounts(s, client, order[..|order| - 1]);
      hide Unsubscribe, WithoutQueue, DropWaiting;
    }
  }

  /** A queue goes exactly when it deletes itself and the client was its only
      subscriber. */
  lemma ExitDeletesExactly(s: State, client: int, order: seq<string>)
    requires Inv(s) && Enumerates(order, s.sub.Keys)
    ensures var s' := ClientExit(s, client, order);
      forall id :: id in s.queues ==> (id !in s'.queues <==> s.queues[id].autoDel && s.queues[id].subs == [client])
  {
    hide Inv, ExitQueues, GiveBackAll, Kept, Forget, ClientExit;
    var s0 := s.(stored := Forget(s.stored, client));
    SameHere(s, s0);
    ExitInSteps(s, client, order);
    QueuesLeft(s0, client, order);
    var s1 := ExitQueues(s0, client, order);
    GiveBackAllFrame(s1, client, s1.needAck);
    forall id | id in s.queues && s.queues[id].subs == [client]
      ensures s.queues[id].name in order
    {
      SubscribedUnder(s, id);
    }
  }
}
