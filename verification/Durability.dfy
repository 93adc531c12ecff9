/** Broker, log and recovery together: what the broker tells the persistence
    server about a durable queue always adds up to what it still holds of it,
    so recovery brings back exactly that. */
module Durability {
  import opened Bytes
  import opened CommonDefs
  import opened FileNames
  import opened Records
  import opened MessageQueues
  import opened Exchanges
  import opened Broker
  import opened BrokerInvariant
  import opened Ledgers
  import R = Recovery

  // ------------------------------------------ what the log of a queue is told

  function LogEvent(c: Command, name: string): seq<R.Event> {
    match c
    case Store(n, i, priority, body) => if n == name then [R.Write(Record(i, priority, body))] else []
    case Consume(n, i) => if n == name then [R.Eat(i)] else []
    case _ => []
  }

  /** The events of a log with bodies up to their first NUL. */
  function CutEvents(evs: seq<R.Event>): (cut: seq<R.Event>)
    ensures |cut| == |evs|
  {
    seq(|evs|, i requires 0 <= i < |evs| => if evs[i].Write? then R.Write(Cut(evs[i].r)) else evs[i])
  }

  /** What the log was told, as far as the broker remembers: a broker that was
      started again knows older bodies only as recovery cut them. */
  function LogEvents(cmds: seq<Command>, name: string): seq<R.Event> {
    if cmds == [] then []
    else
      var front, last := cmds[..|cmds| - 1], cmds[|cmds| - 1];
      if last.Booted? then CutEvents(LogEvents(front, name)) else LogEvents(front, name) + LogEvent(last, name)
  }

  lemma OneCommand(a: seq<Command>, c: Command, name: string)
    requires !c.Booted?
    ensures LogEvents(a + [c], name) == LogEvents(a, name) + LogEvent(c, name)
    ensures LogEvents(a + [], name) == LogEvents(a, name)
  {
    assert (a + [c])[..|a|] == a;
    assert a + [] == a;
  }

  // ------------------------------------------------------ the broker's side

  /** The account of queue id balances. */
  ghost predicate Accounted(s: State, id: QueueId)
    requires id in s.queues
  {
    var q := s.queues[id];
    Balanced(q.priority, q.nextDurable, Held(q), s.needAck, LogEvents(s.toPersis, q.name), q.name)
  }

  /** If there is a queue of that name and it is durable, its account balances. */
  ghost predicate Tracked(s: State, name: string) {
    FindQueue(s, name).Some? ==>
      var id := FindQueue(s, name).value;
      id in s.queues && s.queues[id].name == name && (s.queues[id].durable ==> Accounted(s, id))
  }

  /** Nothing has been heard of a queue of that name. */
  ghost predicate Unheard(s: State, name: string) {
    && FindQueue(s, name).None?
    && LogEvents(s.toPersis, name) == []
    && (forall m :: m in s.needAck ==> m.queueName != name)
  }

  /** The same contents, and the log told nothing new. */
  ghost predicate Same(s: State, s': State, name: string) {
    && s'.needAck == s.needAck && LogEvents(s'.toPersis, name) == LogEvents(s.toPersis, name)
    && FindQueue(s', name) == FindQueue(s, name)
    && (FindQueue(s, name).Some? && FindQueue(s, name).value in s.queues ==>
          var id := FindQueue(s, name).value;
          id in s'.queues && SameStock(s.queues[id], s'.queues[id]))
  }

  predicate SameStock(q: Queue, q': Queue) {
    && q'.heap == q.heap && q'.list == q.list && q'.name == q.name && q'.priority == q.priority
    && q'.durable == q.durable && q'.nextDurable == q.nextDurable
  }

  lemma SameKeeps(s: State, s': State, name: string)
    requires Same(s, s', name)
    ensures Tracked(s, name) ==> Tracked(s', name)
    ensures Unheard(s, name) ==> Unheard(s', name)
  {
    hide Balanced, FindQueue, LogEvents;
  }

  lemma GoneIsTracked(s: State, name: string)
    requires FindQueue(s, name).None?
    ensures Tracked(s, name)
  {
  }

  // ---------------------------------------------------------- other requests

  lemma CreatedSame(s: State, e: Event, name: string)
    requires e.EvCreateExchange? || e.EvCreateBinding? || e.EvDeleteExchange?
    ensures Same(s, Step(s, e), name)
  {
    hide LogEvents, Bind;
  }

  lemma NewQueueShape(s: State, name: string, priority: int, durable: bool, autoDel: bool)
    requires s.nextQueue !in s.queues
    ensures var s' := CreateQueue(s, name, priority, durable, autoDel);
      && s'.needAck == s.needAck
      && (s'.toPersis == s.toPersis || s'.toPersis == s.toPersis + [MakeQueue(name)])
      && (forall n :: n != name || FindQueue(s, name).Some? ==> FindQueue(s', n) == FindQueue(s, n))
      && (forall i :: i in s.queues ==> i in s'.queues && s'.queues[i] == s.queues[i])
  {
    assert s.toPersis + [] == s.toPersis;
  }

  lemma NewQueueSame(s: State, e: Event, name: string)
    requires e.EvCreateQueue? && (e.name != name || FindQueue(s, name).Some?) && s.nextQueue !in s.queues
    ensures Same(s, Step(s, e), name)
  {
    hide LogEvents, FindQueue, CreateQueue;
    OneCommand(s.toPersis, MakeQueue(e.name), name);
    NewQueueShape(s, e.name, e.priority, e.durable, e.autoDel);
  }

  lemma NewQueueTracked(s: State, e: Event, name: string)
    requires e.EvCreateQueue? && e.name == name && Unheard(s, name)
    ensures Tracked(Step(s, e), name)
  {
    var s' := Step(s, e);
    OneCommand(s.toPersis, MakeQueue(name), name);
    hide LogEvents;
    EmptyAccount(e.priority, s.needAck, name);
  }

  lemma {:induction false} NoMarks(ms: seq<Msg>, name: string)
    requires forall m :: m in ms ==> m.queueName != name
    ensures Marks(ms, false, name) == multiset{}
    decreases |ms|
  {
    if ms != [] {
      NoMarks(ms[..|ms| - 1], name);
    }
  }

  lemma EmptyAccount(limit: int, pending: seq<Msg>, name: string)
    requires forall m :: m in pending ==> m.queueName != name
    ensures Balanced(limit, 0, [], pending, [], name)
  {
    NoMarks(pending, name);
    assert Open([]) == {};
  }

  lemma SubscribedSame(s: State, client: int, queue: string, level: nat, name: string)
    ensures Same(s, CreateSubscribe(s, client, queue, level), name)
  {
    hide LogEvents;
  }

  lemma DeletedShape(s: State, queue: string)
    requires FindQueue(s, queue).Some? ==> FindQueue(s, queue).value in s.queues
    ensures var s' := DeleteQueue(s, queue);
      && s'.needAck == s.needAck && FindQueue(s', queue).None?
      && (s'.toPersis == s.toPersis || s'.toPersis == s.toPersis + [RemoveQueue(queue)])
      && (forall n :: n != queue ==> FindQueue(s', n) == FindQueue(s, n))
      && (forall i :: i in s.queues && FindQueue(s, queue) != Some(i) ==> i in s'.queues && s'.queues[i] == s.queues[i])
  {
    hide WithoutQueue, DropWaiting;
    assert s.toPersis + [] == s.toPersis;
  }

  lemma DeletedTracked(s: State, queue: string, name: string)
    requires Inv(s)
    ensures Tracked(s, name) ==> Tracked(DeleteQueue(s, queue), name)
    ensures Unheard(s, name) ==> Unheard(DeleteQueue(s, queue), name)
  {
    hide LogEvents, SoundQueue, Tracked, Unheard, DeleteQueue, FindQueue, Registry;
    InvHasRegistry(s);
    hide Inv;
    var s' := DeleteQueue(s, queue);
    FoundByName(s, queue);
    FoundByName(s, name);
    DeletedShape(s, queue);
    OneCommand(s.toPersis, RemoveQueue(queue), name);
    if FindQueue(s', name).None? {
      GoneIsTracked(s', name);
      FollowsItself(s, s', name);
    } else {
      UnheardNone(s, name);
      LeftSame(s, s', name);
    }
  }

  // ------------------------------------------------------------- publishing

  lemma AddInserts(q: Queue, m: Msg)
    ensures q.list + [] == q.list
    ensures Held(Add(q, m)) == if UsesHeap(q, m) then q.heap + [Clamp(q, m)] + q.list else Held(q) + [m] + []
    ensures Held(AddFront(q, m)) == q.heap + [if UsesHeap(q, m) then Clamp(q, m) else m] + q.list
  {
  }

  lemma ClampIs(q: Queue, m: Msg)
    ensures Clamp(q, m).priority == Clamped(q.priority, m.priority) || !UsesHeap(q, m)
    ensures !UsesHeap(q, m) ==> Clamped(q.priority, m.priority) == m.priority
  {
  }

  /** One more copy in the queue itself. */
  lemma StoredShape(s: State, p: Publication, id: QueueId) returns (a: seq<Msg>, b: seq<Msg>, m: Msg)
    requires id in s.queues && s.queues[id].durable
    ensures var q, s' := s.queues[id], StoreOne(s, p, id);
      && s'.queues.Keys == s.queues.Keys && s'.needAck == s.needAck
      && Held(q) == a + b && Held(s'.queues[id]) == a + [m] + b
      && s'.queues[id].name == q.name && s'.queues[id].priority == q.priority && s'.queues[id].durable
      && s'.queues[id].nextDurable == q.nextDurable + (if p.durable then 1 else 0)
      && s'.toPersis == s.toPersis + (if p.durable then [Store(q.name, q.nextDurable, p.priority, p.body)] else [])
      && m.durable == p.durable
      && (p.durable ==> m.durableIndex == q.nextDurable && m.body == p.body
                        && m.priority == Clamped(q.priority, p.priority))
  {
    var q := s.queues[id];
    var index := if p.durable then q.nextDurable else -1;
    m := Msg(s.nextAddr, p.body, p.priority, p.durable, index, -1, -1, 0, if p.durable then q.name else "");
    var counted := if p.durable then q.(nextDurable := index + 1) else q;
    AddInserts(counted, m);
    ClampIs(counted, m);
    if UsesHeap(counted, m) {
      a, b, m := q.heap, q.list, Clamp(counted, m);
    } else {
      a, b := Held(q), [];
      assert a + b == a;
    }
  }

  lemma StoredHere(s: State, p: Publication, id: QueueId)
    requires id in s.queues && s.queues[id].durable && Accounted(s, id)
    ensures id in StoreOne(s, p, id).queues && Accounted(StoreOne(s, p, id), id)
  {
    hide LogEvents, Balanced, Held, StoreOne;
    var a, b, m := StoredShape(s, p, id);
    var q := s.queues[id];
    var evs := LogEvents(s.toPersis, q.name);
    OneCommand(s.toPersis, Store(q.name, q.nextDurable, p.priority, p.body), q.name);
    if p.durable {
      BalancedStore(q.priority, q.nextDurable, a, b, s.needAck, evs, q.name, m, Record(q.nextDurable, p.priority, p.body));
    } else {
      BalancedLight(q.priority, q.nextDurable, a, b, s.needAck, evs, q.name, m);
    }
  }

  lemma ByItsName(s: State, id: QueueId, name: string)
    requires Registry(s) && id in s.queues
    ensures s.queues[id].name == name <==> FindQueue(s, name) == Some(id)
  {
    FoundByName(s, name);
    assert Registered(s, id);
    hide SoundQueue, BoundQueuesExist;
  }

  lemma StoredFrame(s: State, p: Publication, q: QueueId, name: string)
    requires q in s.queues
    ensures var s', queue := StoreOne(s, p, q), s.queues[q];
      && q in s'.queues && s'.queues[q].name == queue.name && s'.queues[q].durable == queue.durable
      && (forall i :: i in s.queues && i != q ==> i in s'.queues && s'.queues[i] == s.queues[i])
      && s'.needAck == s.needAck && FindQueue(s', name) == FindQueue(s, name)
      && s'.toPersis == s.toPersis
           + (if p.durable && queue.durable then [Store(queue.name, queue.nextDurable, p.priority, p.body)] else [])
  {
    hide UsesHeap, Clamp;
  }

  lemma StoredElsewhere(s: State, p: Publication, q: QueueId, name: string)
    requires Registry(s) && FindQueue(s, name) != Some(q)
    ensures Same(s, StoreOne(s, p, q), name)
  {
    if q in s.queues {
      ByItsName(s, q, name);
      StoredFrame(s, p, q, name);
      hide Registry, LogEvents, StoreOne, FindQueue;
      var queue := s.queues[q];
      OneCommand(s.toPersis, Store(queue.name, queue.nextDurable, p.priority, p.body), name);
    }
  }

  lemma StoredHereTracked(s: State, p: Publication, q: QueueId, name: string)
    requires q in s.queues && FindQueue(s, name) == Some(q)
    ensures Tracked(s, name) ==> Tracked(StoreOne(s, p, q), name)
  {
    hide StoreOne, Accounted, FindQueue;
    StoredFrame(s, p, q, name);
    if Tracked(s, name) && s.queues[q].durable {
      StoredHere(s, p, q);
    }
  }

  lemma StoredOneTracked(s: State, p: Publication, q: QueueId, name: string)
    requires Registry(s)
    ensures Tracked(s, name) ==> Tracked(StoreOne(s, p, q), name)
    ensures Unheard(s, name) ==> Unheard(StoreOne(s, p, q), name)
  {
    if q !in s.queues {
    } else if FindQueue(s, name) == Some(q) {
      StoredHereTracked(s, p, q, name);
      hide Tracked, StoreOne, Registry;
    } else {
      StoredElsewhere(s, p, q, name);
      hide StoreOne, Registry;
      SameKeeps(s, StoreOne(s, p, q), name);
    }
  }

  lemma {:induction false} StoredAllTracked(s: State, p: Publication, list: seq<QueueId>, name: string)
    requires Inv(s)
    ensures Tracked(s, name) ==> Tracked(StoreAll(s, p, list), name)
    ensures Unheard(s, name) ==> Unheard(StoreAll(s, p, list), name)
    decreases |list|
  {
    if list != [] {
      var front := list[..|list| - 1];
      StoredAllTracked(s, p, front, name);
      StoreAllKeeps(s, p, front);
      InvHasRegistry(StoreAll(s, p, front));
      StoredOneTracked(StoreAll(s, p, front), p, list[|list| - 1], name);
      hide Tracked, Unheard, Inv, StoreOne;
    }
  }

  lemma PublishShape(s: State, p: Publication, order: seq<string>)
    ensures var s', s1 := Publish(s, p, order), StoreAll(s, p, Targets(s, p, order));
      || s' == s.(toConnect := s'.toConnect, stored := s'.stored)
      || s' == s1.(toConnect := s'.toConnect, stored := s'.stored)
  {
    hide StoreAll, Targets, SeqKey, IsRepeat;
    var s' := Publish(s, p, order);
    hide Complaint;
    if IsRepeat(s, p) || Targets(s, p, order) == [] {
      assert s' == s.(toConnect := s'.toConnect, stored := s'.stored);
    }
  }

  lemma PublishedTracked(s: State, p: Publication, order: seq<string>, name: string)
    requires Inv(s)
    ensures Tracked(s, name) ==> Tracked(Publish(s, p, order), name)
    ensures Unheard(s, name) ==> Unheard(Publish(s, p, order), name)
  {
    hide Inv, StoreAll, Targets, Publish, Tracked, Unheard;
    var list := Targets(s, p, order);
    StoredAllTracked(s, p, list, name);
    PublishShape(s, p, order);
    NothingToldOnTheSide(s, Publish(s, p, order), name);
    NothingToldOnTheSide(StoreAll(s, p, list), Publish(s, p, order), name);
  }

  lemma NothingToldOnTheSide(s: State, s': State, name: string)
    ensures s' == s.(toConnect := s'.toConnect, stored := s'.stored) ==>
      (Tracked(s, name) ==> Tracked(s', name)) && (Unheard(s, name) ==> Unheard(s', name))
  {
    hide Balanced, LogEvents;
  }

  // ----------------------------------------------------------- handing out

  lemma PopSplits(q: Queue, push: bool, k: nat) returns (a: seq<Msg>, x: Msg, b: seq<Msg>)
    requires CanPop(q, push, k) && q.pushIndex >= -1
    ensures Held(q) == a + [x] + b && Held(Pop(q, push, k).0) == a + b && SameMark(x, Pop(q, push, k).1)
    ensures var q' := Pop(q, push, k).0;
      q'.name == q.name && q'.nextDurable == q.nextDurable && q'.priority == q.priority
  {
    var q' := Pop(q, push, k).0;
    if q.heap != [] {
      a, x, b := q.heap[..k], q.heap[k], q.heap[k + 1..] + q.list;
      assert q.heap == q.heap[..k] + [q.heap[k]] + q.heap[k + 1..];
    } else {
      a, x, b := [], q.list[0], q.list[1..];
    }
  }

  lemma ConsumeIsEat(cmds: seq<Command>, name: string, m: Msg)
    ensures LogEvents(cmds + (if m.durable then [Consume(name, m.durableIndex)] else []), name)
         == LogEvents(cmds, name) + EatIt(m)
    ensures forall n :: n != name ==>
      LogEvents(cmds + (if m.durable then [Consume(name, m.durableIndex)] else []), n) == LogEvents(cmds, n)
  {
    forall n
      ensures LogEvents(cmds + [Consume(name, m.durableIndex)], n)
           == LogEvents(cmds, n) + LogEvent(Consume(name, m.durableIndex), n)
      ensures LogEvents(cmds + [], n) == LogEvents(cmds, n)
    {
      OneCommand(cmds, Consume(name, m.durableIndex), n);
    }
  }

  /** A message leaves the queue itself. */
  lemma HandedHere(s: State, id: QueueId, push: bool, k: nat, m: Msg, level: int)
    requires id in s.queues && s.queues[id].durable && Accounted(s, id)
    requires CanPop(s.queues[id], push, k) && s.queues[id].pushIndex >= -1
    requires SameMark(Pop(s.queues[id], push, k).1, m)
    ensures Accounted(Hand(s.(queues := s.queues[id := Pop(s.queues[id], push, k).0]), s.queues[id].name, m, level), id)
  {
    hide LogEvents, Balanced, Held, CanPop, Pop;
    var q := s.queues[id];
    var q' := Pop(q, push, k).0;
    var a, x, b := PopSplits(q, push, k);
    TakenHere(s, id, q', a, x, b, m, level);
  }

  lemma TakenHere(s: State, id: QueueId, q': Queue, a: seq<Msg>, x: Msg, b: seq<Msg>, m: Msg, level: int)
    requires id in s.queues && Accounted(s, id) && SameMark(x, m)
    requires Held(s.queues[id]) == a + [x] + b && Held(q') == a + b
    requires var q := s.queues[id]; q'.name == q.name && q'.nextDurable == q.nextDurable && q'.priority == q.priority
    ensures Accounted(Hand(s.(queues := s.queues[id := q']), s.queues[id].name, m, level), id)
  {
    hide LogEvents, Balanced, Held;
    var q := s.queues[id];
    var evs := LogEvents(s.toPersis, q.name);
    if level > 0 {
      var m' := m.(confirm := level, seqNo := s.ackSeq, queueName := q.name);
      BalancedHand(q.priority, q.nextDurable, a, b, s.needAck, evs, q.name, x, m');
    } else {
      ConsumeIsEat(s.toPersis, q.name, m);
      BalancedEatHeld(q.priority, q.nextDurable, a, b, s.needAck, evs, q.name, x);
    }
  }

  /** Whatever the queue holds, if its account balanced before it does after. */
  ghost predicate Follows(s: State, s': State, name: string) {
    forall limit, next, held ::
      Balanced(limit, next, held, s.needAck, LogEvents(s.toPersis, name), name)
      ==> Balanced(limit, next, held, s'.needAck, LogEvents(s'.toPersis, name), name)
  }

  lemma FollowsKeeps(s: State, s': State, name: string)
    requires Follows(s, s', name) && FindQueue(s', name) == FindQueue(s, name)
    requires FindQueue(s, name).Some? ==>
      var id := FindQueue(s, name).value; id in s.queues ==> id in s'.queues && s'.queues[id] == s.queues[id]
    ensures Tracked(s, name) ==> Tracked(s', name)
  {
    hide Balanced, FindQueue, LogEvents;
  }

  lemma PendingOfOthers(s: State, s': State, name: string, c: seq<Msg>, m: Msg, d: seq<Msg>)
    requires m.queueName != name && LogEvents(s'.toPersis, name) == LogEvents(s.toPersis, name)
    requires (s.needAck == c + [m] + d && s'.needAck == c + d) || (s.needAck == c + d && s'.needAck == c + [m] + d)
    ensures Follows(s, s', name)
    ensures Unheard(s, name) && FindQueue(s', name).None? ==> Unheard(s', name)
  {
    InsertedElements(c, m, d);
    hide LogEvents, Balanced, FindQueue;
    forall limit, next, held
      ensures Balanced(limit, next, held, c + [m] + d, LogEvents(s.toPersis, name), name)
         <==> Balanced(limit, next, held, c + d, LogEvents(s.toPersis, name), name)
    {
      BalancedOthers(limit, next, held, c, d, LogEvents(s.toPersis, name), name, m);
    }
  }

  lemma FollowsItself(s: State, s': State, name: string)
    requires LogEvents(s'.toPersis, name) == LogEvents(s.toPersis, name) && s'.needAck == s.needAck
    ensures Follows(s, s', name)
    ensures Unheard(s, name) && FindQueue(s', name).None? ==> Unheard(s', name)
  {
    hide LogEvents, Balanced, FindQueue;
  }

  /** A message leaves another queue. */
  lemma HandedElsewhere(s: State, id: QueueId, q': Queue, m: Msg, level: int, name: string)
    requires id in s.queues && q'.name == s.queues[id].name
    requires s.queues[id].name != name && FindQueue(s, name) != Some(id)
    ensures var s' := Hand(s.(queues := s.queues[id := q']), s.queues[id].name, m, level);
      (Tracked(s, name) ==> Tracked(s', name)) && (Unheard(s, name) ==> Unheard(s', name))
  {
    hide LogEvents, Follows, Tracked, Unheard;
    ConsumeIsEat(s.toPersis, s.queues[id].name, m);
    var s' := Hand(s.(queues := s.queues[id := q']), s.queues[id].name, m, level);
    if level > 0 {
      var m' := m.(confirm := level, seqNo := s.ackSeq, queueName := s.queues[id].name);
      assert s.needAck + [m'] + [] == s.needAck + [m'] && s.needAck + [] == s.needAck;
      PendingOfOthers(s, s', name, s.needAck, m', []);
    } else {
      FollowsItself(s, s', name);
    }
    UnheardNone(s, name);
    FollowsKeeps(s, s', name);
  }

  lemma UnheardNone(s: State, name: string)
    ensures Unheard(s, name) ==> FindQueue(s, name).None?
  {
  }

  lemma HandedTracked(s: State, id: QueueId, push: bool, k: nat, m: Msg, level: int, name: string)
    requires Registry(s) && id in s.queues && CanPop(s.queues[id], push, k) && s.queues[id].pushIndex >= -1
    requires SameMark(Pop(s.queues[id], push, k).1, m)
    ensures var s' := Hand(s.(queues := s.queues[id := Pop(s.queues[id], push, k).0]), s.queues[id].name, m, level);
      (Tracked(s, name) ==> Tracked(s', name)) && (Unheard(s, name) ==> Unheard(s', name))
  {
    var q' := Pop(s.queues[id], push, k).0;
    assert q'.name == s.queues[id].name && q'.durable == s.queues[id].durable;
    ByItsName(s, id, name);
    hide Registry, CanPop, Pop, Balanced, LogEvents;
    if s.queues[id].name == name {
      if Tracked(s, name) && s.queues[id].durable {
        HandedHere(s, id, push, k, m, level);
        hide Accounted;
      }
    } else {
      HandedElsewhere(s, id, q', m, level, name);
    }
  }

  lemma PushedTracked(s: State, queue: string, top: nat, name: string)
    requires Inv(s)
    ensures Tracked(s, name) ==> Tracked(PushOne(s, queue, top), name)
    ensures Unheard(s, name) ==> Unheard(PushOne(s, queue, top), name)
  {
    InvHasRegistry(s);
    if queue in s.sub {
      FoundByName(s, queue);
      hide Inv, Registry, SoundQueue;
      var id := s.sub[queue];
      var q := s.queues[id];
      if CanPop(q, true, top) && q.pushIndex >= -1 {
        HandedTracked(s, id, true, top, Pop(q, true, top).1, q.confirm, name);
        hide Pop, Hand, Tracked, Unheard, CanPop;
      }
    }
  }

  lemma ReceivedTracked(s: State, client: int, queue: string, level: nat, top: nat, name: string)
    requires Inv(s)
    ensures Tracked(s, name) ==> Tracked(Recv(s, client, queue, level, top), name)
    ensures Unheard(s, name) ==> Unheard(Recv(s, client, queue, level, top), name)
  {
    InvHasRegistry(s);
    FoundByName(s, queue);
    hide Inv, Registry, SoundQueue;
    var found := FindQueue(s, queue);
    if found.Some? {
      var q := s.queues[found.value];
      if CanPop(q, false, top) && q.pushIndex >= -1 {
        HandedTracked(s, found.value, false, top, Pop(q, false, top).1.(client := client), level, name);
        hide Pop, Hand, Tracked, Unheard, CanPop, FindQueue;
      }
    }
  }

  lemma AckedHere(s: State, i: nat, s': State, name: string)
    requires i < |s.needAck| && s.needAck[i].queueName == name
    requires s'.needAck == s.needAck[..i] + s.needAck[i + 1..]
    requires LogEvents(s'.toPersis, name) == LogEvents(s.toPersis, name) + EatIt(s.needAck[i])
    ensures Follows(s, s', name)
  {
    var m, c, d := s.needAck[i], s.needAck[..i], s.needAck[i + 1..];
    assert s.needAck == c + [m] + d;
    var evs := LogEvents(s.toPersis, name);
    hide LogEvents, Balanced, EatIt;
    forall limit, next, held | Balanced(limit, next, held, c + [m] + d, evs, name)
      ensures Balanced(limit, next, held, c + d, evs + EatIt(m), name)
    {
      BalancedEatPending(limit, next, held, c, d, evs, name, m);
    }
  }

  lemma AckShape(s: State, seqNo: int) returns (i: nat)
    ensures i <= |s.needAck|
    ensures i == |s.needAck| ==> Ack(s, seqNo) == s
    ensures i < |s.needAck| ==> var m, s' := s.needAck[i], Ack(s, seqNo);
      && s'.needAck == s.needAck[..i] + s.needAck[i + 1..]
      && s'.toPersis == s.toPersis + (if m.durable then [Consume(m.queueName, m.durableIndex)] else [])
      && s'.queues == s.queues && s'.sub == s.sub && s'.unsub == s.unsub
  {
    hide Position;
    i := Position(s.needAck, seqNo);
  }

  lemma AckedTracked(s: State, seqNo: int, name: string)
    ensures Tracked(s, name) ==> Tracked(Ack(s, seqNo), name)
    ensures Unheard(s, name) ==> Unheard(Ack(s, seqNo), name)
  {
    hide LogEvents, Follows, Tracked, Unheard, Ack, EatIt;
    var s' := Ack(s, seqNo);
    var i := AckShape(s, seqNo);
    if i < |s.needAck| {
      var m := s.needAck[i];
      ConsumeIsEat(s.toPersis, m.queueName, m);
      UnheardMeans(s, name, i);
      if m.queueName == name {
        AckedHere(s, i, s', name);
      } else {
        assert s.needAck == s.needAck[..i] + [m] + s.needAck[i + 1..];
        PendingOfOthers(s, s', name, s.needAck[..i], m, s.needAck[i + 1..]);
      }
      FollowsKeeps(s, s', name);
    }
  }

  lemma UnheardMeans(s: State, name: string, i: nat)
    requires i < |s.needAck|
    ensures Unheard(s, name) ==> FindQueue(s, name).None? && s.needAck[i].queueName != name
  {
    hide FindQueue;
    assert s.needAck[i] in s.needAck;
  }

  // ------------------------------------------------------------ client exit

  /** A queue that is left stays as it is, changes its registry, or goes. */
  lemma LeftShape(s: State, client: int, queue: string)
    requires queue in s.sub && s.sub[queue] in s.queues && queue !in s.unsub
    ensures var s', id := ExitQueue(s, client, queue), s.sub[queue];
      && s'.needAck == s.needAck
      && (s'.toPersis == s.toPersis || s'.toPersis == s.toPersis + [RemoveQueue(queue)])
      && (forall n :: n != queue ==> FindQueue(s', n) == FindQueue(s, n))
      && (forall i :: i in s.queues && i != id ==> i in s'.queues && s'.queues[i] == s.queues[i])
      && (FindQueue(s', queue).None? ||
          (FindQueue(s', queue) == Some(id) && id in s'.queues && SameStock(s.queues[id], s'.queues[id])))
  {
    hide Remove, WithoutQueue, DropWaiting;
    assert s.toPersis + [] == s.toPersis;
  }

  lemma LeftTracked(s: State, client: int, queue: string, name: string)
    requires Inv(s)
    ensures Tracked(s, name) ==> Tracked(ExitQueue(s, client, queue), name)
    ensures Unheard(s, name) ==> Unheard(ExitQueue(s, client, queue), name)
  {
    if queue in s.sub {
      var s' := ExitQueue(s, client, queue);
      FoundByName(s, queue);
      FoundByName(s, name);
      assert Registered(s, s.sub[queue]);
      LeftShape(s, client, queue);
      OneCommand(s.toPersis, RemoveQueue(queue), name);
      hide Inv, Registry, LogEvents, SoundQueue, ExitQueue, Tracked, Unheard;
      assert queue != name ==> FindQueue(s, name) != Some(s.sub[queue]);
      hide FindQueue;
      if FindQueue(s', name).None? {
        GoneIsTracked(s', name);
        FollowsItself(s, s', name);
      } else {
        UnheardNone(s, name);
        LeftSame(s, s', name);
      }
    }
  }

  lemma LeftSame(s: State, s': State, name: string)
    requires s'.needAck == s.needAck && LogEvents(s'.toPersis, name) == LogEvents(s.toPersis, name)
    requires FindQueue(s', name) == FindQueue(s, name) && FindQueue(s, name).Some?
    requires var id := FindQueue(s, name).value;
      id in s.queues && id in s'.queues && SameStock(s.queues[id], s'.queues[id])
    ensures Tracked(s, name) ==> Tracked(s', name)
    ensures Unheard(s, name) ==> Unheard(s', name)
  {
    hide LogEvents, FindQueue, Tracked, Unheard;
    assert Same(s, s', name);
    SameKeeps(s, s', name);
  }

  lemma {:induction false} AllLeftTracked(s: State, client: int, order: seq<string>, name: string)
    requires Inv(s)
    ensures Tracked(s, name) ==> Tracked(ExitQueues(s, client, order), name)
    ensures Unheard(s, name) ==> Unheard(ExitQueues(s, client, order), name)
    decreases |order|
  {
    if order != [] {
      var front := order[..|order| - 1];
      AllLeftTracked(s, client, front, name);
      ExitQueuesKeeps(s, client, front);
      LeftTracked(ExitQueues(s, client, front), client, order[|order| - 1], name);
      hide Tracked, Unheard, Inv, ExitQueue;
    }
  }

  lemma GivenShape(s: State, m: Msg, ms: seq<Msg>, name: string)
    requires FindQueue(s, m.queueName).Some? ==> FindQueue(s, m.queueName).value in s.queues
    ensures var s' := GiveBack(s, m).(needAck := ms);
      && FindQueue(s', name) == FindQueue(s, name) && s'.toPersis == s.toPersis && s'.queues.Keys == s.queues.Keys
      && forall i :: i in s.queues ==> (
           && s'.queues[i].name == s.queues[i].name && s'.queues[i].durable == s.queues[i].durable
           && (FindQueue(s, m.queueName) != Some(i) ==> s'.queues[i] == s.queues[i]))
  {
    var id := FindQueue(s, m.queueName);
    if id.Some? {
      AddFrontKeeps(s.queues[id.value], m);
    }
    SameRegistries(s, GiveBack(s, m).(needAck := ms), name);
    hide AddFront, FindQueue;
  }

  lemma AddFrontKeeps(q: Queue, m: Msg)
    ensures AddFront(q, m).name == q.name && AddFront(q, m).durable == q.durable
  {
  }

  lemma SameRegistries(s: State, s': State, name: string)
    requires s'.sub == s.sub && s'.unsub == s.unsub
    ensures FindQueue(s', name) == FindQueue(s, name)
  {
  }

  lemma GivenHere(s: State, c: seq<Msg>, m: Msg, d: seq<Msg>)
    requires Registry(s) && s.needAck == c + [m] + d
    ensures Tracked(s, m.queueName) ==> Tracked(GiveBack(s, m).(needAck := c + d), m.queueName)
  {
    hide Registry, LogEvents, Balanced, SoundQueue, AddFront, GiveBack, FindQueue;
    FoundByName(s, m.queueName);
    GivenShape(s, m, c + d, m.queueName);
    var found := FindQueue(s, m.queueName);
    if Tracked(s, m.queueName) && found.Some? && s.queues[found.value].durable {
      ReturnedHere(s, c, m, d, found.value);
    }
    hide Accounted;
  }

  /** One pending message is put back, and leaves the pending list. */
  lemma GivenTracked(s: State, c: seq<Msg>, m: Msg, d: seq<Msg>, name: string)
    requires Registry(s) && s.needAck == c + [m] + d
    ensures var s' := GiveBack(s, m).(needAck := c + d);
      (Tracked(s, name) ==> Tracked(s', name)) && (Unheard(s, name) ==> Unheard(s', name))
  {
    hide Registry, LogEvents, SoundQueue, Follows, GiveBack, FindQueue, Tracked, Unheard;
    var s' := GiveBack(s, m).(needAck := c + d);
    FoundByName(s, m.queueName);
    FoundByName(s, name);
    GivenShape(s, m, c + d, name);
    assert s.needAck[|c|] == m;
    UnheardMeans(s, name, |c|);
    if m.queueName == name {
      GivenHere(s, c, m, d);
    } else {
      PendingOfOthers(s, s', name, c, m, d);
      FollowsKeeps(s, s', name);
    }
  }

  /** A durable message that was in the queue is not clamped any further. */
  lemma PendingIsClamped(q: Queue, c: seq<Msg>, m: Msg, d: seq<Msg>, evs: seq<R.Event>)
    requires Balanced(q.priority, q.nextDurable, Held(q), c + [m] + d, evs, q.name) && m.queueName == q.name
    ensures m.durable ==> Clamp(q, m) == m
  {
    BalancedElements(q.priority, q.nextDurable, Held(q), c + [m] + d, evs, q.name);
    hide Balanced, InOrder, Marks, Open, Published;
    assert m in c + [m] + d;
    assert Copies(m, q.priority, Published(evs));
  }

  lemma ReturnedHere(s: State, c: seq<Msg>, m: Msg, d: seq<Msg>, id: QueueId)
    requires id in s.queues && FindQueue(s, m.queueName) == Some(id) && s.queues[id].name == m.queueName
    requires s.needAck == c + [m] + d && Accounted(s, id)
    ensures Accounted(GiveBack(s, m).(needAck := c + d), id)
  {
    var q := s.queues[id];
    AddInserts(q, m);
    var m' := if UsesHeap(q, m) then Clamp(q, m) else m;
    var evs := LogEvents(s.toPersis, q.name);
    PendingIsClamped(q, c, m, d, evs);
    hide LogEvents, Balanced, Held;
    assert s.queues[id].heap + s.queues[id].list == Held(q) by {
      HeldIs(q);
    }
    BalancedReturn(q.priority, q.nextDurable, q.heap, q.list, c, d, evs, q.name, m, m');
  }

  lemma HeldIs(q: Queue)
    ensures Held(q) == q.heap + q.list
  {
  }

  /** The walk over the pending messages up to the n-th. */
  function GivenSoFar(s: State, client: int, n: nat): State
    requires n <= |s.needAck|
  {
    GiveBackAll(s, client, s.needAck[..n]).(needAck := Kept(s.needAck[..n], client) + s.needAck[n..])
  }

  lemma GivenSoFarRegistry(s: State, client: int, n: nat)
    requires Inv(s) && n <= |s.needAck|
    ensures Registry(GivenSoFar(s, client, n))
  {
    var ms := s.needAck;
    assert ms == ms[..n] + ms[n..];
    BagConcat(ms[..n], ms[n..]);
    hide Bag, Placed;
    GivenAllPlaced(s, client, ms[..n], Bag(ms[n..]));
    hide SoundQueue, GiveBackAll;
  }

  lemma GivenNext(s: State, client: int, n: nat)
    requires n < |s.needAck|
    ensures var ms, v := s.needAck, GivenSoFar(s, client, n); var k := Kept(ms[..n], client);
      && v.needAck == k + [ms[n]] + ms[n + 1..]
      && GivenSoFar(s, client, n + 1)
         == if ms[n].client == client then GiveBack(v, ms[n]).(needAck := k + ms[n + 1..]) else v
  {
    var ms, v := s.needAck, GivenSoFar(s, client, n);
    var k := Kept(ms[..n], client);
    NextPending(s, client, ms, n);
    assert ms[n..] == [ms[n]] + ms[n + 1..];
    assert k + ([ms[n]] + ms[n + 1..]) == k + [ms[n]] + ms[n + 1..];
    GiveBackIgnoresPending(GiveBackAll(s, client, ms[..n]), ms[n], v.needAck);
    hide GiveBack, GiveBackAll, Kept;
  }

  lemma {:induction false} GivenSoFarTracked(s: State, client: int, n: nat, name: string)
    requires Inv(s) && n <= |s.needAck|
    ensures Tracked(s, name) ==> Tracked(GivenSoFar(s, client, n), name)
    ensures Unheard(s, name) ==> Unheard(GivenSoFar(s, client, n), name)
  {
    if n == 0 {
      NothingGivenBack(s, client, s.needAck);
      assert GivenSoFar(s, client, 0) == s;
    } else {
      GivenSoFarTracked(s, client, n - 1, name);
      GivenNext(s, client, n - 1);
      GivenSoFarRegistry(s, client, n - 1);
      var m, v := s.needAck[n - 1], GivenSoFar(s, client, n - 1);
      hide Inv, Registry, Tracked, Unheard, GivenSoFar, GiveBack, Kept;
      if m.client == client {
        GivenTracked(v, Kept(s.needAck[..n - 1], client), m, s.needAck[n..], name);
      }
    }
  }

  lemma ExitTracked(s: State, client: int, order: seq<string>, name: string)
    requires Inv(s)
    ensures Tracked(s, name) ==> Tracked(ClientExit(s, client, order), name)
    ensures Unheard(s, name) ==> Unheard(ClientExit(s, client, order), name)
  {
    var s0 := s.(stored := Forget(s.stored, client));
    SameHere(s, s0);
    NothingToldOnTheSide(s, s0, name);
    hide Inv, Tracked, Unheard, ExitQueues, GiveBackAll, Kept, Forget;
    ExitQueuesKeeps(s0, client, order);
    AllLeftTracked(s0, client, order, name);
    var s1 := ExitQueues(s0, client, order);
    GivenSoFarTracked(s1, client, |s1.needAck|, name);
    assert s1.needAck[..|s1.needAck|] == s1.needAck && s1.needAck[|s1.needAck|..] == [];
    assert Kept(s1.needAck, client) + [] == Kept(s1.needAck, client);
  }

  // --------------------------------------------------------------- all runs

  /** The event creates a queue of that name that is not there yet. */
  predicate Creates(s: State, e: Event, name: string) {
    e.EvCreateQueue? && e.name == name && FindQueue(s, name).None?
  }

  lemma StepTracked(s: State, e: Event, name: string)
    requires Inv(s) && !Creates(s, e, name)
    ensures Tracked(s, name) ==> Tracked(Step(s, e), name)
    ensures Unheard(s, name) ==> Unheard(Step(s, e), name)
  {
    assert s.nextQueue !in s.queues by {
      InvHasRegistry(s);
      hide Inv;
    }
    hide Inv, Tracked, Unheard, Same;
    match e
    case EvCreateExchange(_, _, _, _) =>
      CreatedSame(s, e, name);
      SameKeeps(s, Step(s, e), name);
    case EvCreateQueue(_, _, _, _) =>
      NewQueueSame(s, e, name);
      SameKeeps(s, Step(s, e), name);
    case EvCreateBinding(_, _, _) =>
      CreatedSame(s, e, name);
      SameKeeps(s, Step(s, e), name);
    case EvSubscribe(client, queue, level) =>
      SubscribedSame(s, client, queue, level, name);
      SameKeeps(s, Step(s, e), name);
    case EvDeleteExchange(_) =>
      CreatedSame(s, e, name);
      SameKeeps(s, Step(s, e), name);
    case EvDeleteQueue(queue) => DeletedTracked(s, queue, name);
    case EvPublish(p, order) => PublishedTracked(s, p, order, name);
    case EvPush(queue, top) => PushedTracked(s, queue, top, name);
    case EvRecv(client, queue, level, top) => ReceivedTracked(s, client, queue, level, top, name);
    case EvAck(seqNo) => AckedTracked(s, seqNo, name);
    case EvExit(client, order) => ExitTracked(s, client, order, name);
  }

  /** How often a queue of that name was created. */
  function Creations(events: seq<Event>, name: string): nat {
    if events == [] then 0
    else
      var prev := events[..|events| - 1];
      Creations(prev, name) + (if Creates(Run(prev), events[|events| - 1], name) then 1 else 0)
  }

  lemma {:induction false} RunTracked(events: seq<Event>, name: string)
    ensures Creations(events, name) == 0 ==> Unheard(Run(events), name)
    ensures Creations(events, name) <= 1 ==> Tracked(Run(events), name)
    decreases |events|
  {
    if events != [] {
      var prev, e := events[..|events| - 1], events[|events| - 1];
      var s := Run(prev);
      RunTracked(prev, name);
      RunKeepsInv(prev);
      if Creates(s, e, name) {
        if Unheard(s, name) {
          NewQueueTracked(s, e, name);
        }
      } else {
        StepTracked(s, e, name);
      }
      hide Inv, Tracked, Unheard, Step;
    }
  }

  // --------------------------------------------------------------- the log

  /** A log that was told the same, with restarts of the persistence server in
      between. */
  function WithoutReboots(log: seq<R.Event>): seq<R.Event> {
    if log == [] then []
    else WithoutReboots(log[..|log| - 1]) + (if log[|log| - 1].Reboot? then [] else [log[|log| - 1]])
  }

  lemma {:induction false} RebootsTellNothing(log: seq<R.Event>)
    ensures Published(WithoutReboots(log)) == Published(log) && Eaten(WithoutReboots(log)) == Eaten(log)
    ensures InOrder(WithoutReboots(log)) <==> InOrder(log)
    decreases |log|
  {
    if log != [] {
      var front := log[..|log| - 1];
      RebootsTellNothing(front);
      assert Published(front) + [] == Published(front) && Eaten(front) + {} == Eaten(front);
      assert WithoutReboots(front) + [] == WithoutReboots(front);
      OneMoreEvent(WithoutReboots(log[..|log| - 1]), log[|log| - 1]);
    }
  }

  ghost predicate RebootsSeeDisk(queue: seq<byte>, log: seq<R.Event>)
    requires |queue| < MAX_NAME_LENGTH
  {
    forall i :: 0 <= i < |log| && log[i].Reboot? ==> Lists(log[i].names, R.After(queue, log[..i]).log.files.index.Keys)
  }

  predicate AllStorable(queue: seq<byte>, log: seq<R.Event>) {
    forall i :: 0 <= i < |log| && log[i].Write? ==> Storable(queue, log[i].r)
  }

  lemma {:induction false} HistoryOf(queue: seq<byte>, log: seq<R.Event>)
    requires |queue| < MAX_NAME_LENGTH
    ensures var h := R.After(queue, log); h.published == Published(log) && h.eaten == Eaten(log)
    ensures InOrder(log) ==> R.After(queue, log).next == |Published(log)|
    decreases |log|
  {
    hide Encode;
    if log != [] {
      HistoryOf(queue, log[..|log| - 1]);
    }
  }

  lemma {:induction false} OrderedIsLegal(queue: seq<byte>, log: seq<R.Event>)
    requires |queue| < MAX_NAME_LENGTH && InOrder(log) && AllStorable(queue, log) && RebootsSeeDisk(queue, log)
    ensures R.Legal(queue, log)
    decreases |log|
  {
    hide Storable, Encode;
    if log != [] {
      var prev := log[..|log| - 1];
      assert forall i :: 0 <= i < |prev| ==> prev[..i] == log[..i];
      OrderedIsLegal(queue, prev);
      HistoryOf(queue, prev);
      NumberedFromZero(prev);
      hide R.After, Lists;
      if log[|log| - 1].Eat? {
        assert Published(prev)[log[|log| - 1].i].index == log[|log| - 1].i;
      }
    }
  }

  // ------------------------------------------------------------ the result

  /** m is the broker's copy of record r. */
  predicate CopyOf(m: Msg, limit: int, r: Record) {
    m.durable && m.durableIndex == r.index && m.body == r.body && m.priority == Clamped(limit, r.priority)
  }

  /** The broker has the message: waiting in the queue, or pending from it. */
  predicate Has(s: State, id: QueueId, m: Msg)
    requires id in s.queues
  {
    m in Held(s.queues[id]) || (m in s.needAck && m.queueName == s.queues[id].name)
  }

  lemma {:induction false} MarkedMember(ms: seq<Msg>, all: bool, name: string, i: int) returns (k: nat)
    requires i in Marks(ms, all, name)
    ensures k < |ms| && Counts(ms[k], all, name) && ms[k].durableIndex == i
    decreases |ms|
  {
    var front, last := ms[..|ms| - 1], |ms| - 1;
    if i in Marks(front, all, name) {
      k := MarkedMember(front, all, name, i);
    } else {
      k := last;
    }
  }

  lemma {:induction false} MemberMarked(ms: seq<Msg>, all: bool, name: string, k: nat)
    requires k < |ms| && Counts(ms[k], all, name)
    ensures ms[k].durableIndex in Marks(ms, all, name)
    decreases |ms|
  {
    if k < |ms| - 1 {
      MemberMarked(ms[..|ms| - 1], all, name, k);
    }
  }

  lemma {:induction false} RemainingIsOpen(rs: seq<Record>, gone: set<int>, r: Record)
    requires forall k :: 0 <= k < |rs| ==> rs[k].index == k
    ensures r in Remaining(rs, gone) <==> 0 <= r.index < |rs| && r.index !in gone && r == rs[r.index]
    decreases |rs|
  {
    if rs != [] {
      RemainingIsOpen(rs[..|rs| - 1], gone, r);
    }
  }

  /** A balanced account, read message by message and record by record. */
  lemma AccountMeans(s: State, id: QueueId)
    requires id in s.queues && Accounted(s, id)
    ensures var q := s.queues[id]; var evs := LogEvents(s.toPersis, q.name);
      var out := Remaining(Published(evs), Eaten(evs));
      && (forall r :: r in out ==> exists m :: Has(s, id, m) && CopyOf(m, q.priority, r))
      && (forall m :: Has(s, id, m) && m.durable ==> exists r :: r in out && CopyOf(m, q.priority, r))
  {
    var q := s.queues[id];
    var evs := LogEvents(s.toPersis, q.name);
    var rs, held, pending := Published(evs), Held(q), s.needAck;
    var out := Remaining(rs, Eaten(evs));
    NumberedFromZero(evs);
    BalancedElements(q.priority, q.nextDurable, held, pending, evs, q.name);
    hide Balanced, InOrder, Published, Eaten, LogEvents, Marks, Remaining, Held;
    forall r | r in out
      ensures exists m :: Has(s, id, m) && CopyOf(m, q.priority, r)
    {
      RemainingIsOpen(rs, Eaten(evs), r);
      assert r.index in Marks(held, true, "") + Marks(pending, false, q.name);
      if r.index in Marks(held, true, "") {
        var k := MarkedMember(held, true, "", r.index);
        assert held[k] in held && Copies(held[k], q.priority, rs);
        assert Has(s, id, held[k]) && CopyOf(held[k], q.priority, r);
      } else {
        var k := MarkedMember(pending, false, q.name, r.index);
        assert pending[k] in pending && Copies(pending[k], q.priority, rs);
        assert Has(s, id, pending[k]) && CopyOf(pending[k], q.priority, r);
      }
    }
    forall m | Has(s, id, m) && m.durable
      ensures exists r :: r in out && CopyOf(m, q.priority, r)
    {
      if m in held {
        var k :| 0 <= k < |held| && held[k] == m;
        MemberMarked(held, true, "", k);
      } else {
        var k :| 0 <= k < |pending| && pending[k] == m;
        MemberMarked(pending, false, q.name, k);
      }
      assert m.durableIndex in multiset(Open(evs));
      RemainingIsOpen(rs, Eaten(evs), rs[m.durableIndex]);
      assert CopyOf(m, q.priority, rs[m.durableIndex]);
    }
  }

  /** The broker and its durable log, end to end. Take any run of the broker in
      which the durable queue was created once, and a log that was told what
      the broker sent about it, the persistence server having been restarted at
      any points in between. Then recovery rebuilds exactly the durable messages
      that the broker still has of the queue, waiting or pending: every record
      recovered is one of them, each of them is recovered, none twice; and new
      messages are numbered on from where the queue was. */
  lemma RecoveryIsWhatTheBrokerHas(events: seq<Event>, name: string, queue: seq<byte>, log: seq<R.Event>,
                                   names: seq<string>)
    requires |queue| < MAX_NAME_LENGTH && 0 !in queue
    requires Creations(events, name) == 1 && FindQueue(Run(events), name).Some?
    requires FindQueue(Run(events), name).value in Run(events).queues
    requires Run(events).queues[FindQueue(Run(events), name).value].durable
    requires WithoutReboots(log) == LogEvents(Run(events).toPersis, name)
    requires AllStorable(queue, log) && RebootsSeeDisk(queue, log)
    requires Lists(names, R.After(queue, log).log.files.index.Keys)
    ensures var s := Run(events); var id := FindQueue(s, name).value; var q := s.queues[id];
      var files := R.After(queue, log).log.files; var out := Remaining(Published(log), Eaten(log));
      && R.Recover(files, names) == CutAll(out)
      && (forall r :: r in out ==> exists m :: Has(s, id, m) && CopyOf(m, q.priority, r))
      && (forall m :: Has(s, id, m) && m.durable ==> exists r :: r in out && CopyOf(m, q.priority, r))
      && Marks(Held(q), true, "") + Marks(s.needAck, false, name) == multiset(Open(log))
      && (q.nextDurable > 0 ==> R.NextIndex(files) == Some(q.nextDurable))
  {
    hide Run, R.Recover, R.NextIndex, R.After, Lists, LogEvents, Creations;
    var s := Run(events);
    var id := FindQueue(s, name).value;
    RunTracked(events, name);
    AccountMeans(s, id);
    hide Remaining, CutAll, Held, Marks, FindQueue, Has, CopyOf;
    RebootsTellNothing(log);
    hide WithoutReboots, InOrder;
    NumberedFromZero(log);
    OrderedIsLegal(queue, log);
    HistoryOf(queue, log);
    R.RecoveryIsPublishedMinusConsumed(queue, log, names);
  }
}
