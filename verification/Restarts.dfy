/** Broker, log and recovery over many lives of the broker: it is started again
    and again, each time with the queues that recovery rebuilds. */
module Restarts {
  import opened Bytes
  import opened CommonDefs
  import opened FileNames
  import opened Records
  import opened MessageQueues
  import opened Exchanges
  import opened Broker
  import opened BrokerInvariant
  import opened Ledgers
  import opened Durability
  import R = Recovery

  // ----------------------------------------------------- starting the broker

  /** What the files say about a durable queue: its definition, its subscribers
      and their confirm level, and what recovery finds in its log. */
  datatype Revival = Revival(name: string, priority: int, autoDel: bool, subs: seq<int>, confirm: nat,
                             next: nat, records: seq<Record>)

  /** The memory of the old process is gone; histories go on. */
  function Emptied(s: State): State {
    State(map[], s.nextQueue, map[], map[], map[], [], 0, {}, s.nextAddr,
          map a | a in s.place :: if Watched(s.place[a]) then Dropped else s.place[a],
          s.toConnect, s.toPersis + [Booted])
  }

  /** The loop of ProcessDurableMsgFile adds one message. */
  function ReviveOne(s: State, id: QueueId, r: Record): State {
    if id !in s.queues then s
    else
      var m := Msg(s.nextAddr, r.body, r.priority, true, r.index, -1, -1, 0, "");
      s.(queues := s.queues[id := Add(s.queues[id], m)],
         place := s.place[s.nextAddr := Waiting(id)], nextAddr := s.nextAddr + 1)
  }

  function ReviveAll(s: State, id: QueueId, rs: seq<Record>): State {
    if rs == [] then s else ReviveOne(ReviveAll(s, id, rs[..|rs| - 1]), id, rs[|rs| - 1])
  }

  function SubscribeAll(s: State, name: string, subs: seq<int>, level: nat): State {
    if subs == [] then s
    else CreateSubscribe(SubscribeAll(s, name, subs[..|subs| - 1], level), subs[|subs| - 1], name, level)
  }

  function Definition(v: Revival): Queue {
    NewQueue(v.name, v.priority, true, v.autoDel).(nextDurable := v.next)
  }

  /** OnInitQueue and OnInitMsg for one queue. */
  function Revive(s: State, v: Revival): State {
    if v.name in s.unsub || v.name in s.sub then s
    else
      ReviveAll(SubscribeAll(WithNewQueue(s, Definition(v)), v.name, v.subs, v.confirm), s.nextQueue, v.records)
  }

  function ReviveQueues(s: State, vs: seq<Revival>): State {
    if vs == [] then s else Revive(ReviveQueues(s, vs[..|vs| - 1]), vs[|vs| - 1])
  }

  /** OnInit; exchanges and bindings are made again by requests that follow. */
  function Boot(s: State, vs: seq<Revival>): State {
    ReviveQueues(Emptied(s), vs)
  }

  /** A request, or the broker is started again. */
  datatype Act = Do(e: Event) | Start(vs: seq<Revival>)

  function Live(acts: seq<Act>): State {
    if acts == [] then INITIAL
    else
      var s := Live(acts[..|acts| - 1]);
      match acts[|acts| - 1]
      case Do(e) => Step(s, e)
      case Start(vs) => Boot(s, vs)
  }

  // ------------------------------------------------------------ the invariant

  lemma EmptiedKeeps(s: State)
    requires Inv(s)
    ensures Inv(Emptied(s))
  {
    hide Registry, Numbered;
    var s' := Emptied(s);
    assert Bag([]) == multiset{};
    hide Bag;
    forall p | Watched(p)
      ensures Stock(s'.queues, multiset{}, p) == multiset(At(s'.place, p))
    {
      assert At(s'.place, p) == {};
    }
    EmptiedRegistry(s);
  }

  lemma EmptiedRegistry(s: State)
    ensures Registry(Emptied(s)) && Numbered(Emptied(s))
  {
  }

  lemma RevivedRegistry(s: State, id: QueueId, r: Record)
    requires Registry(s)
    ensures Registry(ReviveOne(s, id, r))
  {
    hide Registry, SoundQueue;
    var s' := ReviveOne(s, id, r);
    if id in s.queues {
      OtherNames(s, id);
      QueueSound(s, id);
      var m := Msg(s.nextAddr, r.body, r.priority, true, r.index, -1, -1, 0, "");
      AddKeepsSound(s.queues[id], m);
      hide Add;
      QueueChanged(s, s', id);
    }
  }

  lemma QueueSound(s: State, id: QueueId)
    requires Registry(s) && id in s.queues
    ensures SoundQueue(s.queues[id])
  {
    hide SoundQueue, BoundQueuesExist;
  }

  lemma RevivedPlaced(s: State, pending: multiset<nat>, id: QueueId, r: Record)
    requires Placed(s, pending)
    ensures Placed(ReviveOne(s, id, r), pending)
  {
    if id in s.queues {
      var m := Msg(s.nextAddr, r.body, r.priority, true, r.index, -1, -1, 0, "");
      AddHolds(s.queues[id], m);
      hide Bag, Held, Add;
      assert s.nextAddr !in s.place;
      Moved(s, pending, ReviveOne(s, id, r), pending, s.nextAddr, Waiting(id));
    }
  }

  lemma RevivedFrame(s: State, id: QueueId, r: Record)
    ensures var s' := ReviveOne(s, id, r);
      && s'.needAck == s.needAck && s'.ackSeq == s.ackSeq && s'.toPersis == s.toPersis
      && s'.sub == s.sub && s'.unsub == s.unsub && s'.queues.Keys == s.queues.Keys
      && (forall i :: i in s.queues && i != id ==> s'.queues[i] == s.queues[i])
  {
    hide Add;
  }

  lemma {:induction false} ReviveAllKeeps(s: State, id: QueueId, rs: seq<Record>)
    requires Inv(s)
    ensures Inv(ReviveAll(s, id, rs)) && ReviveAll(s, id, rs).needAck == s.needAck
    decreases |rs|
  {
    hide Registry, Placed, Bag, Numbered, ReviveOne;
    if rs != [] {
      var front, r := rs[..|rs| - 1], rs[|rs| - 1];
      ReviveAllKeeps(s, id, front);
      var s1 := ReviveAll(s, id, front);
      RevivedRegistry(s1, id, r);
      RevivedPlaced(s1, Bag(s.needAck), id, r);
      RevivedFrame(s1, id, r);
      NumberedSame(s1, ReviveOne(s1, id, r));
    }
  }

  lemma {:induction false} SubscribeAllKeeps(s: State, name: string, subs: seq<int>, level: nat)
    requires Inv(s)
    ensures Inv(SubscribeAll(s, name, subs, level))
    decreases |subs|
  {
    hide Inv, CreateSubscribe;
    if subs != [] {
      SubscribeAllKeeps(s, name, subs[..|subs| - 1], level);
      SubscribeKeeps(SubscribeAll(s, name, subs[..|subs| - 1], level), subs[|subs| - 1], name, level);
    }
  }

  lemma DefinitionIsSound(v: Revival)
    ensures SoundQueue(Definition(v)) && Held(Definition(v)) == [] && Definition(v).subs == []
    ensures Definition(v).name == v.name
  {
  }

  lemma ReviveKeeps(s: State, v: Revival)
    requires Inv(s)
    ensures Inv(Revive(s, v))
  {
    hide Inv, SoundQueue, Held, Definition, WithNewQueue, SubscribeAll, ReviveAll;
    if v.name !in s.unsub && v.name !in s.sub {
      DefinitionIsSound(v);
      WithNewQueueKeeps(s, Definition(v));
      var s1 := WithNewQueue(s, Definition(v));
      SubscribeAllKeeps(s1, v.name, v.subs, v.confirm);
      ReviveAllKeeps(SubscribeAll(s1, v.name, v.subs, v.confirm), s.nextQueue, v.records);
    }
  }

  lemma {:induction false} ReviveQueuesKeeps(s: State, vs: seq<Revival>)
    requires Inv(s)
    ensures Inv(ReviveQueues(s, vs))
    decreases |vs|
  {
    hide Inv, Revive;
    if vs != [] {
      ReviveQueuesKeeps(s, vs[..|vs| - 1]);
      ReviveKeeps(ReviveQueues(s, vs[..|vs| - 1]), vs[|vs| - 1]);
    }
  }

  /** Starting the broker again keeps the invariant of its runs, whatever queues
      are found: so do all its lives. */
  lemma {:induction false} LiveKeepsInv(acts: seq<Act>)
    ensures Inv(Live(acts))
    decreases |acts|
  {
    hide Inv, Step, Boot;
    if acts == [] {
      InitiallyPlaced();
    } else {
      var s := Live(acts[..|acts| - 1]);
      LiveKeepsInv(acts[..|acts| - 1]);
      match acts[|acts| - 1]
      case Do(e) => StepKeeps(s, e);
      case Start(vs) => BootKeeps(s, vs);
    }
  }

  lemma BootKeeps(s: State, vs: seq<Revival>)
    requires Inv(s)
    ensures Inv(Boot(s, vs))
  {
    hide Inv, Emptied, ReviveQueues;
    EmptiedKeeps(s);
    ReviveQueuesKeeps(Emptied(s), vs);
  }

  // ------------------------------------------- what the log was really told

  /** Everything sent to the log of a queue, in all lives. */
  function Told(cmds: seq<Command>, name: string): seq<R.Event> {
    if cmds == [] then [] else Told(cmds[..|cmds| - 1], name) + LogEvent(cmds[|cmds| - 1], name)
  }

  /** The same but for what follows the first NUL of a body. */
  predicate Alike(e: R.Event, f: R.Event) {
    match e
    case Write(r) => f.Write? && f.r.index == r.index && f.r.priority == r.priority && Cut(f.r) == Cut(r)
    case _ => f == e
  }

  predicate AllAlike(evs: seq<R.Event>, told: seq<R.Event>) {
    |evs| == |told| && forall i :: 0 <= i < |evs| ==> Alike(evs[i], told[i])
  }

  lemma CutTwice(r: Record)
    ensures Cut(Cut(r)) == Cut(r)
  {
    CStringReadsBack(CString(r.body), []);
    assert CString(r.body) + [] == CString(r.body);
  }

  lemma CutEventsAlike(evs: seq<R.Event>, told: seq<R.Event>)
    requires AllAlike(evs, told)
    ensures AllAlike(CutEvents(evs), told)
  {
    hide Cut;
    forall i | 0 <= i < |evs|
      ensures Alike(CutEvents(evs)[i], told[i])
    {
      if evs[i].Write? {
        CutTwice(evs[i].r);
        CutKeepsNumber(evs[i].r);
      }
    }
  }

  lemma CutKeepsNumber(r: Record)
    ensures Cut(r).index == r.index && Cut(r).priority == r.priority
  {
  }

  /** What the broker remembers is what it told, but for cut bodies. */
  lemma {:induction false} RemembersTold(cmds: seq<Command>, name: string)
    ensures AllAlike(LogEvents(cmds, name), Told(cmds, name))
    decreases |cmds|
  {
    if cmds != [] {
      hide Cut, CutEvents;
      var front, last := cmds[..|cmds| - 1], cmds[|cmds| - 1];
      RemembersTold(front, name);
      if last.Booted? {
        assert Told(front, name) + [] == Told(front, name);
        hide AllAlike;
        CutEventsAlike(LogEvents(front, name), Told(front, name));
      }
    }
  }

  lemma AlikeFront(evs: seq<R.Event>, told: seq<R.Event>)
    requires AllAlike(evs, told) && evs != []
    ensures told != [] && AllAlike(evs[..|evs| - 1], told[..|told| - 1]) && Alike(evs[|evs| - 1], told[|told| - 1])
  {
    hide Alike;
  }

  /** So both say the same of what is open, and recovery finds the same. */
  lemma {:induction false} AlikeMeans(evs: seq<R.Event>, told: seq<R.Event>)
    requires AllAlike(evs, told)
    ensures |Published(told)| == |Published(evs)| && CutAll(Published(told)) == CutAll(Published(evs))
    ensures Eaten(told) == Eaten(evs) && (InOrder(told) <==> InOrder(evs))
    decreases |evs|
  {
    hide Cut;
    if evs != [] {
      hide AllAlike;
      var e, f := evs[|evs| - 1], told[|told| - 1];
      var front, back := evs[..|evs| - 1], told[..|told| - 1];
      AlikeFront(evs, told);
      AlikeMeans(front, back);
      assert front + [e] == evs && back + [f] == told;
      OneMoreEvent(front, e);
      OneMoreEvent(back, f);
      hide InOrder, Published, Eaten;
      match e
      case Write(r) =>
        CutAllMore(Published(front), r);
        CutAllMore(Published(back), f.r);
      case _ =>
        assert Published(front) + [] == Published(front) && Published(back) + [] == Published(back);
    } else {
      assert told == [];
    }
  }

  lemma CutAllMore(rs: seq<Record>, r: Record)
    ensures CutAll(rs + [r]) == CutAll(rs) + [Cut(r)]
  {
    hide Cut;
  }

  lemma {:induction false} RemainingCut(rs: seq<Record>, gone: set<int>)
    ensures CutAll(Remaining(rs, gone)) == Remaining(CutAll(rs), gone)
    decreases |rs|
  {
    hide Cut;
    if rs == [] {
      assert CutAll([]) == [] && Remaining([], gone) == [];
    } else {
      var front, last := rs[..|rs| - 1], rs[|rs| - 1];
      RemainingCut(front, gone);
      CutKeepsNumber(last);
      assert rs == front + [last];
      CutAllMore(front, last);
      assert CutAll(rs)[..|rs| - 1] == CutAll(front) && CutAll(rs)[|rs| - 1] == Cut(last);
      hide CutAll;
      CutAllMore(Remaining(front, gone), last);
      assert Remaining(front, gone) + [] == Remaining(front, gone);
      assert Remaining(CutAll(front), gone) + [] == Remaining(CutAll(front), gone);
    }
  }

  lemma CutEventsPublish(evs: seq<R.Event>)
    ensures Published(CutEvents(evs)) == CutAll(Published(evs)) && Eaten(CutEvents(evs)) == Eaten(evs)
    ensures InOrder(CutEvents(evs)) <==> InOrder(evs)
    decreases |evs|
  {
    hide Cut;
    if evs == [] {
      assert CutEvents(evs) == [] && CutAll([]) == [];
    } else {
      var front, e := evs[..|evs| - 1], evs[|evs| - 1];
      var c := CutEvents(evs)[|evs| - 1];
      CutEventsPublish(front);
      assert evs == front + [e] && CutEvents(evs) == CutEvents(front) + [c];
      OneMoreEvent(front, e);
      OneMoreEvent(CutEvents(front), c);
      hide InOrder, Published, Eaten;
      match e
      case Write(r) =>
        CutKeepsNumber(r);
        CutAllMore(Published(front), r);
      case _ =>
        assert Published(front) + [] == Published(front);
        assert CutAll(Published(front)) + [] == CutAll(Published(front));
    }
  }

  // ---------------------------------------------------- the revived queue

  /** The indices of the records. */
  function Indices(rs: seq<Record>): multiset<int> {
    if rs == [] then multiset{} else Indices(rs[..|rs| - 1]) + multiset{rs[|rs| - 1].index}
  }

  /** The message came from one of the records. */
  predicate CameFrom(m: Msg, limit: int, rs: seq<Record>) {
    exists k :: 0 <= k < |rs| && CopyOf(m, limit, rs[k])
  }

  /** The queue holds the messages of the records, each once. */
  ghost predicate HoldsRecords(q: Queue, rs: seq<Record>) {
    && Marks(Held(q), true, "") == Indices(rs)
    && forall m :: m in Held(q) ==> CameFrom(m, q.priority, rs)
  }

  lemma CameFromMore(m: Msg, limit: int, rs: seq<Record>)
    requires rs != [] && CameFrom(m, limit, rs[..|rs| - 1])
    ensures CameFrom(m, limit, rs)
  {
    hide CopyOf;
    var k :| 0 <= k < |rs| - 1 && CopyOf(m, limit, rs[..|rs| - 1][k]);
    assert rs[k] == rs[..|rs| - 1][k];
  }

  /** One message more at the end of heap or list. */
  lemma RevivedShape(q: Queue, m: Msg) returns (a: seq<Msg>, m': Msg, b: seq<Msg>)
    ensures Held(q) == a + b && Held(Add(q, m)) == a + [m'] + b
    ensures m' == m.(priority := m'.priority) && m'.priority == Clamped(q.priority, m.priority)
    ensures SameStock(Add(q, m), q.(heap := Add(q, m).heap, list := Add(q, m).list))
  {
    AddInserts(q, m);
    ClampIs(q, m);
    if UsesHeap(q, m) {
      a, m', b := q.heap, Clamp(q, m), q.list;
    } else {
      a, m', b := Held(q), m, [];
      assert a + b == a;
    }
  }

  lemma OneRevived(q: Queue, rs: seq<Record>, addr: nat)
    requires rs != [] && HoldsRecords(q, rs[..|rs| - 1])
    ensures var r := rs[|rs| - 1];
      HoldsRecords(Add(q, Msg(addr, r.body, r.priority, true, r.index, -1, -1, 0, "")), rs)
  {
    var r := rs[|rs| - 1];
    var m := Msg(addr, r.body, r.priority, true, r.index, -1, -1, 0, "");
    var a, m', b := RevivedShape(q, m);
    MarksInsert(a, m', b, true, "");
    InsertedElements(a, m', b);
    assert CopyOf(m', q.priority, rs[|rs| - 1]);
    hide Marks, Held, Add, CameFrom, CopyOf;
    forall x | x in a + b
      ensures CameFrom(x, q.priority, rs)
    {
      CameFromMore(x, q.priority, rs);
    }
    assert CameFrom(m', q.priority, rs) by {
      CameFromLast(m', q.priority, rs);
    }
    AddKeepsLimit(q, m);
  }

  lemma AddKeepsLimit(q: Queue, m: Msg)
    ensures var q' := Add(q, m);
      q'.name == q.name && q'.priority == q.priority && q'.durable == q.durable && q'.nextDurable == q.nextDurable
  {
  }

  lemma CameFromLast(m: Msg, limit: int, rs: seq<Record>)
    requires rs != [] && CopyOf(m, limit, rs[|rs| - 1])
    ensures CameFrom(m, limit, rs)
  {
    hide CopyOf;
  }

  /** The queue of that name is there, durable, with this limit and next index. */
  ghost predicate Stands(s: State, id: QueueId, name: string, limit: int, next: int) {
    && FindQueue(s, name) == Some(id) && id in s.queues
    && s.queues[id].name == name && s.queues[id].durable
    && s.queues[id].priority == limit && s.queues[id].nextDurable == next
  }

  lemma {:induction false} AllRevived(s: State, id: QueueId, rs: seq<Record>, name: string, limit: int, next: int)
    requires Stands(s, id, name, limit, next) && HoldsRecords(s.queues[id], [])
    ensures var s' := ReviveAll(s, id, rs);
      && Stands(s', id, name, limit, next) && HoldsRecords(s'.queues[id], rs)
      && s'.needAck == s.needAck && s'.toPersis == s.toPersis
    decreases |rs|
  {
    if rs != [] {
      hide HoldsRecords, Add;
      var front, r := rs[..|rs| - 1], rs[|rs| - 1];
      AllRevived(s, id, front, name, limit, next);
      var s1 := ReviveAll(s, id, front);
      OneRevived(s1.queues[id], rs, s1.nextAddr);
      AddKeepsLimit(s1.queues[id], Msg(s1.nextAddr, r.body, r.priority, true, r.index, -1, -1, 0, ""));
      RevivedFrame(s1, id, r);
    }
  }

  lemma {:induction false} AllSubscribed(s: State, id: QueueId, subs: seq<int>, level: nat, name: string, limit: int,
                                         next: int)
    requires Inv(s) && Stands(s, id, name, limit, next)
    ensures var s' := SubscribeAll(s, name, subs, level);
      && Stands(s', id, name, limit, next) && Held(s'.queues[id]) == Held(s.queues[id])
      && s'.needAck == s.needAck && s'.toPersis == s.toPersis
    decreases |subs|
  {
    if subs != [] {
      hide Inv;
      AllSubscribed(s, id, subs[..|subs| - 1], level, name, limit, next);
      hide SubscribeAll;
      OneSubscribed(SubscribeAll(s, name, subs[..|subs| - 1], level), id, subs[|subs| - 1], level, name, limit, next);
      SubscribedMore(s, name, subs, level);
    }
  }

  lemma SubscribedMore(s: State, name: string, subs: seq<int>, level: nat)
    requires subs != []
    ensures SubscribeAll(s, name, subs, level)
         == CreateSubscribe(SubscribeAll(s, name, subs[..|subs| - 1], level), subs[|subs| - 1], name, level)
  {
  }

  lemma OneSubscribed(s: State, id: QueueId, client: int, level: nat, name: string, limit: int, next: int)
    requires Stands(s, id, name, limit, next)
    ensures var s' := CreateSubscribe(s, client, name, level);
      && Stands(s', id, name, limit, next) && Held(s'.queues[id]) == Held(s.queues[id])
      && s'.needAck == s.needAck && s'.toPersis == s.toPersis
  {
  }

  /** What recovery found is what is open, with bodies as recovery cuts them. */
  ghost predicate Found(v: Revival, evs: seq<R.Event>) {
    && InOrder(evs) && v.next == |Published(evs)|
    && v.records == Remaining(Published(evs), Eaten(evs))
  }

  /** The numbers below n that are not gone. */
  function OpenBelow(n: nat, gone: set<int>): set<int> {
    set i | 0 <= i < n && i !in gone
  }

  lemma OpenBelowMore(n: nat, gone: set<int>)
    ensures n in gone ==> OpenBelow(n + 1, gone) == OpenBelow(n, gone)
    ensures n !in gone ==> multiset(OpenBelow(n + 1, gone)) == multiset(OpenBelow(n, gone)) + multiset{n}
  {
    if n !in gone {
      assert OpenBelow(n + 1, gone) == OpenBelow(n, gone) + {n} && n !in OpenBelow(n, gone);
    } else {
      assert OpenBelow(n + 1, gone) == OpenBelow(n, gone);
    }
  }

  lemma {:induction false} IndicesOpen(rs: seq<Record>, gone: set<int>)
    requires forall k :: 0 <= k < |rs| ==> rs[k].index == k
    ensures Indices(Remaining(rs, gone)) == multiset(OpenBelow(|rs|, gone))
    decreases |rs|
  {
    if rs == [] {
      assert OpenBelow(0, gone) == {};
    } else {
      hide OpenBelow, Indices;
      var front, last := rs[..|rs| - 1], rs[|rs| - 1];
      IndicesOpen(front, gone);
      OpenBelowMore(|front|, gone);
      IndicesMore(Remaining(front, gone), last);
      assert Remaining(front, gone) + [] == Remaining(front, gone);
    }
  }

  lemma IndicesMore(rs: seq<Record>, r: Record)
    ensures Indices(rs + [r]) == Indices(rs) + multiset{r.index}
  {
    assert (rs + [r])[..|rs|] == rs;
  }

  /** The account of a queue that was just revived balances. */
  lemma RevivedBalanced(q: Queue, evs: seq<R.Event>, v: Revival)
    requires Found(v, evs) && HoldsRecords(q, v.records) && q.nextDurable == v.next
    ensures Balanced(q.priority, q.nextDurable, Held(q), [], evs, q.name)
  {
    var rs, gone := Published(evs), Eaten(evs);
    NumberedFromZero(evs);
    IndicesOpen(rs, gone);
    BalancedElements(q.priority, q.nextDurable, Held(q), [], evs, q.name);
    assert Marks([], false, q.name) == multiset{};
    hide Balanced, InOrder, Published, Eaten, Marks, Held, Indices, Remaining;
    forall m | m in Held(q)
      ensures Copies(m, q.priority, rs)
    {
      var k :| 0 <= k < |v.records| && CopyOf(m, q.priority, v.records[k]);
      assert v.records[k] in Remaining(rs, gone);
      RemainingIsOpen(rs, gone, v.records[k]);
    }
  }

  lemma DefinitionHolds(v: Revival)
    ensures HoldsRecords(Definition(v), []) && Held(Definition(v)) == []
  {
    assert Marks([], true, "") == multiset{};
  }

  lemma HoldsNothing(q: Queue)
    requires Held(q) == []
    ensures HoldsRecords(q, [])
  {
    assert Marks([], true, "") == multiset{};
  }

  /** Reviving the queue makes its account balance. */
  lemma RevivedTracked(s: State, v: Revival)
    requires Inv(s) && s.needAck == [] && FindQueue(s, v.name).None? && Found(v, LogEvents(s.toPersis, v.name))
    ensures Tracked(Revive(s, v), v.name) && WasThere(Revive(s, v), v.name)
  {
    hide Inv, LogEvents, Found, HoldsRecords, ReviveAll, SubscribeAll, Balanced, Held;
    var id, q := s.nextQueue, Definition(v);
    assert Stands(WithNewQueue(s, q), id, v.name, v.priority, v.next);
    DefinitionIsSound(v);
    DefinitionHolds(v);
    WithNewQueueKeeps(s, q);
    var s1 := WithNewQueue(s, q);
    hide Stands, Definition, WithNewQueue;
    SameHistory(s, q);
    AllSubscribed(s1, id, v.subs, v.confirm, v.name, v.priority, v.next);
    var s2 := SubscribeAll(s1, v.name, v.subs, v.confirm);
    NewOneStands(s, v);
    StandsMeans(s2, id, v.name, v.priority, v.next);
    HoldsNothing(s2.queues[id]);
    AllRevived(s2, id, v.records, v.name, v.priority, v.next);
    var s3 := ReviveAll(s2, id, v.records);
    StandsMeans(s3, id, v.name, v.priority, v.next);
    RevivedBalanced(s3.queues[id], LogEvents(s.toPersis, v.name), v);
  }

  lemma NewOneStands(s: State, v: Revival)
    ensures s.nextQueue in WithNewQueue(s, Definition(v)).queues
    ensures WithNewQueue(s, Definition(v)).queues[s.nextQueue] == Definition(v)
  {
  }

  lemma SameHistory(s: State, q: Queue)
    ensures WithNewQueue(s, q).needAck == s.needAck && WithNewQueue(s, q).toPersis == s.toPersis
  {
  }

  lemma StandsMeans(s: State, id: QueueId, name: string, limit: int, next: int)
    requires Stands(s, id, name, limit, next)
    ensures FindQueue(s, name) == Some(id) && id in s.queues && s.queues[id].name == name
    ensures s.queues[id].priority == limit && s.queues[id].nextDurable == next && s.queues[id].durable
  {
  }

  // ------------------------------------------------------- reviving others

  lemma {:induction false} OthersRevived(s: State, id: QueueId, rs: seq<Record>, name: string)
    requires FindQueue(s, name) != Some(id)
    ensures Same(s, ReviveAll(s, id, rs), name)
    decreases |rs|
  {
    hide LogEvents;
    if rs != [] {
      hide ReviveOne;
      OthersRevived(s, id, rs[..|rs| - 1], name);
      RevivedFrame(ReviveAll(s, id, rs[..|rs| - 1]), id, rs[|rs| - 1]);
    }
  }

  lemma SameTwice(s: State, s1: State, s2: State, name: string)
    requires Same(s, s1, name) && Same(s1, s2, name)
    ensures Same(s, s2, name)
  {
    hide LogEvents, FindQueue;
  }

  lemma {:induction false} OthersSubscribed(s: State, queue: string, subs: seq<int>, level: nat, name: string)
    ensures Same(s, SubscribeAll(s, queue, subs, level), name)
    decreases |subs|
  {
    if subs == [] {
      hide LogEvents;
    } else {
      hide Same, CreateSubscribe;
      var s1 := SubscribeAll(s, queue, subs[..|subs| - 1], level);
      OthersSubscribed(s, queue, subs[..|subs| - 1], level, name);
      SubscribedSame(s1, subs[|subs| - 1], queue, level, name);
      SameTwice(s, s1, SubscribeAll(s, queue, subs, level), name);
    }
  }

  lemma OtherNew(s: State, q: Queue, name: string)
    requires q.name != name && s.nextQueue !in s.queues
    requires FindQueue(s, name).Some? ==> FindQueue(s, name).value in s.queues
    ensures Same(s, WithNewQueue(s, q), name) && FindQueue(WithNewQueue(s, q), name) != Some(s.nextQueue)
  {
    hide LogEvents;
  }

  lemma OtherRevived(s: State, v: Revival, name: string)
    requires Inv(s) && v.name != name
    ensures Same(s, Revive(s, v), name)
  {
    hide Registry, Placed, Numbered, ReviveAll, SubscribeAll, Same, FindQueue;
    if v.name !in s.unsub && v.name !in s.sub {
      var q := Definition(v);
      NextIsNew(s);
      FoundByName(s, name);
      OtherNew(s, q, name);
      hide Definition, WithNewQueue;
      var s1 := WithNewQueue(s, q);
      OthersSubscribed(s1, v.name, v.subs, v.confirm, name);
      var s2 := SubscribeAll(s1, v.name, v.subs, v.confirm);
      SameFinds(s1, s2, name);
      OthersRevived(s2, s.nextQueue, v.records, name);
      SameTwice(s, s1, s2, name);
      SameTwice(s, s2, ReviveAll(s2, s.nextQueue, v.records), name);
    } else {
      NothingRevived(s, name);
    }
  }

  lemma SameFinds(s: State, s': State, name: string)
    requires Same(s, s', name)
    ensures FindQueue(s', name) == FindQueue(s, name)
    ensures s'.needAck == s.needAck && LogEvents(s'.toPersis, name) == LogEvents(s.toPersis, name)
  {
    hide LogEvents, FindQueue;
  }

  lemma NothingRevived(s: State, name: string)
    ensures Same(s, s, name)
  {
    hide LogEvents;
  }

  // ----------------------------------------------------------- all lives

  /** The files were those of a log that was told what the broker sent, the
      persistence server having been restarted at any points in between. */
  ghost predicate FoundInLog(s: State, v: Revival, queue: seq<byte>)
    requires |queue| < MAX_NAME_LENGTH
  {
    exists log: seq<R.Event>, names: seq<string> ::
      && WithoutReboots(log) == Told(s.toPersis, v.name) && AllStorable(queue, log) && RebootsSeeDisk(queue, log)
      && FoundIn(v, queue, log, names)
  }

  ghost predicate FoundIn(v: Revival, queue: seq<byte>, log: seq<R.Event>, names: seq<string>)
    requires |queue| < MAX_NAME_LENGTH
  {
    var files := R.After(queue, log).log.files;
    Lists(names, files.index.Keys) && v.records == R.Recover(files, names) && R.NextIndex(files) == Some(v.next)
  }

  /** A queue of that name is only created when nothing has been heard of one,
      and when the broker starts it finds the queue only if it was there,
      durable, with what its log holds. */
  ghost predicate Proper(s: State, act: Act, name: string, queue: seq<byte>)
    requires |queue| < MAX_NAME_LENGTH
  {
    match act
    case Do(e) => Creates(s, e, name) ==> Unheard(s, name)
    case Start(vs) => forall k :: 0 <= k < |vs| && vs[k].name == name ==> WasThere(s, name) && FoundInLog(s, vs[k], queue)
  }

  ghost predicate WasThere(s: State, name: string) {
    FindQueue(s, name).Some? && FindQueue(s, name).value in s.queues && s.queues[FindQueue(s, name).value].durable
  }

  ghost predicate AllProper(acts: seq<Act>, name: string, queue: seq<byte>)
    requires |queue| < MAX_NAME_LENGTH
  {
    acts == [] ||
    (var prev := acts[..|acts| - 1]; AllProper(prev, name, queue) && Proper(Live(prev), acts[|acts| - 1], name, queue))
  }

  /** What recovery finds in such a log is what is open in the account. */
  lemma LogIsFound(queue: seq<byte>, log: seq<R.Event>, names: seq<string>, told: seq<R.Event>, evs: seq<R.Event>,
                   v: Revival)
    requires |queue| < MAX_NAME_LENGTH && 0 !in queue
    requires WithoutReboots(log) == told && AllStorable(queue, log) && RebootsSeeDisk(queue, log)
    requires FoundIn(v, queue, log, names) && AllAlike(evs, told) && InOrder(evs)
    ensures Found(v, CutEvents(evs))
  {
    hide R.Recover, R.NextIndex, R.After, Lists, Remaining, CutAll, InOrder, AllAlike, CutEvents, RebootsSeeDisk;
    AlikeMeans(evs, told);
    RebootsTellNothing(log);
    hide WithoutReboots;
    OrderedIsLegal(queue, log);
    HistoryOf(queue, log);
    R.RecoveryIsPublishedMinusConsumed(queue, log, names);
    CutEventsPublish(evs);
    RemainingCut(Published(log), Eaten(log));
  }

  lemma AccountInOrder(s: State, name: string)
    requires Tracked(s, name) && WasThere(s, name)
    ensures InOrder(LogEvents(s.toPersis, name))
  {
    hide LogEvents, InOrder, FindQueue;
  }

  /** Every revival of that name finds what the account says is open. */
  lemma RevivalsFound(s: State, vs: seq<Revival>, name: string, queue: seq<byte>, k: nat)
    requires |queue| < MAX_NAME_LENGTH && 0 !in queue && Tracked(s, name)
    requires Proper(s, Start(vs), name, queue) && k < |vs| && vs[k].name == name
    ensures Found(vs[k], CutEvents(LogEvents(s.toPersis, name)))
  {
    hide FoundIn, Found, AllStorable, RebootsSeeDisk, WithoutReboots, Told, LogEvents, CutEvents, Tracked, WasThere, InOrder;
    var log, names :|
      && WithoutReboots(log) == Told(s.toPersis, name) && AllStorable(queue, log) && RebootsSeeDisk(queue, log)
      && FoundIn(vs[k], queue, log, names);
    AccountInOrder(s, name);
    RemembersTold(s.toPersis, name);
    LogIsFound(queue, log, names, Told(s.toPersis, name), LogEvents(s.toPersis, name), vs[k]);
  }

  lemma BootedLog(s: State, name: string)
    ensures LogEvents(Emptied(s).toPersis, name) == CutEvents(LogEvents(s.toPersis, name))
    ensures Emptied(s).needAck == [] && FindQueue(Emptied(s), name).None?
  {
    hide CutEvents;
    assert (s.toPersis + [Booted])[..|s.toPersis|] == s.toPersis;
  }

  /** While the queues are revived one after the other. */
  lemma {:induction false} RevivingTracked(s: State, vs: seq<Revival>, name: string, evs: seq<R.Event>)
    requires Inv(s) && s.needAck == [] && LogEvents(s.toPersis, name) == evs && FindQueue(s, name).None?
    requires forall k :: 0 <= k < |vs| && vs[k].name == name ==> Found(vs[k], evs)
    ensures var t := ReviveQueues(s, vs);
      && t.needAck == [] && LogEvents(t.toPersis, name) == evs && Tracked(t, name)
    decreases |vs|
  {
    hide Inv, LogEvents, Found, Tracked, FindQueue;
    if vs == [] {
      GoneIsTracked(s, name);
    } else {
      var front, v := vs[..|vs| - 1], vs[|vs| - 1];
      hide Revive;
      RevivingTracked(s, front, name, evs);
      ReviveQueuesKeeps(s, front);
      var t := ReviveQueues(s, front);
      if v.name != name {
        OtherRevived(t, v, name);
        SameFinds(t, Revive(t, v), name);
        SameKeeps(t, Revive(t, v), name);
      } else {
        ReviveHistory(t, v);
        TakenOrNone(t, v);
        if FindQueue(t, name).None? {
          RevivedTracked(t, v);
        }
      }
    }
  }

  lemma TakenOrNone(s: State, v: Revival)
    ensures FindQueue(s, v.name).Some? ==> Revive(s, v) == s
  {
    hide ReviveAll, SubscribeAll;
  }

  lemma ReviveHistory(s: State, v: Revival)
    ensures Revive(s, v).needAck == s.needAck && Revive(s, v).toPersis == s.toPersis
  {
    hide WithNewQueue, Definition, ReviveAll, SubscribeAll;
    SameHistory(s, Definition(v));
    var s1 := WithNewQueue(s, Definition(v));
    SubscribeHistory(s1, v.name, v.subs, v.confirm);
    ReviveAllHistory(SubscribeAll(s1, v.name, v.subs, v.confirm), s.nextQueue, v.records);
  }

  lemma {:induction false} SubscribeHistory(s: State, name: string, subs: seq<int>, level: nat)
    ensures var s' := SubscribeAll(s, name, subs, level); s'.needAck == s.needAck && s'.toPersis == s.toPersis
    decreases |subs|
  {
    if subs != [] {
      SubscribeHistory(s, name, subs[..|subs| - 1], level);
      hide FindQueue, Subscribe;
    }
  }

  lemma {:induction false} ReviveAllHistory(s: State, id: QueueId, rs: seq<Record>)
    ensures var s' := ReviveAll(s, id, rs); s'.needAck == s.needAck && s'.toPersis == s.toPersis
    decreases |rs|
  {
    if rs != [] {
      ReviveAllHistory(s, id, rs[..|rs| - 1]);
      hide Add;
    }
  }

  lemma BootTracked(s: State, vs: seq<Revival>, name: string, queue: seq<byte>)
    requires |queue| < MAX_NAME_LENGTH && 0 !in queue && Inv(s) && Tracked(s, name)
    requires Proper(s, Start(vs), name, queue)
    ensures Tracked(Boot(s, vs), name)
  {
    hide Inv, Tracked, Proper, Found, LogEvents, CutEvents, Emptied, ReviveQueues, FindQueue;
    EmptiedKeeps(s);
    BootedLog(s, name);
    forall k | 0 <= k < |vs| && vs[k].name == name
      ensures Found(vs[k], LogEvents(Emptied(s).toPersis, name))
    {
      RevivalsFound(s, vs, name, queue, k);
    }
    RevivingTracked(Emptied(s), vs, name, LogEvents(Emptied(s).toPersis, name));
  }

  /** In all its lives what the broker holds of a durable queue is what it told
      the log to write and not to consume. */
  lemma {:induction false} LiveTracked(acts: seq<Act>, name: string, queue: seq<byte>)
    requires |queue| < MAX_NAME_LENGTH && 0 !in queue && AllProper(acts, name, queue)
    ensures Tracked(Live(acts), name)
    decreases |acts|
  {
    if acts == [] {
      GoneIsTracked(INITIAL, name);
    } else {
      hide Tracked, Inv, Step, Boot, Creates, Unheard, FoundInLog, WasThere;
      var prev := acts[..|acts| - 1];
      LiveTracked(prev, name, queue);
      LiveKeepsInv(prev);
      match acts[|acts| - 1]
      case Do(e) =>
        if Creates(Live(prev), e, name) {
          CreatedTracked(Live(prev), e, name);
        } else {
          StepTracked(Live(prev), e, name);
        }
      case Start(vs) => BootTracked(Live(prev), vs, name, queue);
    }
  }

  lemma CreatedTracked(s: State, e: Event, name: string)
    requires Creates(s, e, name) && Unheard(s, name)
    ensures Tracked(Step(s, e), name)
  {
    hide Unheard, Tracked, Step;
    NewQueueTracked(s, e, name);
  }

  /** The broker and its durable log over any number of lives of the broker, each
      started from what recovery found: recovery rebuilds exactly the durable
      messages that the broker still has of the queue, with the bodies it knows
      cut at their first NUL; none twice; and it numbers on from where the queue
      was. */
  lemma RecoveryAfterRestarts(acts: seq<Act>, name: string, queue: seq<byte>, log: seq<R.Event>, names: seq<string>)
    requires |queue| < MAX_NAME_LENGTH && 0 !in queue && AllProper(acts, name, queue) && WasThere(Live(acts), name)
    requires WithoutReboots(log) == Told(Live(acts).toPersis, name)
    requires AllStorable(queue, log) && RebootsSeeDisk(queue, log)
    requires Lists(names, R.After(queue, log).log.files.index.Keys)
    ensures var s := Live(acts); var id := FindQueue(s, name).value; var q := s.queues[id];
      var files := R.After(queue, log).log.files;
      var known := LogEvents(s.toPersis, name); var out := Remaining(Published(known), Eaten(known));
      && R.Recover(files, names) == CutAll(out)
      && (forall r :: r in out ==> exists m :: Has(s, id, m) && CopyOf(m, q.priority, r))
      && (forall m :: Has(s, id, m) && m.durable ==> exists r :: r in out && CopyOf(m, q.priority, r))
      && Marks(Held(q), true, "") + Marks(s.needAck, false, name) == multiset(Open(log))
      && (q.nextDurable > 0 ==> R.NextIndex(files) == Some(q.nextDurable))
  {
    hide Live, R.Recover, R.NextIndex, R.After, Lists, LogEvents, AllProper, Told, RebootsSeeDisk;
    var s := Live(acts);
    var id := FindQueue(s, name).value;
    var known, told := LogEvents(s.toPersis, name), Told(s.toPersis, name);
    LiveTracked(acts, name, queue);
    AccountMeans(s, id);
    hide Remaining, CutAll, Held, Marks, FindQueue, Has, CopyOf;
    RemembersTold(s.toPersis, name);
    AlikeMeans(known, told);
    RebootsTellNothing(log);
    hide WithoutReboots, InOrder, AllAlike;
    OrderedIsLegal(queue, log);
    HistoryOf(queue, log);
    R.RecoveryIsPublishedMinusConsumed(queue, log, names);
    RemainingCut(Published(known), Eaten(known));
    RemainingCut(Published(log), Eaten(log));
  }

  // ------------------------------------------------ a next life is possible

  lemma {:induction false} ToldHasNoReboots(cmds: seq<Command>, name: string)
    ensures forall i :: 0 <= i < |Told(cmds, name)| ==> !Told(cmds, name)[i].Reboot?
    decreases |cmds|
  {
    if cmds != [] {
      ToldHasNoReboots(cmds[..|cmds| - 1], name);
    }
  }

  lemma {:induction false} NothingToLeaveOut(log: seq<R.Event>)
    requires forall i :: 0 <= i < |log| ==> !log[i].Reboot?
    ensures WithoutReboots(log) == log
    decreases |log|
  {
    if log != [] {
      NothingToLeaveOut(log[..|log| - 1]);
    }
  }

  lemma RebootedNever(queue: seq<byte>, log: seq<R.Event>)
    requires |queue| < MAX_NAME_LENGTH && forall i :: 0 <= i < |log| ==> !log[i].Reboot?
    ensures RebootsSeeDisk(queue, log)
  {
  }

  lemma BootOfOne(s: State, v: Revival)
    ensures Boot(s, [v]) == Revive(Emptied(s), v)
  {
    hide Revive, Emptied;
    assert [v][..0] == [];
    assert ReviveQueues(Emptied(s), []) == Emptied(s);
  }

  /** A broker whose durable queue was ever written to can be started again from
      its log, and has the queue then. */
  lemma NextLifeIsPossible(acts: seq<Act>, name: string, queue: seq<byte>, priority: int, autoDel: bool)
    returns (v: Revival)
    requires |queue| < MAX_NAME_LENGTH && 0 !in queue && AllProper(acts, name, queue) && WasThere(Live(acts), name)
    requires AllStorable(queue, Told(Live(acts).toPersis, name)) && Published(Told(Live(acts).toPersis, name)) != []
    ensures v.name == name && v.priority == priority && v.autoDel == autoDel
    ensures AllProper(acts + [Start([v])], name, queue) && WasThere(Live(acts + [Start([v])]), name)
  {
    hide R.Recover, R.NextIndex, R.After, Lists, Remaining, CutAll, InOrder, AllAlike, CutEvents, RebootsSeeDisk, Tracked,
      LogEvents, WasThere, Found, Boot, Revive, Emptied, FindQueue, Inv;
    var s := Live(acts);
    var log := Told(s.toPersis, name);
    LiveTracked(acts, name, queue);
    LiveKeepsInv(acts);
    AccountInOrder(s, name);
    RemembersTold(s.toPersis, name);
    AlikeMeans(LogEvents(s.toPersis, name), log);
    ToldHasNoReboots(s.toPersis, name);
    NothingToLeaveOut(log);
    RebootedNever(queue, log);
    OrderedIsLegal(queue, log);
    HistoryOf(queue, log);
    var names := R.CanBeListed(queue, log);
    R.RecoveryIsPublishedMinusConsumed(queue, log, names);
    var files := R.After(queue, log).log.files;
    v := Revival(name, priority, autoDel, [], 0, |Published(log)|, R.Recover(files, names));
    hide Told, WithoutReboots, AllStorable, Published;
    assert FoundIn(v, queue, log, names);
    hide FoundIn;
    assert FoundInLog(s, v, queue);
    hide FoundInLog;
    assert Proper(s, Start([v]), name, queue);
    RevivalsFound(s, [v], name, queue, 0);
    EmptiedKeeps(s);
    BootedLog(s, name);
    RevivedTracked(Emptied(s), v);
    BootOfOne(s, v);
    assert (acts + [Start([v])])[..|acts|] == acts;
  }

  // ------------------------------------------------- what is there afterwards

  /** The messages made of the records. */
  function Messages(addr: nat, rs: seq<Record>): (ms: seq<Msg>)
    ensures |ms| == |rs|
  {
    if rs == [] then []
    else
      var n, r := |rs| - 1, rs[|rs| - 1];
      Messages(addr, rs[..n]) + [Msg(addr + n, r.body, r.priority, true, r.index, -1, -1, 0, "")]
  }

  /** Message by message what the records say. */
  predicate MadeOf(ms: seq<Msg>, rs: seq<Record>) {
    && |ms| == |rs|
    && forall i :: 0 <= i < |rs| ==>
         ms[i].durable && ms[i].durableIndex == rs[i].index && ms[i].priority == rs[i].priority && ms[i].body == rs[i].body
  }

  lemma {:induction false} MessagesAreMade(addr: nat, rs: seq<Record>)
    ensures MadeOf(Messages(addr, rs), rs)
    decreases |rs|
  {
    if rs != [] {
      MessagesAreMade(addr, rs[..|rs| - 1]);
    }
  }

  lemma {:induction false} FilledByRecords(s: State, id: QueueId, rs: seq<Record>)
    requires id in s.queues
    ensures var s' := ReviveAll(s, id, rs);
      s' == s.(queues := s.queues[id := Filled(s.queues[id], Messages(s.nextAddr, rs))],
               place := s'.place, nextAddr := s.nextAddr + |rs|)
    decreases |rs|
  {
    if rs == [] {
      assert s.queues[id := s.queues[id]] == s.queues;
    } else {
      var n := |rs| - 1;
      FilledByRecords(s, id, rs[..n]);
      assert Messages(s.nextAddr, rs)[..n] == Messages(s.nextAddr, rs[..n]);
      hide Add, Messages;
    }
  }

  /** s' is s with these subscribers of queue id, and found as before. */
  ghost predicate WithSubscribers(s: State, id: QueueId, subs: seq<int>, level: nat, s': State)
    requires id in s.queues
  {
    && s'.queues
    == s.queues[id := s.queues[id].(subs := subs, confirm := if subs == [] then s.queues[id].confirm else level)]
    && (forall n :: FindQueue(s', n) == FindQueue(s, n))
    && s' == s.(queues := s'.queues, sub := s'.sub, unsub := s'.unsub)
  }

  lemma OneSubscriberBack(s: State, id: QueueId, name: string, client: int, level: nat)
    requires id in s.queues && FindQueue(s, name) == Some(id) && client !in s.queues[id].subs
    ensures WithSubscribers(s, id, s.queues[id].subs + [client], level, CreateSubscribe(s, client, name, level))
  {
  }

  lemma SubscribersTwice(s: State, id: QueueId, front: seq<int>, level: nat, t: State, subs: seq<int>, t': State)
    requires id in s.queues && WithSubscribers(s, id, front, level, t) && WithSubscribers(t, id, subs, level, t')
    requires subs != []
    ensures WithSubscribers(s, id, subs, level, t')
  {
    hide FindQueue;
    assert t'.queues == s.queues[id := t'.queues[id]];
  }

  lemma NobodyBack(s: State, id: QueueId, level: nat)
    requires id in s.queues && s.queues[id].subs == []
    ensures WithSubscribers(s, id, [], level, s)
  {
    hide FindQueue;
    assert s.queues[id := s.queues[id]] == s.queues;
  }

  lemma {:induction false} SubscribersBack(s: State, id: QueueId, name: string, subs: seq<int>, level: nat)
    requires id in s.queues && FindQueue(s, name) == Some(id) && s.queues[id].subs == [] && DistinctInts(subs)
    ensures WithSubscribers(s, id, subs, level, SubscribeAll(s, name, subs, level))
    decreases |subs|
  {
    if subs == [] {
      NobodyBack(s, id, level);
    } else {
      hide CreateSubscribe, FindQueue;
      var front, last := subs[..|subs| - 1], subs[|subs| - 1];
      SubscribersBack(s, id, name, front, level);
      assert subs == front + [last] && last !in front;
      var t := SubscribeAll(s, name, front, level);
      OneSubscriberBack(t, id, name, last, level);
      hide SubscribeAll, WithSubscribers, DistinctInts;
      SubscribersTwice(s, id, front, level, t, subs, CreateSubscribe(t, last, name, level));
    }
  }

  /** One queue as it is after a start: the definition found, its subscribers with
      their level, and the messages recovered, by priority and else by index. */
  ghost predicate BackAgain(q: Queue, v: Revival) {
    && q.name == v.name && q.priority == v.priority && q.durable && q.autoDel == v.autoDel && q.nextDurable == v.next
    && q.subs == v.subs && (v.subs != [] ==> q.confirm == v.confirm)
    && exists ms :: MadeOf(ms, v.records)
         && q.heap == (if v.priority > 0 then Urgent(ms, v.priority) else [])
         && q.list == (if v.priority > 0 then Ordinary(ms) else ms)
  }

  lemma FilledIsBack(q: Queue, v: Revival, addr: nat)
    requires q == Definition(v).(subs := v.subs, confirm := q.confirm) && (v.subs != [] ==> q.confirm == v.confirm)
    ensures BackAgain(Filled(q, Messages(addr, v.records)), v)
  {
    hide Filled, Messages, MadeOf, Urgent, Ordinary;
    var ms := Messages(addr, v.records);
    FilledIs(q, ms);
    MessagesAreMade(addr, v.records);
    IsBack(q, ms, Filled(q, ms), v);
  }

  lemma IsBack(q: Queue, ms: seq<Msg>, f: Queue, v: Revival)
    requires q == Definition(v).(subs := v.subs, confirm := q.confirm) && (v.subs != [] ==> q.confirm == v.confirm)
    requires f == if q.priority > 0 then q.(heap := Urgent(ms, q.priority), list := Ordinary(ms)) else q.(list := ms)
    requires MadeOf(ms, v.records)
    ensures BackAgain(f, v)
  {
    hide MadeOf, Urgent, Ordinary;
  }

  ghost predicate IdsBelowNext(s: State) {
    forall id :: id in s.queues ==> id < s.nextQueue
  }

  lemma NewlyFound(s: State, q: Queue)
    requires IdsBelowNext(s) && FindQueue(s, q.name).None? && q.subs == []
    ensures var s' := WithNewQueue(s, q);
      && IdsBelowNext(s') && s'.queues == s.queues[s.nextQueue := q] && s'.nextQueue == s.nextQueue + 1
      && s' == s.(queues := s'.queues, nextQueue := s'.nextQueue, unsub := s'.unsub)
      && forall n :: FindQueue(s', n) == if n == q.name then Some(s.nextQueue) else FindQueue(s, n)
  {
  }

  lemma OneBack(s: State, v: Revival)
    requires IdsBelowNext(s) && FindQueue(s, v.name).None? && DistinctInts(v.subs)
    ensures var s', id := Revive(s, v), s.nextQueue;
      && IdsBelowNext(s') && s'.queues.Keys == s.queues.Keys + {id} && id !in s.queues && BackAgain(s'.queues[id], v)
      && (forall i :: i in s.queues ==> s'.queues[i] == s.queues[i])
      && (forall n :: FindQueue(s', n) == if n == v.name then Some(id) else FindQueue(s, n))
      && s' == s.(queues := s'.queues, nextQueue := s'.nextQueue, sub := s'.sub, unsub := s'.unsub,
                  place := s'.place, nextAddr := s'.nextAddr)
  {
    hide BackAgain, DistinctInts, FindQueue, ReviveAll, SubscribeAll, WithNewQueue, Filled, Messages;
    var id := s.nextQueue;
    NewlyFound(s, Definition(v));
    var s1 := WithNewQueue(s, Definition(v));
    SubscribersBack(s1, id, v.name, v.subs, v.confirm);
    var s2 := SubscribeAll(s1, v.name, v.subs, v.confirm);
    FilledByRecords(s2, id, v.records);
    NameIsNew(s, v.name);
    assert Revive(s, v) == ReviveAll(s2, id, v.records);
    FilledIsBack(s2.queues[id], v, s2.nextAddr);
    SameNames(s2, Revive(s, v));
    hide Revive, Definition;
  }

  lemma NameIsNew(s: State, name: string)
    ensures FindQueue(s, name).None? <==> name !in s.unsub && name !in s.sub
  {
  }

  lemma SameNames(s: State, s': State)
    requires s'.sub == s.sub && s'.unsub == s.unsub
    ensures forall n :: FindQueue(s', n) == FindQueue(s, n)
  {
  }

  ghost predicate Named(vs: seq<Revival>, n: string) {
    exists k :: 0 <= k < |vs| && vs[k].name == n
  }

  lemma NamedMore(vs: seq<Revival>, v: Revival, n: string)
    ensures Named(vs + [v], n) <==> Named(vs, n) || v.name == n
  {
    var all := vs + [v];
    if k :| 0 <= k < |vs| && vs[k].name == n {
      assert all[k].name == n;
    }
    if v.name == n {
      assert all[|vs|].name == n;
    }
  }

  ghost predicate FoundBack(s: State, v: Revival) {
    var found := FindQueue(s, v.name);
    found.Some? && found.value in s.queues && BackAgain(s.queues[found.value], v)
  }

  /** The queues that a start finds, and how. */
  ghost predicate AllBack(s: State, vs: seq<Revival>) {
    && (forall k :: 0 <= k < |vs| ==> FoundBack(s, vs[k]))
    && (forall n :: FindQueue(s, n).Some? ==> Named(vs, n))
    && (forall id :: id in s.queues ==> Named(vs, s.queues[id].name))
  }

  lemma {:induction false} AllAreBack(s: State, vs: seq<Revival>)
    requires s.queues == map[] && s.sub == map[] && s.unsub == map[]
    requires forall i, j :: 0 <= i < j < |vs| ==> vs[i].name != vs[j].name
    requires forall k :: 0 <= k < |vs| ==> DistinctInts(vs[k].subs)
    ensures var s' := ReviveQueues(s, vs);
      && AllBack(s', vs) && IdsBelowNext(s')
      && s' == s.(queues := s'.queues, nextQueue := s'.nextQueue, sub := s'.sub, unsub := s'.unsub,
                  place := s'.place, nextAddr := s'.nextAddr)
    decreases |vs|
  {
    hide Revive, DistinctInts, AllBack, FindQueue, BackAgain, IdsBelowNext;
    if vs == [] {
      NoneBack(s);
    } else {
      var front, v := vs[..|vs| - 1], vs[|vs| - 1];
      AllAreBack(s, front);
      var t := ReviveQueues(s, front);
      NameIsFree(t, front, v);
      OneBack(t, v);
      assert vs == front + [v];
      OneMoreBack(t, front, v, Revive(t, v));
    }
  }

  lemma NoneBack(s: State)
    requires s.queues == map[] && s.sub == map[] && s.unsub == map[]
    ensures AllBack(s, []) && IdsBelowNext(s)
  {
  }

  lemma NameIsFree(s: State, vs: seq<Revival>, v: Revival)
    requires AllBack(s, vs) && forall k :: 0 <= k < |vs| ==> vs[k].name != v.name
    ensures FindQueue(s, v.name).None?
  {
    hide FoundBack, FindQueue;
  }

  lemma OneMoreBack(t: State, front: seq<Revival>, v: Revival, t': State)
    requires AllBack(t, front) && FindQueue(t, v.name).None? && t.nextQueue !in t.queues
    requires t'.queues.Keys == t.queues.Keys + {t.nextQueue} && BackAgain(t'.queues[t.nextQueue], v)
    requires forall i :: i in t.queues ==> t'.queues[i] == t.queues[i]
    requires forall n :: FindQueue(t', n) == if n == v.name then Some(t.nextQueue) else FindQueue(t, n)
    ensures AllBack(t', front + [v])
  {
    hide FindQueue, Named;
    assert t'.queues[t.nextQueue].name == v.name;
    hide BackAgain;
    forall n
      ensures Named(front + [v], n) <==> Named(front, n) || v.name == n
    {
      NamedMore(front, v, n);
    }
    forall k | 0 <= k < |front + [v]|
      ensures FoundBack(t', (front + [v])[k])
    {
      if k < |front| {
        assert FoundBack(t, front[k]);
      }
    }
    hide FoundBack;
  }

  /** Whatever was before, a start has exactly the queues found, each as its files
      say: its recovered messages are given out by priority under the queue's limit,
      else in the order in which recovery found them; nothing is pending, no key is
      remembered, no exchange is there, and no packet is sent. */
  lemma StartBringsBack(s: State, vs: seq<Revival>)
    requires forall i, j :: 0 <= i < j < |vs| ==> vs[i].name != vs[j].name
    requires forall k :: 0 <= k < |vs| ==> DistinctInts(vs[k].subs)
    ensures var s' := Boot(s, vs);
      && AllBack(s', vs)
      && s'.needAck == [] && s'.stored == {} && s'.exchanges == map[] && s'.toConnect == s.toConnect
  {
    hide ReviveQueues, AllBack;
    AllAreBack(Emptied(s), vs);
  }
}
