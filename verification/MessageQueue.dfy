/** One message queue of the broker: priority heap, normal list, subscribers
    and the round-robin push index. */
module MessageQueues {
  import opened Bytes
  import opened CommonDefs

  /** SeverStoreMessage; addr is the identity of the object. */
  datatype Msg = Msg(addr: nat, body: seq<byte>, priority: int, durable: bool, durableIndex: int,
                     seqNo: int, client: int, confirm: int, queueName: string)

  /** The fields of a MessageQueue. The heap is only known as a bag: which of
      several messages of equal priority is on top is not specified. */
  datatype Queue = Queue(name: string, priority: int, durable: bool, autoDel: bool, confirm: int,
                         heap: seq<Msg>, list: seq<Msg>, subs: seq<int>, pushIndex: int, nextDurable: int)

  /** A priority under a limit; a limit of 0 or less is none. */
  function Clamped(limit: int, priority: int): int {
    if limit > 0 && priority > limit then limit else priority
  }

  function NewQueue(name: string, priority: int, durable: bool, autoDel: bool): Queue {
    Queue(name, priority, durable, autoDel, 0, [], [], [], -1, 0)
  }

  function Held(q: Queue): seq<Msg> {
    q.heap + q.list
  }

  // ---------------------------------------------------------- operations

  predicate UsesHeap(q: Queue, m: Msg) {
    q.priority > 0 && m.priority > 0
  }

  /** The priority a message gets in a queue. */
  function Clamp(q: Queue, m: Msg): Msg {
    if UsesHeap(q, m) && m.priority > q.priority then m.(priority := q.priority) else m
  }

  function Add(q: Queue, m: Msg): Queue {
    if UsesHeap(q, m) then q.(heap := q.heap + [Clamp(q, m)]) else q.(list := q.list + [m])
  }

  function AddFront(q: Queue, m: Msg): Queue {
    if UsesHeap(q, m) then q.(heap := q.heap + [Clamp(q, m)]) else q.(list := [m] + q.list)
  }

  /** heap[k] may be the top: nothing in the heap is more urgent. */
  predicate IsTop(heap: seq<Msg>, k: nat) {
    k < |heap| && forall i :: 0 <= i < |heap| ==> heap[i].priority <= heap[k].priority
  }

  predicate CanPop(q: Queue, push: bool, k: nat) {
    && (push ==> q.subs != [])
    && (if q.heap != [] then IsTop(q.heap, k) else q.list != [])
  }

  function NextPush(pushIndex: int, n: nat): int {
    if pushIndex + 1 >= n then 0 else pushIndex + 1
  }

  /** PopFrontMsg when there is a message for it. */
  function Pop(q: Queue, push: bool, k: nat): (Queue, Msg)
    requires CanPop(q, push, k) && q.pushIndex >= -1
  {
    var m := if q.heap != [] then q.heap[k] else q.list[0];
    var rest := if q.heap != [] then q.(heap := q.heap[..k] + q.heap[k + 1..]) else q.(list := q.list[1..]);
    if push then
      var i := NextPush(q.pushIndex, |q.subs|);
      (rest.(pushIndex := i), m.(client := q.subs[i]))
    else (rest, m)
  }

  function Remove(subs: seq<int>, c: int): (r: seq<int>)
    ensures forall x :: x in r <==> x in subs && x != c
  {
    if subs == [] then [] else (if subs[0] == c then [] else [subs[0]]) + Remove(subs[1..], c)
  }

  function Subscribe(q: Queue, c: int, level: int): Queue {
    q.(subs := if c in q.subs then q.subs else q.subs + [c], confirm := level)
  }

  function Unsubscribe(q: Queue, c: int): Queue {
    var subs := Remove(q.subs, c);
    q.(subs := subs, confirm := if subs == [] then 0 else q.confirm)
  }

  // ------------------------------------------------------ what is held

  /** The addresses of a list of messages, each as often as it occurs. */
  function Bag(ms: seq<Msg>): multiset<nat> {
    multiset(seq(|ms|, i requires 0 <= i < |ms| => ms[i].addr))
  }

  lemma BagConcat(a: seq<Msg>, b: seq<Msg>)
    ensures Bag(a + b) == Bag(a) + Bag(b)
  {
    var x := seq(|a|, i requires 0 <= i < |a| => a[i].addr);
    var y := seq(|b|, i requires 0 <= i < |b| => b[i].addr);
    assert seq(|a + b|, i requires 0 <= i < |a + b| => (a + b)[i].addr) == x + y;
  }

  lemma BagOne(m: Msg)
    ensures Bag([m]) == multiset{m.addr}
  {
    assert seq(1, i requires 0 <= i < 1 => [m][i].addr) == [m.addr];
  }

  lemma BagMember(ms: seq<Msg>, i: nat)
    requires i < |ms|
    ensures ms[i].addr in Bag(ms)
  {
    assert seq(|ms|, j requires 0 <= j < |ms| => ms[j].addr)[i] == ms[i].addr;
  }

  lemma BagHas(ms: seq<Msg>, a: nat) returns (i: nat)
    requires a in Bag(ms)
    ensures i < |ms| && ms[i].addr == a
  {
    var x := seq(|ms|, j requires 0 <= j < |ms| => ms[j].addr);
    assert a in x;
    i :| 0 <= i < |x| && x[i] == a;
  }

  /** Adding at either end adds the message and nothing else. */
  lemma AddHolds(q: Queue, m: Msg)
    ensures Bag(Held(Add(q, m))) == Bag(Held(q)) + multiset{m.addr}
    ensures Bag(Held(AddFront(q, m))) == Bag(Held(q)) + multiset{m.addr}
  {
    hide Bag;
    BagConcat(q.heap, q.list);
    BagConcat(q.heap, [Clamp(q, m)]);
    BagConcat(q.heap + [Clamp(q, m)], q.list);
    BagConcat(q.list, [m]);
    BagConcat(q.heap, q.list + [m]);
    BagConcat([m], q.list);
    BagConcat(q.heap, [m] + q.list);
    BagOne(m);
    BagOne(Clamp(q, m));
  }

  /** Popping takes out one message that was held. */
  lemma PopHolds(q: Queue, push: bool, k: nat)
    requires CanPop(q, push, k) && q.pushIndex >= -1
    ensures var (q', m) := Pop(q, push, k);
      Bag(Held(q)) == Bag(Held(q')) + multiset{m.addr} && m.addr in Bag(Held(q))
  {
    hide Bag;
    var (q', m) := Pop(q, push, k);
    BagConcat(q.heap, q.list);
    BagConcat(q'.heap, q'.list);
    if q.heap != [] {
      var a, b := q.heap[..k], q.heap[k + 1..];
      assert q.heap == a + [q.heap[k]] + b;
      BagConcat(a + [q.heap[k]], b);
      BagConcat(a, [q.heap[k]]);
      BagConcat(a, b);
      BagOne(q.heap[k]);
    } else {
      assert q.list == [q.list[0]] + q.list[1..];
      BagConcat([q.list[0]], q.list[1..]);
      BagOne(q.list[0]);
    }
  }

  // ------------------------------------------------------- the pop order

  lemma {:induction false} TopExists(heap: seq<Msg>) returns (k: nat)
    requires heap != []
    ensures IsTop(heap, k)
  {
    if |heap| == 1 {
      k := 0;
    } else {
      var n := |heap| - 1;
      k := TopExists(heap[..n]);
      assert forall i :: 0 <= i < n ==> heap[i] == heap[..n][i];
      if heap[n].priority > heap[k].priority {
        k := n;
      }
    }
  }

  /** Emptying a queue with PopFrontMsg(false) may give out. */
  ghost predicate DrainsTo(q: Queue, out: seq<Msg>)
    decreases |out|
  {
    if Held(q) == [] then out == []
    else out != [] && exists k: nat ::
      CanPop(q, false, k) && q.pushIndex >= -1 && Pop(q, false, k).1 == out[0] && DrainsTo(Pop(q, false, k).0, out[1..])
  }

  /** Every queue can be drained. */
  lemma {:induction false} CanBeDrained(q: Queue) returns (out: seq<Msg>)
    requires q.pushIndex >= -1
    ensures DrainsTo(q, out)
    decreases |Held(q)|
  {
    if Held(q) == [] {
      out := [];
    } else {
      var k := 0;
      if q.heap != [] {
        k := TopExists(q.heap);
      }
      var (q', m) := Pop(q, false, k);
      var rest := CanBeDrained(q');
      out := [m] + rest;
      assert out[1..] == rest;
      assert CanPop(q, false, k) && Pop(q, false, k).1 == out[0] && DrainsTo(Pop(q, false, k).0, out[1..]);
    }
  }

  /** Whatever the ties, draining gives a permutation of the contents: first
      the prioritised messages, most urgent first, then the normal ones in
      their order of arrival. */
  lemma {:induction false} DrainOrder(q: Queue, out: seq<Msg>)
    requires DrainsTo(q, out)
    ensures Drained(q.heap, q.list, out)
    decreases |out|
  {
    hide Drained;
    if Held(q) == [] {
      NothingDrained();
      assert q.heap == [] && q.list == [];
    } else {
      var k: nat :| CanPop(q, false, k) && q.pushIndex >= -1 && Pop(q, false, k).1 == out[0]
                    && DrainsTo(Pop(q, false, k).0, out[1..]);
      DrainOrder(Pop(q, false, k).0, out[1..]);
      if q.heap == [] {
        NormalFirst(q.list, out);
      } else {
        TopFirst(q.heap, k, q.list, out);
      }
    }
  }

  /** out is heap and list in the order described above. */
  ghost predicate Drained(heap: seq<Msg>, list: seq<Msg>, out: seq<Msg>) {
    && |out| == |heap| + |list|
    && multiset(out) == multiset(heap) + multiset(list)
    && out[|heap|..] == list
    && (forall i, j :: 0 <= i < j < |heap| ==> out[i].priority >= out[j].priority)
  }

  lemma NothingDrained()
    ensures Drained([], [], [])
  {
  }

  lemma NormalFirst(list: seq<Msg>, out: seq<Msg>)
    requires list != [] && out != [] && out[0] == list[0] && Drained([], list[1..], out[1..])
    ensures Drained([], list, out)
  {
    assert out == [out[0]] + out[1..] && list == [list[0]] + list[1..];
    assert out[1..][0..] == out[1..];
  }

  lemma TakenOut(heap: seq<Msg>, k: nat)
    requires k < |heap|
    ensures multiset(heap) == multiset{heap[k]} + multiset(heap[..k] + heap[k + 1..])
  {
    assert heap == heap[..k] + [heap[k]] + heap[k + 1..];
  }

  lemma TopFirst(heap: seq<Msg>, k: nat, list: seq<Msg>, out: seq<Msg>)
    requires IsTop(heap, k) && out != [] && out[0] == heap[k]
    requires Drained(heap[..k] + heap[k + 1..], list, out[1..])
    ensures Drained(heap, list, out)
  {
    var rest := heap[..k] + heap[k + 1..];
    TakenOut(heap, k);
    assert out == [out[0]] + out[1..];
    FrontIsHeap(rest, list, out[1..]);
    assert out[|heap|..] == out[1..][|rest|..];
    forall i, j | 0 <= i < j < |heap|
      ensures out[i].priority >= out[j].priority
    {
      assert out[j] == out[1..][j - 1];
      if i == 0 {
        assert out[1..][j - 1] in rest;
      } else {
        assert out[i] == out[1..][i - 1];
      }
    }
  }

  lemma CancelBag(a: multiset<Msg>, b: multiset<Msg>, c: multiset<Msg>)
    requires a + c == b + c
    ensures a == b
  {
    forall m
      ensures a[m] == b[m]
    {
      assert (a + c)[m] == a[m] + c[m] && (b + c)[m] == b[m] + c[m];
    }
  }

  lemma FrontIsHeap(heap: seq<Msg>, list: seq<Msg>, out: seq<Msg>)
    requires |out| == |heap| + |list| && multiset(out) == multiset(heap) + multiset(list) && out[|heap|..] == list
    ensures forall j :: 0 <= j < |heap| ==> out[j] in heap
  {
    var front := out[..|heap|];
    assert out == front + out[|heap|..];
    CancelBag(multiset(front), multiset(heap), multiset(list));
    forall j | 0 <= j < |heap|
      ensures out[j] in heap
    {
      assert front[j] in multiset(front);
      assert front[j] in multiset(heap);
    }
  }

  // ----------------------------------------- which messages are prioritised

  /** The messages added one after the other. */
  function Filled(q: Queue, ms: seq<Msg>): Queue {
    if ms == [] then q else Add(Filled(q, ms[..|ms| - 1]), ms[|ms| - 1])
  }

  /** The messages with a priority, no higher than the limit. */
  function Urgent(ms: seq<Msg>, limit: int): seq<Msg> {
    if ms == [] then []
    else
      var m := ms[|ms| - 1];
      Urgent(ms[..|ms| - 1], limit) + (if m.priority > 0 then [m.(priority := Clamped(limit, m.priority))] else [])
  }

  /** The messages without one. */
  function Ordinary(ms: seq<Msg>): seq<Msg> {
    if ms == [] then []
    else Ordinary(ms[..|ms| - 1]) + (if ms[|ms| - 1].priority > 0 then [] else [ms[|ms| - 1]])
  }

  lemma AddIs(q: Queue, m: Msg)
    ensures Add(q, m)
         == if q.priority > 0 && m.priority > 0 then q.(heap := q.heap + [m.(priority := Clamped(q.priority, m.priority))])
            else q.(list := q.list + [m])
  {
  }

  lemma OneMoreMessage(ms: seq<Msg>, m: Msg, limit: int)
    ensures Urgent(ms + [m], limit)
         == if m.priority > 0 then Urgent(ms, limit) + [m.(priority := Clamped(limit, m.priority))] else Urgent(ms, limit)
    ensures Ordinary(ms + [m]) == if m.priority > 0 then Ordinary(ms) else Ordinary(ms) + [m]
  {
    hide Clamped;
    assert (ms + [m])[..|ms|] == ms;
  }

  lemma {:induction false} FilledIs(q: Queue, ms: seq<Msg>)
    requires q.heap == [] && q.list == []
    ensures Filled(q, ms)
         == if q.priority > 0 then q.(heap := Urgent(ms, q.priority), list := Ordinary(ms)) else q.(list := ms)
    decreases |ms|
  {
    if ms != [] {
      hide Add, Clamped;
      var front, m := ms[..|ms| - 1], ms[|ms| - 1];
      FilledIs(q, front);
      assert ms == front + [m];
      assert Filled(q, ms) == Add(Filled(q, front), m);
      hide Filled, Urgent, Ordinary;
      AddIs(Filled(q, front), m);
      OneMoreMessage(front, m, q.priority);
    }
  }

  lemma {:induction false} UrgentHavePriority(ms: seq<Msg>, limit: int)
    requires limit > 0
    ensures forall m :: m in Urgent(ms, limit) ==> 0 < m.priority <= limit
    decreases |ms|
  {
    if ms != [] {
      UrgentHavePriority(ms[..|ms| - 1], limit);
    }
  }

  /** Whatever is put into a new queue: a queue without priorities gives
      everything out in the order of arrival; one with a priority gives out first
      the messages that have one, by falling priority under its limit, and then
      the others in the order of arrival. */
  lemma PutAndDrained(name: string, priority: int, durable: bool, autoDel: bool, ms: seq<Msg>, out: seq<Msg>)
    requires DrainsTo(Filled(NewQueue(name, priority, durable, autoDel), ms), out)
    ensures priority <= 0 ==> out == ms
    ensures priority > 0 ==> var urgent := Urgent(ms, priority); var n := |urgent|;
      && |out| == n + |Ordinary(ms)| && out[n..] == Ordinary(ms)
      && multiset(out[..n]) == multiset(urgent)
      && (forall i :: 0 <= i < n ==> 0 < out[i].priority <= priority)
      && (forall i, j :: 0 <= i < j < n ==> out[i].priority >= out[j].priority)
  {
    var q := Filled(NewQueue(name, priority, durable, autoDel), ms);
    FilledIs(NewQueue(name, priority, durable, autoDel), ms);
    DrainOrder(q, out);
    hide DrainsTo, Filled, Urgent, Ordinary;
    if priority > 0 {
      UrgentFirst(q.heap, q.list, out);
      UrgentHavePriority(ms, priority);
    } else {
      assert out[0..] == out;
    }
  }

  lemma UrgentFirst(heap: seq<Msg>, list: seq<Msg>, out: seq<Msg>)
    requires Drained(heap, list, out)
    ensures |heap| <= |out| && multiset(out[..|heap|]) == multiset(heap)
    ensures forall i :: 0 <= i < |heap| ==> out[i] in heap
  {
    FrontIsHeap(heap, list, out);
    assert out == out[..|heap|] + out[|heap|..];
    CancelBag(multiset(out[..|heap|]), multiset(heap), multiset(list));
  }

  // --------------------------------------------------------- round robin

  /** What happens to a queue whose subscribers stay the same. */
  datatype Act = Put(m: Msg) | Return(m: Msg) | Pull(top: nat) | Push(top: nat)

  /** The queue after one act, and the client a push went to, if any. */
  function PerformOne(q: Queue, act: Act): (Queue, seq<int>)
    requires q.pushIndex >= -1
  {
    match act
    case Put(m) => (Add(q, m), [])
    case Return(m) => (AddFront(q, m), [])
    case Pull(k) => if CanPop(q, false, k) then (Pop(q, false, k).0, []) else (q, [])
    case Push(k) => if CanPop(q, true, k) then (Pop(q, true, k).0, [Pop(q, true, k).1.client]) else (q, [])
  }

  lemma OneActInTurn(q: Queue, act: Act)
    requires q.pushIndex >= -1
    ensures var (q', to) := PerformOne(q, act); var next := NextPush(q.pushIndex, |q.subs|);
      && q'.subs == q.subs
      && ((to == [] && q'.pushIndex == q.pushIndex)
          || (q.subs != [] && to == [q.subs[next]] && q'.pushIndex == next))
  {
  }

  /** The queue after some acts, and the clients the pushes went to. */
  function Perform(q: Queue, acts: seq<Act>): (Queue, seq<int>)
    requires q.pushIndex >= -1
    ensures Perform(q, acts).0.pushIndex >= -1 && Perform(q, acts).0.subs == q.subs
  {
    if acts == [] then (q, [])
    else
      var (q', to) := Perform(q, acts[..|acts| - 1]);
      var (q'', more) := PerformOne(q', acts[|acts| - 1]);
      OneActInTurn(q', acts[|acts| - 1]);
      (q'', to + more)
  }

  /** The position after t more turns, starting at `first`. */
  function Turn(first: nat, t: nat, n: nat): (p: nat)
    requires first < n
    ensures p < n
  {
    if t == 0 then first else NextPush(Turn(first, t - 1, n), n)
  }

  /** While the subscribers stay the same, pushes go to them in turn, whatever
      happens in between and whatever the push index was before. */
  lemma {:induction false} PushesInTurn(q: Queue, acts: seq<Act>)
    requires q.pushIndex >= -1 && q.subs != []
    ensures var (q', to) := Perform(q, acts); var n := |q.subs|; var first := NextPush(q.pushIndex, n);
      && (forall t :: 0 <= t < |to| ==> to[t] == q.subs[Turn(first, t, n)])
      && q'.pushIndex == (if to == [] then q.pushIndex else Turn(first, |to| - 1, n))
    decreases |acts|
  {
    hide PerformOne;
    if acts != [] {
      PushesInTurn(q, acts[..|acts| - 1]);
      OneActInTurn(Perform(q, acts[..|acts| - 1]).0, acts[|acts| - 1]);
    }
  }

  /** Messages with a priority are in the heap, under the limit, the others in
      the list; without a limit all are in the list. */
  ghost predicate ByPriority(q: Queue) {
    && (forall m :: m in q.heap ==> 0 < m.priority <= q.priority)
    && (forall m :: m in q.list ==> q.priority <= 0 || m.priority <= 0)
  }

  /** The message is the next to be given out: when one with a priority is held,
      one of the highest priority held, else the front of the list. */
  ghost predicate IsNext(q: Queue, m: Msg) {
    && m in Held(q)
    && (if q.priority > 0 && exists x :: x in Held(q) && x.priority > 0
        then forall x :: x in Held(q) ==> x.priority <= m.priority
        else q.list != [] && m == q.list[0] && q.heap == [])
  }

  lemma AddByPriority(q: Queue, m: Msg)
    requires ByPriority(q)
    ensures ByPriority(Add(q, m)) && ByPriority(AddFront(q, m))
  {
  }

  /** What PopFrontMsg takes out. */
  function Top(q: Queue, k: nat): Msg
    requires CanPop(q, false, k)
  {
    if q.heap != [] then q.heap[k] else q.list[0]
  }

  lemma TopIsNext(q: Queue, k: nat)
    requires ByPriority(q) && CanPop(q, false, k)
    ensures IsNext(q, Top(q, k))
  {
    var m := Top(q, k);
    HeldIn(q);
    if q.heap != [] {
      assert q.heap[k] in q.heap;
      assert forall x :: x in q.heap ==> x.priority <= m.priority;
    }
    hide Held;
  }

  lemma HeldIn(q: Queue)
    ensures forall x :: x in Held(q) <==> x in q.heap || x in q.list
  {
  }

  /** What is left in the queue. */
  lemma PopLeaves(q: Queue, push: bool, k: nat)
    requires CanPop(q, push, k) && q.pushIndex >= -1
    ensures var (q', m) := Pop(q, push, k);
      && m == Top(q, k).(client := m.client) && (!push ==> m == Top(q, k))
      && q'.list == (if q.heap == [] then q.list[1..] else q.list)
      && q'.heap == (if q.heap == [] then [] else q.heap[..k] + q.heap[k + 1..])
      && q' == q.(heap := q'.heap, list := q'.list, pushIndex := q'.pushIndex)
  {
  }

  /** q' is q with the k-th heap entry, or the front of the list, taken out. */
  ghost predicate LessTop(q: Queue, k: nat, q': Queue) {
    && q'.priority == q.priority
    && if q.heap != [] then k < |q.heap| && q'.heap == q.heap[..k] + q.heap[k + 1..] && q'.list == q.list
       else q.list != [] && q'.heap == [] && q'.list == q.list[1..]
  }

  lemma RestIsHeld(q: Queue, k: nat, q': Queue)
    requires CanPop(q, false, k) && LessTop(q, k, q')
    ensures multiset(Held(q)) == multiset(Held(q')) + multiset{Top(q, k)}
  {
    hide IsTop;
    if q.heap != [] {
      TakenOut(q.heap, k);
    } else {
      assert q.list == [q.list[0]] + q.list[1..];
    }
  }

  lemma RestByPriority(q: Queue, k: nat, q': Queue)
    requires ByPriority(q) && LessTop(q, k, q')
    ensures ByPriority(q')
  {
    assert forall m :: m in q'.heap ==> m in q.heap;
    assert forall m :: m in q'.list ==> m in q.list;
  }

  /** Popping takes the next message out of heap or list. */
  lemma PopTakesNext(q: Queue, push: bool, k: nat) returns (m: Msg)
    requires ByPriority(q) && CanPop(q, push, k) && q.pushIndex >= -1
    ensures IsNext(q, m) && multiset(Held(q)) == multiset(Held(Pop(q, push, k).0)) + multiset{m}
    ensures Pop(q, push, k).1 == m.(client := Pop(q, push, k).1.client)
    ensures !push ==> Pop(q, push, k).1 == m
    ensures ByPriority(Pop(q, push, k).0)
    ensures var q' := Pop(q, push, k).0; q'.list == if q.heap == [] then q.list[1..] else q.list
  {
    PopLeaves(q, push, k);
    assert CanPop(q, false, k) && LessTop(q, k, Pop(q, push, k).0);
    hide Pop, IsNext, Top, CanPop, Held, ByPriority, LessTop;
    m := Top(q, k);
    TopIsNext(q, k);
    RestIsHeld(q, k, Pop(q, push, k).0);
    RestByPriority(q, k, Pop(q, push, k).0);
  }

  lemma OneActByPriority(q: Queue, act: Act)
    requires q.pushIndex >= -1 && ByPriority(q)
    ensures ByPriority(PerformOne(q, act).0)
  {
    match act
    case Put(m) => AddByPriority(q, m);
    case Return(m) => AddByPriority(q, m);
    case Pull(k) =>
      if CanPop(q, false, k) {
        var m := PopTakesNext(q, false, k);
      }
    case Push(k) =>
      if CanPop(q, true, k) {
        var m := PopTakesNext(q, true, k);
      }
  }

  lemma {:induction false} ActsByPriority(q: Queue, acts: seq<Act>)
    requires q.pushIndex >= -1 && ByPriority(q)
    ensures ByPriority(Perform(q, acts).0)
    decreases |acts|
  {
    if acts != [] {
      hide ByPriority, PerformOne;
      ActsByPriority(q, acts[..|acts| - 1]);
      OneActByPriority(Perform(q, acts[..|acts| - 1]).0, acts[|acts| - 1]);
    }
  }

  /** Whatever was put into a queue, given back to it, pulled and pushed: a
      message without priority is given out only when none with a priority is
      held, if the queue has priorities, and of those one of the highest. */
  lemma HighestFirst(q: Queue, acts: seq<Act>, push: bool, k: nat) returns (m: Msg)
    requires q.pushIndex >= -1 && Held(q) == [] && CanPop(Perform(q, acts).0, push, k)
    ensures var now := Perform(q, acts).0; IsNext(now, m) && Pop(now, push, k).1 == m.(client := Pop(now, push, k).1.client)
  {
    assert q.heap == [] && q.list == [];
    ActsByPriority(q, acts);
    hide ByPriority, IsNext, CanPop, Pop;
    m := PopTakesNext(Perform(q, acts).0, push, k);
  }

  lemma {:induction false} TurnWithinRound(first: nat, t: nat, n: nat)
    requires first < n && t <= n
    ensures Turn(first, t, n) == if first + t < n then first + t else first + t - n
  {
    if t > 0 {
      TurnWithinRound(first, t - 1, n);
    }
  }

  lemma {:induction false} TurnJoin(first: nat, t: nat, u: nat, n: nat)
    requires first < n
    ensures Turn(first, t + u, n) == Turn(Turn(first, t, n), u, n)
  {
    if u > 0 {
      TurnJoin(first, t, u - 1, n);
    }
  }

  /** How many of the first m turns fall on position s. */
  function Turns(first: nat, m: nat, n: nat, s: nat): nat
    requires first < n
  {
    if m == 0 then 0 else Turns(first, m - 1, n, s) + (if Turn(first, m - 1, n) == s then 1 else 0)
  }

  lemma {:induction false} WithinRound(first: nat, m: nat, n: nat, s: nat)
    requires first < n && s < n && m <= n
    ensures var d := if s >= first then s - first else s + n - first;
      Turns(first, m, n, s) == if d < m then 1 else 0
  {
    if m > 0 {
      WithinRound(first, m - 1, n, s);
      TurnWithinRound(first, m - 1, n);
    }
  }

  lemma {:induction false} TurnsJoin(first: nat, a: nat, b: nat, n: nat, s: nat)
    requires first < n
    ensures Turns(first, a + b, n, s) == Turns(first, a, n, s) + Turns(Turn(first, a, n), b, n, s)
  {
    if b > 0 {
      TurnsJoin(first, a, b - 1, n, s);
      TurnJoin(first, a, b - 1, n);
    }
  }

  lemma Multiple(n: nat, d: int)
    ensures d >= 1 ==> n * d >= n
    ensures d <= -1 ==> n * d <= 0 - n
  {
  }

  lemma Quotient(m: nat, q: nat, r: nat, n: nat)
    requires m == n * q + r && r < n
    ensures m / n == q && m % n == r
  {
    var d := m / n - q;
    Multiple(n, d);
    assert n * d == r - m % n;
  }

  lemma OneRoundLess(m: nat, n: nat)
    requires 0 < n <= m
    ensures m / n == (m - n) / n + 1 && m % n == (m - n) % n
  {
    var q, r := (m - n) / n, (m - n) % n;
    assert m == n * (q + 1) + r;
    Quotient(m, q + 1, r, n);
  }

  /** m turns give each of the n positions m / n of them, rounded either way. */
  lemma {:induction false} FairShare(first: nat, m: nat, n: nat, s: nat)
    requires first < n && s < n
    ensures m / n <= Turns(first, m, n, s) <= m / n + (if m % n == 0 then 0 else 1)
    decreases m
  {
    if m < n {
      WithinRound(first, m, n, s);
      Quotient(m, 0, m, n);
    } else {
      FairShare(first, m - n, n, s);
      WithinRound(first, n, n, s);
      TurnWithinRound(first, n, n);
      TurnsJoin(first, n, m - n, n, s);
      OneRoundLess(m, n);
    }
  }

  function CountOf(to: seq<int>, c: int): nat {
    if to == [] then 0 else CountOf(to[..|to| - 1], c) + (if to[|to| - 1] == c then 1 else 0)
  }

  lemma {:induction false} CountIsTurns(subs: seq<int>, to: seq<int>, first: nat, s: nat)
    requires s < |subs| && first < |subs|
    requires forall i, j :: 0 <= i < j < |subs| ==> subs[i] != subs[j]
    requires forall t :: 0 <= t < |to| ==> to[t] == subs[Turn(first, t, |subs|)]
    ensures CountOf(to, subs[s]) == Turns(first, |to|, |subs|, s)
    decreases |to|
  {
    if to != [] {
      CountIsTurns(subs, to[..|to| - 1], first, s);
    }
  }

  /** Round-robin fairness: of any m consecutive pushes, each of the n
      subscribers gets m / n rounded down or up. */
  lemma PushesAreFair(q: Queue, acts: seq<Act>, from: nat, m: nat, s: nat)
    requires q.pushIndex >= -1 && s < |q.subs|
    requires forall i, j :: 0 <= i < j < |q.subs| ==> q.subs[i] != q.subs[j]
    requires from + m <= |Perform(q, acts).1|
    ensures var n := |q.subs|; var share := CountOf(Perform(q, acts).1[from..from + m], q.subs[s]);
      m / n <= share <= m / n + (if m % n == 0 then 0 else 1)
  {
    hide Perform, Turn, Turns, CountOf;
    var n, to := |q.subs|, Perform(q, acts).1;
    var first := NextPush(q.pushIndex, n);
    PushesInTurn(q, acts);
    forall t | 0 <= t < m
      ensures to[from..from + m][t] == q.subs[Turn(Turn(first, from, n), t, n)]
    {
      TurnJoin(first, from, t, n);
    }
    CountIsTurns(q.subs, to[from..from + m], Turn(first, from, n), s);
    FairShare(Turn(first, from, n), m, n, s);
  }

  // ------------------------------------------------------------ the class

  ghost predicate DistinctInts(s: seq<int>) {
    forall i, j :: 0 <= i < j < |s| ==> s[i] != s[j]
  }

  class MessageQueue {
    var name: string
    var priority: int
    var durable: bool
    var autoDel: bool
    var confirmLevel: int
    var msgPriQueue: seq<Msg>
    var messagesList: seq<Msg>
    var subscribers: seq<int>
    var pushIndex: int
    var durableIndex: int

    function State(): Queue
      reads this
    {
      Queue(name, priority, durable, autoDel, confirmLevel, msgPriQueue, messagesList, subscribers, pushIndex,
            durableIndex)
    }

    ghost predicate Valid()
      reads this
    {
      pushIndex >= -1 && DistinctInts(subscribers)
    }

    constructor (name: string, priority: int, durable: bool, autoDel: bool)
      ensures Valid() && State() == NewQueue(name, priority, durable, autoDel)
    {
      this.name, this.priority, this.durable, this.autoDel := name, priority, durable, autoDel;
      msgPriQueue, messagesList, subscribers := [], [], [];
      pushIndex, confirmLevel, durableIndex := -1, 0, 0;
    }

    /** top() and pop() of the heap; which of equals is on top is open. */
    method TakeTop() returns (m: Msg, ghost k: nat)
      requires msgPriQueue != []
      modifies this`msgPriQueue
      ensures IsTop(old(msgPriQueue), k) && m == old(msgPriQueue)[k]
      ensures msgPriQueue == old(msgPriQueue)[..k] + old(msgPriQueue)[k + 1..]
    {
      ghost var top := TopExists(msgPriQueue);
      var t: nat :| t < |msgPriQueue| && IsTop(msgPriQueue, t);
      k := t;
      m := msgPriQueue[t];
      msgPriQueue := msgPriQueue[..t] + msgPriQueue[t + 1..];
    }

    /** A message is popped exactly when one is held and, for a push, somebody
        subscribes; a normal one only when there is no prioritised one. */
    method PopFrontMsg(push: bool) returns (r: Option<Msg>, ghost k: nat)
      requires Valid()
      modifies this
      ensures Valid()
      ensures r.None? <==> Held(old(State())) == [] || (push && old(subscribers) == [])
      ensures r.None? ==> State() == old(State())
      ensures r.Some? ==> CanPop(old(State()), push, k) && (State(), r.value) == Pop(old(State()), push, k)
      ensures r.Some? && old(msgPriQueue) == [] ==> State().list == old(messagesList)[1..]
      ensures r.Some? && push ==> 0 <= pushIndex < |subscribers| && r.value.client == subscribers[pushIndex]
    {
      k := 0;
      if push && subscribers == [] {
        return None, 0;
      }
      if msgPriQueue == [] && messagesList == [] {
        return None, 0;
      }
      var front: Msg;
      if msgPriQueue != [] {
        front, k := TakeTop();
      } else {
        front := messagesList[0];
        messagesList := messagesList[1..];
      }
      if push {
        pushIndex := pushIndex + 1;
        if pushIndex >= |subscribers| {
          pushIndex := 0;
        }
        front := front.(client := subscribers[pushIndex]);
      }
      r := Some(front);
    }

    method AddMessage(m: Msg)
      modifies this`msgPriQueue, this`messagesList
      ensures State() == Add(old(State()), m)
      ensures priority > 0 && m.priority > 0 ==>
        && msgPriQueue == old(msgPriQueue) + [m.(priority := Clamped(priority, m.priority))]
        && messagesList == old(messagesList)
      ensures priority <= 0 || m.priority <= 0 ==>
        msgPriQueue == old(msgPriQueue) && messagesList == old(messagesList) + [m]
    {
      if priority > 0 && m.priority > 0 {
        var c := if m.priority > priority then m.(priority := priority) else m;
        msgPriQueue := msgPriQueue + [c];
      } else {
        messagesList := messagesList + [m];
      }
    }

    method AddMessageFront(m: Msg)
      modifies this`msgPriQueue, this`messagesList
      ensures State() == AddFront(old(State()), m)
      ensures priority > 0 && m.priority > 0 ==>
        && msgPriQueue == old(msgPriQueue) + [m.(priority := Clamped(priority, m.priority))]
        && messagesList == old(messagesList)
      ensures priority <= 0 || m.priority <= 0 ==>
        msgPriQueue == old(msgPriQueue) && messagesList == [m] + old(messagesList)
    {
      if priority > 0 && m.priority > 0 {
        var c := if m.priority > priority then m.(priority := priority) else m;
        msgPriQueue := msgPriQueue + [c];
      } else {
        messagesList := [m] + messagesList;
      }
    }

    /** Every message held is deleted, each once. */
    method ClearMessage() returns (deleted: seq<Msg>)
      requires Valid()
      modifies this`msgPriQueue, this`messagesList
      ensures Valid()
      ensures State() == old(State()).(heap := [], list := [])
      ensures multiset(deleted) == multiset(old(msgPriQueue)) + multiset(old(messagesList))
    {
      deleted := [];
      while msgPriQueue != []
        invariant messagesList == old(messagesList)
        invariant multiset(deleted) + multiset(msgPriQueue) == multiset(old(msgPriQueue))
        decreases |msgPriQueue|
      {
        ghost var before, t := msgPriQueue, 0;
        var top;
        top, t := TakeTop();
        TakenOut(before, t);
        deleted := deleted + [top];
      }
      ghost var urgent := deleted;
      assert multiset(urgent) == multiset(urgent) + multiset(msgPriQueue);
      while messagesList != []
        invariant msgPriQueue == []
        invariant multiset(deleted) + multiset(messagesList) == multiset(urgent) + multiset(old(messagesList))
        decreases |messagesList|
      {
        assert messagesList == [messagesList[0]] + messagesList[1..];
        deleted := deleted + [messagesList[0]];
        messagesList := messagesList[1..];
      }
      assert multiset(deleted) == multiset(deleted) + multiset(messagesList);
    }

    method AddSubscribe(client: int, level: int)
      requires Valid()
      modifies this`subscribers, this`confirmLevel
      ensures Valid() && State() == Subscribe(old(State()), client, level)
      ensures confirmLevel == level && old(subscribers) <= subscribers
      ensures forall c :: c in subscribers <==> c in old(subscribers) || c == client
    {
      var exists_ := false;
      for i := 0 to |subscribers|
        invariant subscribers == old(subscribers)
        invariant exists_ <==> client in subscribers[..i]
      {
        if subscribers[i] == client {
          exists_ := true;
        }
      }
      assert subscribers[..|subscribers|] == subscribers;
      if !exists_ {
        subscribers := subscribers + [client];
      }
      confirmLevel := level;
    }

    /** The erasing loop; it skips the element behind an erased one, which is
        harmless because nobody subscribes twice. */
    method CancelSubscribe(client: int)
      requires Valid()
      modifies this`subscribers, this`confirmLevel
      ensures Valid() && State() == Unsubscribe(old(State()), client)
      ensures confirmLevel == if subscribers == [] then 0 else old(confirmLevel)
      ensures forall c :: c in subscribers <==> c in old(subscribers) && c != client
    {
      hide Remove, DistinctInts, Erasing;
      ghost var before := subscribers;
      var i := 0;
      ErasingStarts(before, client);
      while i < |subscribers|
        invariant 0 <= i && confirmLevel == old(confirmLevel) && Erasing(before, subscribers, i, client)
        decreases |subscribers| - i
      {
        ErasingStep(before, subscribers, i, client);
        if subscribers[i] == client {
          subscribers := subscribers[..i] + subscribers[i + 1..];
        }
        i := i + 1;
      }
      ErasingEnds(before, subscribers, i, client);
      RemoveKeepsDistinct(before, client);
      if subscribers == [] {
        confirmLevel := 0;
      }
    }
  }

  /** The erasing loop at position i: the client was met and erased, or is not
      before i. */
  ghost predicate Erasing(before: seq<int>, now: seq<int>, i: nat, c: int) {
    || (now == Remove(before, c) && c !in now)
    || (now == before && i <= |now| && c !in now[..i])
  }

  lemma ErasingStarts(before: seq<int>, c: int)
    ensures Erasing(before, before, 0, c)
  {
  }

  lemma ErasingStep(before: seq<int>, now: seq<int>, i: nat, c: int)
    requires Erasing(before, now, i, c) && i < |now| && DistinctInts(before)
    ensures Erasing(before, if now[i] == c then now[..i] + now[i + 1..] else now, i + 1, c)
  {
    hide Remove;
    if now[i] == c {
      RemoveOne(before, i);
    }
  }

  lemma ErasingEnds(before: seq<int>, now: seq<int>, i: nat, c: int)
    requires Erasing(before, now, i, c) && i >= |now|
    ensures now == Remove(before, c)
  {
    hide Remove;
    assert now[..|now|] == now;
    RemoveAbsent(now, c);
  }

  lemma {:induction false} RemoveAbsent(s: seq<int>, c: int)
    requires c !in s
    ensures Remove(s, c) == s
  {
    if s != [] {
      RemoveAbsent(s[1..], c);
      assert s == [s[0]] + s[1..];
    }
  }

  lemma {:induction false} RemoveOne(s: seq<int>, i: nat)
    requires i < |s| && DistinctInts(s)
    ensures Remove(s, s[i]) == s[..i] + s[i + 1..]
    ensures s[i] !in s[..i] + s[i + 1..]
  {
    if i == 0 {
      RemoveAbsent(s[1..], s[0]);
      assert s[..0] + s[1..] == s[1..];
    } else {
      RemoveOne(s[1..], i - 1);
      assert s[1..][..i - 1] == s[1..i] && s[1..][i..] == s[i + 1..];
      assert s[..i] == [s[0]] + s[1..i];
      assert [s[0]] + (s[1..i] + s[i + 1..]) == ([s[0]] + s[1..i]) + s[i + 1..];
    }
  }

  lemma {:induction false} RemoveKeepsDistinct(s: seq<int>, c: int)
    requires DistinctInts(s)
    ensures DistinctInts(Remove(s, c)) && |Remove(s, c)| <= |s|
    ensures c in s ==> |Remove(s, c)| < |s|
  {
    if s != [] {
      RemoveKeepsDistinct(s[1..], c);
      var r := Remove(s[1..], c);
      if s[0] != c {
        assert s[0] !in r;
      }
    }
  }
}
