/** The account a durable queue of the broker keeps with its log: what the
    broker holds of it, against what it sent to be written and consumed. */
module Ledgers {
  import opened Records
  import opened MessageQueues
  import R = Recovery

  // ------------------------------------------- what a log was told so far

  function Published(evs: seq<R.Event>): seq<Record> {
    if evs == [] then []
    else Published(evs[..|evs| - 1]) + (match evs[|evs| - 1] case Write(r) => [r] case _ => [])
  }

  function Eaten(evs: seq<R.Event>): set<int> {
    if evs == [] then {}
    else Eaten(evs[..|evs| - 1]) + (match evs[|evs| - 1] case Eat(i) => {i} case _ => {})
  }

  /** Written and not consumed. */
  function Open(evs: seq<R.Event>): set<int> {
    set i | 0 <= i < |Published(evs)| && i !in Eaten(evs)
  }

  /** Records are numbered 0, 1, 2, ... and only open numbers are consumed. */
  predicate InOrder(evs: seq<R.Event>) {
    evs == [] ||
    (var prev := evs[..|evs| - 1];
     && InOrder(prev)
     && match evs[|evs| - 1]
        case Write(r) => r.index == |Published(prev)|
        case Eat(i) => i in Open(prev)
        case Reboot(_) => true)
  }

  lemma OneMoreEvent(evs: seq<R.Event>, e: R.Event)
    ensures Published(evs + [e]) == Published(evs) + (match e case Write(r) => [r] case _ => [])
    ensures Eaten(evs + [e]) == Eaten(evs) + (match e case Eat(i) => {i} case _ => {})
    ensures InOrder(evs + [e]) <==> InOrder(evs) && (match e
                                                     case Write(r) => r.index == |Published(evs)|
                                                     case Eat(i) => i in Open(evs)
                                                     case Reboot(_) => true)
  {
    assert (evs + [e])[..|evs|] == evs;
  }

  lemma {:induction false} NumberedFromZero(evs: seq<R.Event>)
    requires InOrder(evs)
    ensures forall k :: 0 <= k < |Published(evs)| ==> Published(evs)[k].index == k
    ensures forall i :: i in Eaten(evs) ==> 0 <= i < |Published(evs)|
    decreases |evs|
  {
    if evs != [] {
      NumberedFromZero(evs[..|evs| - 1]);
    }
  }

  // ------------------------------------------------------------- the account

  predicate Counts(m: Msg, all: bool, name: string) {
    m.durable && (all || m.queueName == name)
  }

  /** The durable indices of durable messages: of all, or of those that came
      from the queue of that name. */
  function Marks(ms: seq<Msg>, all: bool, name: string): multiset<int> {
    if ms == [] then multiset{}
    else
      var last := ms[|ms| - 1];
      Marks(ms[..|ms| - 1], all, name) + (if Counts(last, all, name) then multiset{last.durableIndex} else multiset{})
  }

  /** A durable message is the copy of its record. */
  predicate Copies(m: Msg, limit: int, rs: seq<Record>) {
    m.durable ==>
      && 0 <= m.durableIndex < |rs| && m.body == rs[m.durableIndex].body
      && m.priority == Clamped(limit, rs[m.durableIndex].priority)
  }

  /** held and pending are what the broker has of the queue: their durable
      messages are the open records, each exactly once. */
  ghost predicate Balanced(limit: int, next: int, held: seq<Msg>, pending: seq<Msg>, evs: seq<R.Event>, name: string) {
    && InOrder(evs) && next == |Published(evs)|
    && Marks(held, true, "") + Marks(pending, false, name) == multiset(Open(evs))
    && (forall i :: 0 <= i < |held| ==> Copies(held[i], limit, Published(evs)))
    && (forall i :: 0 <= i < |pending| && pending[i].queueName == name ==> Copies(pending[i], limit, Published(evs)))
  }

  lemma {:induction false} MarksConcat(a: seq<Msg>, b: seq<Msg>, all: bool, name: string)
    ensures Marks(a + b, all, name) == Marks(a, all, name) + Marks(b, all, name)
    decreases |b|
  {
    if b == [] {
      assert a + b == a;
    } else {
      assert (a + b)[..|a + b| - 1] == a + b[..|b| - 1];
      MarksConcat(a, b[..|b| - 1], all, name);
    }
  }

  function MarkOf(m: Msg, all: bool, name: string): multiset<int> {
    if Counts(m, all, name) then multiset{m.durableIndex} else multiset{}
  }

  lemma MarksInsert(a: seq<Msg>, m: Msg, b: seq<Msg>, all: bool, name: string)
    ensures Marks(a + [m] + b, all, name) == Marks(a + b, all, name) + MarkOf(m, all, name)
  {
    MarksConcat(a + [m], b, all, name);
    MarksConcat(a, [m], all, name);
    MarksConcat(a, b, all, name);
    assert [m][..0] == [];
    assert Marks([], all, name) == multiset{};
  }

  /** What both copies of a message say about its record. */
  predicate SameMark(m: Msg, m': Msg) {
    && m'.durable == m.durable
    && (m.durable ==> m'.durableIndex == m.durableIndex && m'.body == m.body && m'.priority == m.priority)
  }

  lemma InsertedElements(a: seq<Msg>, m: Msg, b: seq<Msg>)
    ensures forall x :: x in a + [m] + b <==> x in a + b || x == m
  {
  }

  /** As Balanced, with the elements instead of the positions. */
  lemma BalancedElements(limit: int, next: int, held: seq<Msg>, pending: seq<Msg>, evs: seq<R.Event>, name: string)
    ensures Balanced(limit, next, held, pending, evs, name) <==> (
      && InOrder(evs) && next == |Published(evs)|
      && Marks(held, true, "") + Marks(pending, false, name) == multiset(Open(evs))
      && (forall m :: m in held ==> Copies(m, limit, Published(evs)))
      && (forall m :: m in pending && m.queueName == name ==> Copies(m, limit, Published(evs))))
  {
    hide Copies, InOrder, Marks, Open;
  }

  lemma OpenAfterWrite(evs: seq<R.Event>, r: Record)
    requires InOrder(evs) && r.index == |Published(evs)|
    ensures multiset(Open(evs + [R.Write(r)])) == multiset(Open(evs)) + multiset{r.index}
  {
    OneMoreEvent(evs, R.Write(r));
    NumberedFromZero(evs);
    hide Published, Eaten, InOrder;
    var i := r.index;
    assert Open(evs + [R.Write(r)]) == Open(evs) + {i};
    assert i !in Open(evs);
  }

  lemma OpenAfterEat(evs: seq<R.Event>, i: int)
    requires i in Open(evs)
    ensures multiset(Open(evs + [R.Eat(i)])) == multiset(Open(evs)) - multiset{i}
  {
    OneMoreEvent(evs, R.Eat(i));
    hide Published, Eaten, InOrder;
    assert Open(evs + [R.Eat(i)]) == Open(evs) - {i};
  }

  /** Copies of records stay so when a record is added. */
  lemma StillCopies(limit: int, rs: seq<Record>, r: Record)
    ensures forall x :: Copies(x, limit, rs) ==> Copies(x, limit, rs + [r])
  {
  }

  /** A persistent message is stored and written. */
  lemma BalancedStore(limit: int, next: int, a: seq<Msg>, b: seq<Msg>, pending: seq<Msg>, evs: seq<R.Event>,
                      name: string, m: Msg, r: Record)
    requires Balanced(limit, next, a + b, pending, evs, name)
    requires m.durable && m.durableIndex == next == r.index && m.body == r.body && m.priority == Clamped(limit, r.priority)
    ensures Balanced(limit, next + 1, a + [m] + b, pending, evs + [R.Write(r)], name)
  {
    BalancedElements(limit, next, a + b, pending, evs, name);
    BalancedElements(limit, next + 1, a + [m] + b, pending, evs + [R.Write(r)], name);
    OneMoreEvent(evs, R.Write(r));
    OpenAfterWrite(evs, r);
    MarksInsert(a, m, b, true, "");
    InsertedElements(a, m, b);
    StillCopies(limit, Published(evs), r);
    assert Copies(m, limit, Published(evs) + [r]);
    hide Balanced, InOrder, Published, Open, Marks, Copies;
    var held := Marks(a + b, true, "");
    assert (held + multiset{m.durableIndex}) + Marks(pending, false, name)
        == (held + Marks(pending, false, name)) + multiset{m.durableIndex};
  }

  /** A message that is not durable comes and goes without a trace. */
  lemma BalancedLight(limit: int, next: int, a: seq<Msg>, b: seq<Msg>, pending: seq<Msg>, evs: seq<R.Event>,
                      name: string, m: Msg)
    requires !m.durable
    ensures Balanced(limit, next, a + b, pending, evs, name)
       <==> Balanced(limit, next, a + [m] + b, pending, evs, name)
  {
    BalancedElements(limit, next, a + b, pending, evs, name);
    BalancedElements(limit, next, a + [m] + b, pending, evs, name);
    MarksInsert(a, m, b, true, "");
    InsertedElements(a, m, b);
    hide Balanced, InOrder, Published, Open, Marks;
  }

  /** A held message becomes pending. */
  lemma BalancedHand(limit: int, next: int, a: seq<Msg>, b: seq<Msg>, pending: seq<Msg>, evs: seq<R.Event>,
                     name: string, m: Msg, m': Msg)
    requires Balanced(limit, next, a + [m] + b, pending, evs, name) && SameMark(m, m') && m'.queueName == name
    ensures Balanced(limit, next, a + b, pending + [m'], evs, name)
  {
    BalancedElements(limit, next, a + [m] + b, pending, evs, name);
    BalancedElements(limit, next, a + b, pending + [m'], evs, name);
    MarksInsert(a, m, b, true, "");
    MarksInsert(pending, m', [], false, name);
    assert pending + [m'] + [] == pending + [m'] && pending + [] == pending;
    InsertedElements(a, m, b);
    hide Balanced, InOrder, Published, Open, Marks;
    var x, y := Marks(a + b, true, ""), Marks(pending, false, name);
    var z := MarkOf(m, true, "");
    assert z == MarkOf(m', false, name);
    assert (x + z) + y == x + (y + z);
  }

  /** A pending message, or one handed out without ack, is consumed. */
  function EatIt(m: Msg): seq<R.Event> {
    if m.durable then [R.Eat(m.durableIndex)] else []
  }

  lemma TakeMark(x: multiset<int>, y: multiset<int>, i: int, s: set<int>)
    requires (x + multiset{i}) + y == multiset(s)
    ensures i in s && x + y == multiset(s) - multiset{i}
  {
    assert multiset(s)[i] >= 1;
    forall k
      ensures (x + y)[k] == (multiset(s) - multiset{i})[k]
    {
      assert ((x + multiset{i}) + y)[k] == x[k] + multiset{i}[k] + y[k];
    }
  }

  lemma BalancedEatHeld(limit: int, next: int, a: seq<Msg>, b: seq<Msg>, pending: seq<Msg>, evs: seq<R.Event>,
                        name: string, m: Msg)
    requires Balanced(limit, next, a + [m] + b, pending, evs, name)
    ensures Balanced(limit, next, a + b, pending, evs + EatIt(m), name)
  {
    if m.durable {
      BalancedElements(limit, next, a + [m] + b, pending, evs, name);
      BalancedElements(limit, next, a + b, pending, evs + EatIt(m), name);
      MarksInsert(a, m, b, true, "");
      InsertedElements(a, m, b);
      TakeMark(Marks(a + b, true, ""), Marks(pending, false, name), m.durableIndex, Open(evs));
      OneMoreEvent(evs, R.Eat(m.durableIndex));
      OpenAfterEat(evs, m.durableIndex);
      hide Balanced, InOrder, Published, Open, Marks;
    } else {
      BalancedLight(limit, next, a, b, pending, evs, name, m);
      assert evs + [] == evs;
    }
  }

  lemma BalancedEatPending(limit: int, next: int, held: seq<Msg>, c: seq<Msg>, d: seq<Msg>, evs: seq<R.Event>,
                           name: string, m: Msg)
    requires Balanced(limit, next, held, c + [m] + d, evs, name) && m.queueName == name
    ensures Balanced(limit, next, held, c + d, evs + EatIt(m), name)
  {
    BalancedElements(limit, next, held, c + [m] + d, evs, name);
    BalancedElements(limit, next, held, c + d, evs + EatIt(m), name);
    MarksInsert(c, m, d, false, name);
    InsertedElements(c, m, d);
    if m.durable {
      var x, y := Marks(c + d, false, name), Marks(held, true, "");
      assert y + (x + multiset{m.durableIndex}) == (x + multiset{m.durableIndex}) + y;
      TakeMark(x, y, m.durableIndex, Open(evs));
      OneMoreEvent(evs, R.Eat(m.durableIndex));
      OpenAfterEat(evs, m.durableIndex);
      assert y + x == x + y;
      hide Balanced, InOrder, Published, Open, Marks;
    } else {
      assert evs + [] == evs;
      hide Balanced, InOrder, Published, Open, Marks;
    }
  }

  /** Pending messages of other queues do not matter. */
  lemma BalancedOthers(limit: int, next: int, held: seq<Msg>, c: seq<Msg>, d: seq<Msg>, evs: seq<R.Event>,
                       name: string, m: Msg)
    requires m.queueName != name
    ensures Balanced(limit, next, held, c + [m] + d, evs, name) <==> Balanced(limit, next, held, c + d, evs, name)
  {
    BalancedElements(limit, next, held, c + [m] + d, evs, name);
    BalancedElements(limit, next, held, c + d, evs, name);
    MarksInsert(c, m, d, false, name);
    InsertedElements(c, m, d);
    hide Balanced, InOrder, Published, Open, Marks;
  }

  /** A pending message goes back to its queue. */
  lemma BalancedReturn(limit: int, next: int, a: seq<Msg>, b: seq<Msg>, c: seq<Msg>, d: seq<Msg>, evs: seq<R.Event>,
                       name: string, m: Msg, m': Msg)
    requires Balanced(limit, next, a + b, c + [m] + d, evs, name) && SameMark(m, m') && m.queueName == name
    ensures Balanced(limit, next, a + [m'] + b, c + d, evs, name)
  {
    BalancedElements(limit, next, a + b, c + [m] + d, evs, name);
    BalancedElements(limit, next, a + [m'] + b, c + d, evs, name);
    MarksInsert(a, m', b, true, "");
    MarksInsert(c, m, d, false, name);
    InsertedElements(a, m', b);
    InsertedElements(c, m, d);
    hide Balanced, InOrder, Published, Open, Marks;
    var x, y := Marks(a + b, true, ""), Marks(c + d, false, name);
    var z := MarkOf(m, false, name);
    assert z == MarkOf(m', true, "");
    assert (x + z) + y == x + (y + z);
  }
}
