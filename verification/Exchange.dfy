/** Exchanges: bindings of keys to queues, and which queues a routing key
    selects. Queues are known by their identity. */
module Exchanges {
  import opened CommonDefs
  import opened Topic

  type QueueId = nat

  datatype ExchangeState = ExchangeState(name: string, kind: int, durable: bool, autoDel: bool,
                                         bindings: map<string, seq<QueueId>>)

  /** An order in which an unordered_map may be walked. */
  ghost predicate Enumerates(order: seq<string>, keys: set<string>) {
    && (forall i, j :: 0 <= i < j < |order| ==> order[i] != order[j])
    && (forall k :: k in keys <==> k in order)
  }

  /** CreateBinding: a key that is already bound keeps the queue it has. */
  function Bind(e: ExchangeState, key: string, q: QueueId): ExchangeState {
    if key in e.bindings then e else e.(bindings := e.bindings[key := [q]])
  }

  predicate Selects(e: ExchangeState, routingKey: string, key: string) {
    if e.kind == EXCHANGE_TYPE_DIRECT then key == routingKey
    else if e.kind == EXCHANGE_TYPE_FANOUT then true
    else e.kind == EXCHANGE_TYPE_TOPIC && Fits(routingKey, key)
  }

  predicate StartsWithHash(routingKey: string) {
    Words(routingKey) != [] && Words(routingKey)[0] == HASH
  }

  /** Which keys a routing key reaches: itself, all, or those that match it as a
      glob of words, none when it starts with `#`. */
  predicate Matches(kind: int, routingKey: string, key: string) {
    if kind == EXCHANGE_TYPE_DIRECT then key == routingKey
    else if kind == EXCHANGE_TYPE_FANOUT then true
    else kind == EXCHANGE_TYPE_TOPIC && !StartsWithHash(routingKey) && Glob(Words(routingKey), Words(key))
  }

  lemma SelectsMatching(e: ExchangeState, routingKey: string, key: string)
    ensures Selects(e, routingKey, key) <==> Matches(e.kind, routingKey, key)
  {
    hide Fits, Words, Glob;
    FitsIsGlobUnlessLeadingHash(routingKey);
  }

  /** The queues behind the selected keys, in the order of the walk. */
  function Find(e: ExchangeState, routingKey: string, order: seq<string>): seq<QueueId> {
    if order == [] then []
    else
      var key := order[|order| - 1];
      Find(e, routingKey, order[..|order| - 1])
        + (if key in e.bindings && Selects(e, routingKey, key) then e.bindings[key] else [])
  }

  function Others(list: seq<QueueId>, q: QueueId): seq<QueueId> {
    if list == [] then [] else (if list[0] == q then [] else [list[0]]) + Others(list[1..], q)
  }

  /** DeleteBindingQueue: a key goes when its list holds no other queue. */
  function DeleteBinding(e: ExchangeState, q: QueueId): ExchangeState {
    e.(bindings := map k | k in e.bindings && Others(e.bindings[k], q) != [] :: e.bindings[k])
  }

  /** Every key is bound to one queue. */
  predicate Singletons(e: ExchangeState) {
    forall k :: k in e.bindings ==> |e.bindings[k]| == 1
  }

  predicate RefersTo(e: ExchangeState, q: QueueId) {
    exists k :: k in e.bindings && q in e.bindings[k]
  }

  /** Lists stay singletons, and on singletons deletion is complete: exactly
      the keys bound to the queue go. */
  lemma BindingsStaySingle(e: ExchangeState, key: string, q: QueueId)
    requires Singletons(e)
    ensures Singletons(Bind(e, key, q)) && Singletons(DeleteBinding(e, q))
    ensures !RefersTo(DeleteBinding(e, q), q)
    ensures forall k :: k in DeleteBinding(e, q).bindings <==> k in e.bindings && e.bindings[k] != [q]
    ensures forall k :: k in DeleteBinding(e, q).bindings ==> DeleteBinding(e, q).bindings[k] == e.bindings[k]
  {
    forall k | k in e.bindings
      ensures Others(e.bindings[k], q) != [] <==> e.bindings[k] != [q]
    {
      OthersOfOne(e.bindings[k][0], q);
      assert e.bindings[k] == [e.bindings[k][0]];
    }
  }

  lemma OthersOfOne(p: QueueId, q: QueueId)
    ensures Others([p], q) == if p == q then [] else [p]
  {
    assert [p][1..] == [];
  }

  /** With a list of two queues the deletion would leave the deleted one. */
  lemma SharedKeyWouldKeepQueue(e: ExchangeState, key: string, p: QueueId, q: QueueId)
    requires key in e.bindings && e.bindings[key] == [p, q] && p != q
    ensures RefersTo(DeleteBinding(e, q), q)
  {
    assert [p, q][1..] == [q];
    assert key in DeleteBinding(e, q).bindings && q in DeleteBinding(e, q).bindings[key];
  }

  function Count(list: seq<QueueId>, q: QueueId): nat {
    if list == [] then 0 else Count(list[..|list| - 1], q) + (if list[|list| - 1] == q then 1 else 0)
  }

  lemma {:induction false} CountConcat(a: seq<QueueId>, b: seq<QueueId>, q: QueueId)
    ensures Count(a + b, q) == Count(a, q) + Count(b, q)
    decreases |b|
  {
    if b == [] {
      assert a + b == a;
    } else {
      assert (a + b)[..|a + b| - 1] == a + b[..|b| - 1];
      CountConcat(a, b[..|b| - 1], q);
    }
  }

  /** The selected keys of the walk that are bound to the queue. */
  function KeysOf(e: ExchangeState, routingKey: string, order: seq<string>, q: QueueId): set<string> {
    set k | k in order && k in e.bindings && Selects(e, routingKey, k) && e.bindings[k] == [q]
  }

  /** A queue is listed once for every selected key it is bound under,
      whatever the order of the walk. */
  lemma {:induction false} ListedOncePerKey(e: ExchangeState, routingKey: string, order: seq<string>, q: QueueId)
    requires Singletons(e)
    requires forall i, j :: 0 <= i < j < |order| ==> order[i] != order[j]
    ensures Count(Find(e, routingKey, order), q) == |KeysOf(e, routingKey, order, q)|
    decreases |order|
  {
    hide Selects;
    if order != [] {
      var front, key := order[..|order| - 1], order[|order| - 1];
      ListedOncePerKey(e, routingKey, front, q);
      assert order == front + [key] && key !in front;
      var rest := KeysOf(e, routingKey, front, q);
      if key in e.bindings && Selects(e, routingKey, key) {
        var p := e.bindings[key][0];
        assert e.bindings[key] == [p];
        CountConcat(Find(e, routingKey, front), [p], q);
        CountOne(p, q);
        assert KeysOf(e, routingKey, order, q) == if p == q then rest + {key} else rest;
      } else {
        CountConcat(Find(e, routingKey, front), [], q);
        assert KeysOf(e, routingKey, order, q) == rest;
      }
    }
  }

  lemma CountOne(p: QueueId, q: QueueId)
    ensures Count([p], q) == if p == q then 1 else 0
  {
    assert [p][..0] == [];
    assert Count([], q) == 0;
  }

  lemma {:induction false} FoundAreBound(e: ExchangeState, routingKey: string, order: seq<string>)
    ensures forall q :: q in Find(e, routingKey, order) ==> RefersTo(e, q)
  {
    hide Selects;
    if order != [] {
      FoundAreBound(e, routingKey, order[..|order| - 1]);
    }
  }

  /** Some selected key is bound to the queue. */
  ghost predicate Reaches(e: ExchangeState, routingKey: string, keys: set<string>, q: QueueId) {
    exists k :: k in keys && k in e.bindings && Selects(e, routingKey, k) && q in e.bindings[k]
  }

  /** Exactly the queues behind selected keys are found. */
  lemma {:induction false} FoundExactly(e: ExchangeState, routingKey: string, order: seq<string>, q: QueueId)
    ensures q in Find(e, routingKey, order) <==> Reaches(e, routingKey, (set k | k in order), q)
    decreases |order|
  {
    hide Selects;
    if order != [] {
      var front, key := order[..|order| - 1], order[|order| - 1];
      FoundExactly(e, routingKey, front, q);
      assert order == front + [key];
    }
  }

  /** The queue is bound under a key that the routing key reaches. */
  ghost predicate Routed(e: ExchangeState, routingKey: string, q: QueueId) {
    exists k :: k in e.bindings && q in e.bindings[k] && Matches(e.kind, routingKey, k)
  }

  /** A complete walk finds exactly the queues a message is to go to. */
  lemma FoundAreRouted(e: ExchangeState, routingKey: string, order: seq<string>)
    requires Enumerates(order, e.bindings.Keys)
    ensures forall q :: q in Find(e, routingKey, order) <==> Routed(e, routingKey, q)
  {
    hide Find, Selects, Matches;
    assert (set k | k in order) == e.bindings.Keys;
    forall q
      ensures q in Find(e, routingKey, order) <==> Routed(e, routingKey, q)
    {
      FoundExactly(e, routingKey, order, q);
      forall k
        ensures Selects(e, routingKey, k) <==> Matches(e.kind, routingKey, k)
      {
        SelectsMatching(e, routingKey, k);
      }
    }
  }

  lemma {:induction false} SomeOrder(keys: set<string>) returns (order: seq<string>)
    ensures Enumerates(order, keys)
    decreases keys
  {
    order := [];
    if keys != {} {
      var k :| k in keys;
      var rest := SomeOrder(keys - {k});
      order := rest + [k];
    }
  }

  /** A direct exchange looks its routing key up. */
  lemma {:induction false} DirectIsLookup(e: ExchangeState, routingKey: string, order: seq<string>)
    requires e.kind == EXCHANGE_TYPE_DIRECT
    requires forall i, j :: 0 <= i < j < |order| ==> order[i] != order[j]
    ensures Find(e, routingKey, order)
         == if routingKey in e.bindings && routingKey in order then e.bindings[routingKey] else []
    decreases |order|
  {
    if order != [] {
      var front, key := order[..|order| - 1], order[|order| - 1];
      DirectIsLookup(e, routingKey, front);
      assert order == front + [key] && key !in front;
    }
  }

  /** The body of FindBindingQueue: a look-up, or a walk over all keys, each
      once. */
  method FindBound(e: ExchangeState, routingKey: string) returns (found: seq<QueueId>, ghost order: seq<string>)
    ensures Enumerates(order, e.bindings.Keys)
    ensures found == Find(e, routingKey, order)
    ensures forall q :: q in found <==> Routed(e, routingKey, q)
  {
    hide Fits, Routed;
    found, order := [], [];
    if e.kind == EXCHANGE_TYPE_DIRECT {
      order := SomeOrder(e.bindings.Keys);
      DirectIsLookup(e, routingKey, order);
      if routingKey in e.bindings {
        found := e.bindings[routingKey];
      }
      FoundAreRouted(e, routingKey, order);
      return;
    }
    var todo := e.bindings.Keys;
    while todo != {}
      invariant todo <= e.bindings.Keys
      invariant forall i, j :: 0 <= i < j < |order| ==> order[i] != order[j]
      invariant forall k :: k in order <==> k in e.bindings.Keys - todo
      invariant found == Find(e, routingKey, order)
    {
      var key :| key in todo;
      assert key !in order;
      todo := todo - {key};
      var fits := false;
      if e.kind == EXCHANGE_TYPE_FANOUT {
        fits := true;
      } else if e.kind == EXCHANGE_TYPE_TOPIC {
        fits := IsFit(routingKey, key);
      }
      ghost var before := order;
      order := order + [key];
      assert order[..|order| - 1] == before;
      if fits {
        found := found + e.bindings[key];
      }
      forall k
        ensures k in order <==> k in e.bindings.Keys - todo
      {
        assert k in order <==> k in before || k == key;
      }
    }
    FoundAreRouted(e, routingKey, order);
  }

  // ------------------------------------------------------------ the class

  class Exchange {
    var name: string
    var kind: int
    var durable: bool
    var autoDel: bool
    var bindingQueues: map<string, seq<QueueId>>

    function State(): ExchangeState
      reads this
    {
      ExchangeState(name, kind, durable, autoDel, bindingQueues)
    }

    constructor (name: string, kind: int, durable: bool, autoDel: bool)
      ensures State() == ExchangeState(name, kind, durable, autoDel, map[])
    {
      this.name, this.kind, this.durable, this.autoDel := name, kind, durable, autoDel;
      bindingQueues := map[];
    }

    /** The branch for a bound key works on a copy of the list. */
    method CreateBinding(key: string, q: QueueId)
      modifies this`bindingQueues
      ensures State() == Bind(old(State()), key, q)
    {
      if key in bindingQueues {
        var queueList := bindingQueues[key];
        var i := 0;
        while i < |queueList| && queueList[i] != q {
          i := i + 1;
        }
        if i == |queueList| {
          queueList := queueList + [q];
        }
      } else {
        bindingQueues := bindingQueues[key := [q]];
      }
    }

    method FindBindingQueue(routingKey: string) returns (found: seq<QueueId>, ghost order: seq<string>)
      ensures Enumerates(order, bindingQueues.Keys)
      ensures found == Find(State(), routingKey, order)
      ensures forall q :: q in found <==> Routed(State(), routingKey, q)
    {
      found, order := FindBound(State(), routingKey);
    }

    method DeleteBindingQueue(q: QueueId)
      modifies this`bindingQueues
      ensures State() == DeleteBinding(old(State()), q)
    {
      ghost var before := bindingQueues;
      var todo := bindingQueues.Keys;
      while todo != {}
        invariant todo <= bindingQueues.Keys <= before.Keys
        invariant forall k :: k in bindingQueues <==> k in before && (k in todo || Others(before[k], q) != [])
        invariant forall k :: k in bindingQueues ==> bindingQueues[k] == before[k]
        decreases todo
      {
        var key :| key in todo;
        todo := todo - {key};
        var queueList := EraseAll(bindingQueues[key], q);
        if queueList == [] {
          bindingQueues := bindingQueues - {key};
        }
      }
    }

    /** The loop that erases the queue from a copy of one list. */
    method EraseAll(list: seq<QueueId>, q: QueueId) returns (kept: seq<QueueId>)
      ensures kept == Others(list, q)
    {
      kept := [];
      var i := 0;
      while i < |list|
        invariant 0 <= i <= |list|
        invariant kept + Others(list[i..], q) == Others(list, q)
      {
        assert list[i..][1..] == list[i + 1..];
        if list[i] != q {
          kept := kept + [list[i]];
        }
        i := i + 1;
      }
      assert list[i..] == [];
    }
  }
}
