/** How the broker recognises repeated publications: the key "client#seq", when
    a key is found, and when it is lost. */
module Dedup {
  import opened CommonDefs
  import opened FileNames
  import opened MessageQueues
  import opened Exchanges
  import opened Broker

  // ----------------------------------------------------- keys are injective

  predicate IsDigit(c: char) {
    '0' <= c <= '9'
  }

  lemma {:induction false} DecimalIsDigits(n: nat)
    ensures forall i :: 0 <= i < |Decimal(n)| ==> IsDigit(Decimal(n)[i])
  {
    if n >= 10 {
      DecimalIsDigits(n / 10);
    }
  }

  lemma DecimalShape(a: nat)
    ensures var s := Decimal(a);
      (|s| == 1 <==> a < 10) && (a >= 10 ==> s[..|s| - 1] == Decimal(a / 10)) && s[|s| - 1] == "0123456789"[a % 10]
  {
  }

  lemma {:induction false} DecimalInjective(a: nat, b: nat)
    requires Decimal(a) == Decimal(b)
    ensures a == b
  {
    DecimalShape(a);
    DecimalShape(b);
    if a >= 10 {
      DecimalInjective(a / 10, b / 10);
    }
  }

  lemma SignTells(a: int)
    ensures ToString(a) != [] && (ToString(a)[0] == '-' <==> a < 0)
    ensures a < 0 ==> ToString(a)[1..] == Decimal(-a)
  {
    if a >= 0 {
      DecimalIsDigits(a);
    }
  }

  lemma ToStringInjective(a: int, b: int)
    requires ToString(a) == ToString(b)
    ensures a == b
  {
    SignTells(a);
    SignTells(b);
    if a < 0 {
      DecimalInjective(-a, -b);
    } else {
      DecimalInjective(a, b);
    }
  }

  lemma NoHashInNumbers(a: int)
    ensures '#' !in ToString(a)
  {
    DecimalIsDigits(if a < 0 then -a else a);
  }

  lemma HashAt(a: string, b: string)
    requires '#' !in a
    ensures (a + "#" + b)[|a|] == '#' && forall i :: 0 <= i < |a| ==> (a + "#" + b)[i] != '#'
  {
  }

  /** Different (client, number) pairs have different keys. */
  lemma KeysAreInjective(c: int, n: int, d: int, m: int)
    ensures SeqKey(c, n) == SeqKey(d, m) <==> c == d && n == m
  {
    if SeqKey(c, n) == SeqKey(d, m) {
      var a, b := ToString(c), ToString(d);
      NoHashInNumbers(c);
      NoHashInNumbers(d);
      HashAt(a, ToString(n));
      HashAt(b, ToString(m));
      assert |a| == |b|;
      assert a == SeqKey(c, n)[..|a|] && b == SeqKey(d, m)[..|b|];
      assert ToString(n) == SeqKey(c, n)[|a| + 1..] && ToString(m) == SeqKey(d, m)[|b| + 1..];
      ToStringInjective(c, d);
      ToStringInjective(n, m);
    }
  }

  lemma PrefixBeforeHash(a: string, b: string, p: string)
    requires '#' !in a && '#' !in p
    ensures p <= a + "#" + b <==> p <= a
  {
    var s := a + "#" + b;
    HashAt(a, b);
    assert |p| > |a| ==> p[|a|] != s[|a|];
    assert |p| <= |a| ==> s[..|p|] == a[..|p|];
  }

  /** The exit of client d makes the broker forget the keys of exactly those
      clients whose number starts with d's digits. */
  lemma ExitForgets(stored: set<string>, c: int, n: int, d: int)
    requires SeqKey(c, n) in stored
    ensures SeqKey(c, n) in Forget(stored, d) <==> !(ToString(d) <= ToString(c))
  {
    NoHashInNumbers(c);
    NoHashInNumbers(d);
    PrefixBeforeHash(ToString(c), ToString(n), ToString(d));
  }

  /** So client 10 is forgotten when client 1 leaves. */
  lemma ClientTenIsForgottenWithOne(stored: set<string>, n: int)
    requires SeqKey(10, n) in stored
    ensures SeqKey(10, n) !in Forget(stored, 1)
  {
    OneIsPrefixOfTen();
    ExitForgets(stored, 10, n, 1);
  }

  // ------------------------------------------------------- repeats over runs

  /** The publication is stored, and its key with it. */
  predicate Stores(s: State, e: Event) {
    e.EvPublish? && (e.p.level == PRODUCER_SINGLE_ACK || e.p.level == PRODUCER_MUTIL_ACK) && Targets(s, e.p, e.order) != []
  }

  lemma StepStores(s: State, e: Event)
    requires !e.EvExit?
    ensures Step(s, e).stored == s.stored + (if Stores(s, e) then {SeqKey(e.p.client, e.p.seqNo)} else {})
  {
    if e.EvPublish? {
      PublishStores(s, e);
    } else {
      OthersStoreNothing(s, e);
    }
  }

  lemma PublishStores(s: State, e: Event)
    requires e.EvPublish?
    ensures Publish(s, e.p, e.order).stored
         == s.stored + (if Stores(s, e) then {SeqKey(e.p.client, e.p.seqNo)} else {})
  {
    hide Targets, SeqKey, StoreAll, IsRepeat;
    StoreAllStored(s, e.p, Targets(s, e.p, e.order));
    RepeatsGoNowhere(s, e.p, e.order);
  }

  lemma OthersStoreNothing(s: State, e: Event)
    requires !e.EvPublish? && !e.EvExit?
    ensures Step(s, e).stored == s.stored
  {
    hide DropQueue, Pop, CanPop, Publish, ClientExit, Subscribe, Bind, NewQueue, Position;
    if e.EvDeleteQueue? {
      DropStored(s, e.name);
    }
  }

  lemma RepeatsGoNowhere(s: State, p: Publication, order: seq<string>)
    ensures IsRepeat(s, p) ==> Targets(s, p, order) == []
  {
  }

  lemma DropStored(s: State, name: string)
    ensures DeleteQueue(s, name).stored == s.stored
  {
  }

  lemma {:induction false} StoreAllStored(s: State, p: Publication, list: seq<nat>)
    ensures StoreAll(s, p, list).stored == s.stored
    decreases |list|
  {
    if list != [] {
      StoreAllStored(s, p, list[..|list| - 1]);
    }
  }

  predicate StoresAs(s: State, e: Event, client: int, seqNo: int) {
    Stores(s, e) && e.p.client == client && e.p.seqNo == seqNo
  }

  /** The exit of a client whose number starts with the same digits. */
  predicate Forgets(e: Event, client: int) {
    e.EvExit? && ToString(e.client) <= ToString(client)
  }

  /** The i-th event stores the client's number. */
  predicate StoredAt(events: seq<Event>, i: int, client: int, seqNo: int)
    requires 0 <= i < |events|
  {
    StoresAs(Run(events[..i]), events[i], client, seqNo)
  }

  /** No event from the i-th on makes the broker forget the client. */
  predicate RemembersSince(events: seq<Event>, i: int, client: int)
    requires 0 <= i <= |events|
  {
    forall j :: i <= j < |events| ==> !Forgets(events[j], client)
  }

  /** Some publication with this client and number was stored. */
  ghost predicate EverStored(events: seq<Event>, client: int, seqNo: int) {
    exists i :: 0 <= i < |events| && StoredAt(events, i, client, seqNo)
  }

  /** Some publication with this client and number was stored, and nobody left
      since whose number starts with the same digits. */
  ghost predicate StoredSinceExit(events: seq<Event>, client: int, seqNo: int) {
    exists i :: 0 <= i < |events| && StoredAt(events, i, client, seqNo) && RemembersSince(events, i + 1, client)
  }

  lemma ExitKeeps(s: State, e: Event, client: int, seqNo: int)
    requires e.EvExit?
    ensures SeqKey(client, seqNo) in Step(s, e).stored <==> SeqKey(client, seqNo) in s.stored && !Forgets(e, client)
  {
    hide SeqKey;
    ExitStored(s, e.client, e.order);
    if SeqKey(client, seqNo) in s.stored {
      ExitForgets(s.stored, client, seqNo, e.client);
    }
  }

  lemma ExitStored(s: State, client: int, order: seq<string>)
    ensures ClientExit(s, client, order).stored == Forget(s.stored, client)
  {
    hide GiveBackAll, ExitQueues, Forget, Kept;
    var s0 := s.(stored := Forget(s.stored, client));
    LeavingStored(s0, client, order);
    var s1 := ExitQueues(s0, client, order);
    GivingBackStored(s1, client, s1.needAck);
  }

  lemma {:induction false} LeavingStored(s: State, client: int, order: seq<string>)
    ensures ExitQueues(s, client, order).stored == s.stored
    decreases |order|
  {
    if order != [] {
      LeavingStored(s, client, order[..|order| - 1]);
      hide Unsubscribe, WithoutQueue, DropWaiting;
    }
  }

  lemma {:induction false} GivingBackStored(s: State, client: int, ms: seq<Msg>)
    ensures GiveBackAll(s, client, ms).stored == s.stored
    decreases |ms|
  {
    if ms != [] {
      GivingBackStored(s, client, ms[..|ms| - 1]);
      hide AddFront, FindQueue;
    }
  }

  /** One event: what it does to a key. */
  lemma KeyAfterStep(s: State, e: Event, client: int, seqNo: int)
    ensures SeqKey(client, seqNo) in Step(s, e).stored <==>
      (SeqKey(client, seqNo) in s.stored && !Forgets(e, client)) || StoresAs(s, e, client, seqNo)
  {
    hide SeqKey, Step, Stores;
    OnlyPublicationsStore(s, e);
    if e.EvExit? {
      ExitKeeps(s, e, client, seqNo);
    } else {
      StepStores(s, e);
      if e.EvPublish? {
        KeysAreInjective(e.p.client, e.p.seqNo, client, seqNo);
      }
    }
  }

  lemma OnlyPublicationsStore(s: State, e: Event)
    ensures Stores(s, e) ==> e.EvPublish?
  {
  }

  lemma StoredAtFront(events: seq<Event>, e: Event, i: nat, client: int, seqNo: int)
    requires i < |events|
    ensures StoredAt(events + [e], i, client, seqNo) <==> StoredAt(events, i, client, seqNo)
  {
    hide StoresAs, Run;
    assert (events + [e])[..i] == events[..i];
  }

  lemma StoredAtEnd(events: seq<Event>, e: Event, client: int, seqNo: int)
    ensures StoredAt(events + [e], |events|, client, seqNo) <==> StoresAs(Run(events), e, client, seqNo)
  {
    hide StoresAs, Run;
    assert (events + [e])[..|events|] == events;
  }

  lemma RemembersOneMore(events: seq<Event>, e: Event, i: nat, client: int)
    requires i <= |events|
    ensures RemembersSince(events + [e], i, client) <==> RemembersSince(events, i, client) && !Forgets(e, client)
  {
    hide Forgets;
    assert forall j :: i <= j < |events| ==> (events + [e])[j] == events[j];
    assert (events + [e])[|events|] == e;
  }

  lemma EverStoredOneMore(events: seq<Event>, e: Event, client: int, seqNo: int)
    ensures EverStored(events + [e], client, seqNo) <==>
      EverStored(events, client, seqNo) || StoresAs(Run(events), e, client, seqNo)
  {
    hide StoredAt, StoresAs, Run;
    StoredAtEnd(events, e, client, seqNo);
    forall i | 0 <= i < |events|
      ensures StoredAt(events + [e], i, client, seqNo) <==> StoredAt(events, i, client, seqNo)
    {
      StoredAtFront(events, e, i, client, seqNo);
    }
    if StoredAt(events + [e], |events|, client, seqNo) {
      assert EverStored(events + [e], client, seqNo);
    }
    if EverStored(events, client, seqNo) {
      var i :| 0 <= i < |events| && StoredAt(events, i, client, seqNo);
      assert StoredAt(events + [e], i, client, seqNo);
    }
  }

  lemma StoredSinceOneMore(events: seq<Event>, e: Event, client: int, seqNo: int)
    ensures StoredSinceExit(events + [e], client, seqNo) <==>
      (StoredSinceExit(events, client, seqNo) && !Forgets(e, client)) || StoresAs(Run(events), e, client, seqNo)
  {
    hide StoredAt, StoresAs, Run, RemembersSince, Forgets;
    var more, n := events + [e], |events|;
    StoredAtEnd(events, e, client, seqNo);
    forall i | 0 <= i < n
      ensures StoredAt(more, i, client, seqNo) <==> StoredAt(events, i, client, seqNo)
      ensures RemembersSince(more, i + 1, client) <==> RemembersSince(events, i + 1, client) && !Forgets(e, client)
    {
      StoredAtFront(events, e, i, client, seqNo);
      RemembersOneMore(events, e, i + 1, client);
    }
    NothingSince(more, client);
    if StoredAt(more, n, client, seqNo) {
      assert StoredSinceExit(more, client, seqNo);
    }
    if StoredSinceExit(events, client, seqNo) && !Forgets(e, client) {
      var i :| 0 <= i < n && StoredAt(events, i, client, seqNo) && RemembersSince(events, i + 1, client);
      assert StoredAt(more, i, client, seqNo) && RemembersSince(more, i + 1, client);
    }
  }

  lemma NothingSince(events: seq<Event>, client: int)
    ensures RemembersSince(events, |events|, client)
  {
  }

  lemma RunSplit(events: seq<Event>)
    requires events != []
    ensures var prev, e := events[..|events| - 1], events[|events| - 1];
      events == prev + [e] && Run(events) == Step(Run(prev), e)
  {
    hide Step;
  }

  /** Over every run, exits included: the broker has the key of a client and a
      number exactly when it stored them and no client has left since whose
      number starts with this client's digits. */
  lemma {:induction false} KeyIsStored(events: seq<Event>, client: int, seqNo: int)
    ensures SeqKey(client, seqNo) in Run(events).stored <==> StoredSinceExit(events, client, seqNo)
    decreases |events|
  {
    if events == [] {
      hide SeqKey;
    } else {
      hide SeqKey, StoresAs, Step, Run, StoredSinceExit, Forgets;
      var prev, e := events[..|events| - 1], events[|events| - 1];
      KeyIsStored(prev, client, seqNo);
      RunSplit(events);
      KeyAfterStep(Run(prev), e, client, seqNo);
      StoredSinceOneMore(prev, e, client, seqNo);
    }
  }

  /** Over every run, a publication with an ack level is taken for a repetition
      exactly when one with the same client and number was stored and the client
      was not forgotten since. */
  lemma RepeatsAreRecognised(events: seq<Event>, p: Publication)
    requires p.level > 0
    ensures IsRepeat(Run(events), p) <==> StoredSinceExit(events, p.client, p.seqNo)
  {
    hide SeqKey, StoredSinceExit, Run;
    KeyIsStored(events, p.client, p.seqNo);
  }

  /** Between two stores of the same client and number some client has left
      whose number starts with the same digits; without that the second
      publication creates no copy. */
  lemma NeverStoredTwice(events: seq<Event>, i: nat, j: nat)
    requires i < j < |events| && events[i].EvPublish? && events[j].EvPublish? && events[j].p.level > 0
    requires events[i].p.client == events[j].p.client && events[i].p.seqNo == events[j].p.seqNo
    requires Stores(Run(events[..i]), events[i])
    requires forall k :: i < k < j ==> !Forgets(events[k], events[i].p.client)
    ensures !Stores(Run(events[..j]), events[j])
    ensures var s, s' := Run(events[..j]), Run(events[..j + 1]);
      s'.queues == s.queues && s'.place == s.place && s'.nextAddr == s.nextAddr && s'.toPersis == s.toPersis
  {
    hide SeqKey, Stores, Run, Forgets;
    var before, p := events[..j], events[j].p;
    assert before[..i] == events[..i] && before[i] == events[i];
    assert StoredAt(before, i, p.client, p.seqNo);
    assert RemembersSince(before, i + 1, p.client);
    hide StoredAt, RemembersSince;
    assert StoredSinceExit(before, p.client, p.seqNo);
    RepeatsAreRecognised(before, p);
    RepeatChangesNothing(Run(before), events[j]);
    RunOneMore(events, j);
  }

  /** A repetition is acknowledged to client -1, and the connect server answers
      with an exit notice for it. That exit forgets nobody. */
  lemma NobodysExitForgetsNobody(client: nat, order: seq<string>)
    ensures !Forgets(EvExit(-1, order), client)
  {
    SignTells(-1);
    SignTells(client);
  }

  lemma RunOneMore(events: seq<Event>, j: nat)
    requires j < |events|
    ensures Run(events[..j + 1]) == Step(Run(events[..j]), events[j])
  {
    assert events[..j + 1][..j] == events[..j];
    hide Step;
  }

  lemma RepeatChangesNothing(s: State, e: Event)
    requires e.EvPublish? && IsRepeat(s, e.p)
    ensures !Stores(s, e)
    ensures var s' := Step(s, e);
      s'.queues == s.queues && s'.place == s.place && s'.nextAddr == s.nextAddr && s'.toPersis == s.toPersis
  {
    hide StoreAll, Find;
  }

  // --------------------------------------- a number that is stored twice

  const TWICE_RUN := [
    EvCreateExchange("e", EXCHANGE_TYPE_FANOUT, false, false),
    EvCreateQueue("q", 0, false, false), EvCreateBinding("e", "q", "k"),
    EvPublish(Publication(10, "e", "", 0, false, 0, PRODUCER_SINGLE_ACK, []), ["k"]),
    EvExit(1, []),
    EvPublish(Publication(10, "e", "", 0, false, 0, PRODUCER_SINGLE_ACK, []), ["k"])]

  /** The exchange and its one queue, and nothing else. */
  ghost predicate OneFanout(s: State) {
    && s.sub == map[] && s.unsub == map["q" := 0]
    && s.exchanges == map["e" := ExchangeState("e", EXCHANGE_TYPE_FANOUT, false, false, map["k" := [0]])]
  }

  lemma OneFanoutIsMade()
    ensures var s := Step(Step(Step(INITIAL, TWICE_RUN[0]), TWICE_RUN[1]), TWICE_RUN[2]);
      OneFanout(s) && s.stored == {}
  {
    var s1 := CreateExchange(INITIAL, "e", EXCHANGE_TYPE_FANOUT, false, false);
    var s2 := CreateQueue(s1, "q", 0, false, false);
    assert s2.unsub == map["q" := 0] && s2.sub == map[];
    var s3 := CreateBinding(s2, "e", "q", "k");
    assert s3.exchanges["e"].bindings == map["k" := [0]];
  }

  lemma FanoutStores(s: State, e: Event)
    requires OneFanout(s) && e == TWICE_RUN[3] && SeqKey(10, 0) !in s.stored
    ensures Stores(s, e) && OneFanout(Step(s, e)) && IsWalk(s, "e", ["k"])
  {
    hide SeqKey;
    assert ["k"][..0] == [];
    assert Find(s.exchanges["e"], "", ["k"]) == [] + [0];
    hide Find;
    PublishKeepsRegistries(s, e.p, e.order);
  }

  lemma PublishKeepsRegistries(s: State, p: Publication, order: seq<string>)
    ensures var s' := Publish(s, p, order); s'.sub == s.sub && s'.unsub == s.unsub && s'.exchanges == s.exchanges
  {
    hide StoreAll, Targets, SeqKey, IsRepeat, Complaint;
    StoreAllRegistries(s, p, Targets(s, p, order));
  }

  lemma {:induction false} StoreAllRegistries(s: State, p: Publication, list: seq<nat>)
    ensures var s' := StoreAll(s, p, list); s'.sub == s.sub && s'.unsub == s.unsub && s'.exchanges == s.exchanges
    decreases |list|
  {
    if list != [] {
      StoreAllRegistries(s, p, list[..|list| - 1]);
    }
  }

  lemma FanoutHasNoSubscriber(s: State)
    requires OneFanout(s)
    ensures s.sub == map[]
  {
  }

  lemma OneLeaves(s: State)
    requires OneFanout(s)
    ensures OneFanout(Step(s, TWICE_RUN[4])) && SeqKey(10, 0) !in Step(s, TWICE_RUN[4]).stored
  {
    hide SeqKey, Forgets, Forget;
    ExitKeeps(s, TWICE_RUN[4], 10, 0);
    OneIsPrefixOfTen();
    GivingBackKeepsRegistries(s.(stored := Forget(s.stored, 1)), 1, s.needAck);
    hide GiveBackAll, Kept;
  }

  lemma OneIsPrefixOfTen()
    ensures Forgets(TWICE_RUN[4], 10)
  {
    assert Decimal(1) == ['1'];
    assert ToString(10) == Decimal(1) + ['0'];
  }

  lemma {:induction false} GivingBackKeepsRegistries(s: State, client: int, ms: seq<Msg>)
    ensures var s' := GiveBackAll(s, client, ms); s'.sub == s.sub && s'.unsub == s.unsub && s'.exchanges == s.exchanges
    decreases |ms|
  {
    if ms != [] {
      GivingBackKeepsRegistries(s, client, ms[..|ms| - 1]);
      hide AddFront, FindQueue;
    }
  }

  /** So a number can be stored twice: client 1 leaves between the two
      publications of client 10 with the same number. All walks of the run are
      complete. */
  lemma ExitOfOneStoresTenTwice()
    ensures IsWalk(Run(TWICE_RUN[..3]), "e", ["k"]) && IsWalk(Run(TWICE_RUN[..5]), "e", ["k"])
    ensures Run(TWICE_RUN[..4]).sub == map[]
    ensures StoredAt(TWICE_RUN, 3, 10, 0) && StoredAt(TWICE_RUN, 5, 10, 0) && !RemembersSince(TWICE_RUN, 4, 10)
  {
    hide Step, SeqKey, Stores, OneFanout, IsWalk;
    var r := TWICE_RUN;
    assert r[..0] == [] && Run(r[..0]) == INITIAL;
    hide Run;
    RunOneMore(r, 0);
    RunOneMore(r, 1);
    RunOneMore(r, 2);
    RunOneMore(r, 3);
    RunOneMore(r, 4);
    OneFanoutIsMade();
    FanoutStores(Run(r[..3]), r[3]);
    OneLeaves(Run(r[..4]));
    FanoutStores(Run(r[..5]), r[5]);
    OneIsPrefixOfTen();
    FanoutHasNoSubscriber(Run(r[..4]));
    hide Forgets;
    assert Forgets(r[4], 10);
  }
}
