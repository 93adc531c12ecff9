/** When a producer in single-ack mode is left waiting for ever: exactly for the
    numbers whose one and only ack was lost, unless a reply can be mistaken for
    it. And which numbers a run can lose. */
module LostAcks {
  import opened CommonDefs
  import opened FileNames
  import opened Exchanges
  import opened Broker
  import opened Dedup
  import opened ServerPacks
  import opened ProducerRuns

  /** The move serves the pack that makes the broker store the number, and its
      ack finds the queue full. */
  ghost predicate LosesAck(client: nat, w: World, m: Move, n: int) {
    && m.Serve? && m.lost && Enabled(client, w, m)
    && w.toBroker[0].seqNo == n && Stores(Run(w.events), EvPublish(w.toBroker[0], m.order))
  }

  /** Some move of the run from START did so. */
  ghost predicate AckWasLost(client: nat, moves: seq<Move>, n: int) {
    moves != [] &&
    (var front := moves[..|moves| - 1];
     AckWasLost(client, front, n) || LosesAck(client, Play(client, START, front), moves[|moves| - 1], n))
  }

  /** Nobody leaves whose number starts with the client's digits. */
  predicate Remembered(client: nat, moves: seq<Move>) {
    forall i :: 0 <= i < |moves| && moves[i].Else? ==> !Forgets(moves[i].e, client)
  }

  /** As long as the broker remembers the client, the number stays in the
      producer's list, whatever else happens. */
  ghost predicate Sticks(client: nat, w: World, n: int) {
    forall more :: Remembered(client, more) ==> n in Numbers(Play(client, w, more).waiting)
  }

  /** The broker has forgotten nothing of the client. */
  predicate RemembersAll(client: nat, w: World) {
    RemembersSince(w.events, 0, client)
  }

  /** What the loss of its ack means for a number. */
  ghost predicate Settled(client: nat, w: World, n: int, lost: bool) {
    && RemembersAll(client, w)
    && (lost ==> IsStored(client, w, n) && n in Numbers(w.waiting) && n !in w.acks)
    && (!lost && IsStored(client, w, n) && n in Numbers(w.waiting) ==> n in w.acks)
  }

  // ---------------------------------------------------------- each move

  lemma SendSettles(client: nat, w: World, m: Move, n: int, lost: bool)
    requires Good(client, w) && Settled(client, w, n, lost) && m.Send?
    ensures Settled(client, Next(client, w, m), n, lost)
  {
    hide Numbers, IsStored, RemembersSince;
    var w' := Next(client, w, m);
    SameEventsSameStored(client, w, w');
    assert w'.waiting == w.waiting + [w'.waiting[|w.waiting|]];
    NumbersMore(w.waiting, w'.waiting[|w.waiting|]);
  }

  lemma QuietSettles(client: nat, w: World, m: Move, n: int, lost: bool)
    requires Good(client, w) && Settled(client, w, n, lost) && (m.Misfit? || m.Resend?)
    ensures Settled(client, Next(client, w, m), n, lost)
  {
    hide Numbers, IsStored, RemembersSince;
    SameEventsSameStored(client, w, Next(client, w, m));
    if m.Resend? && |m.behind| <= |w.waiting| {
      NumbersRotate(w.waiting, |m.behind|);
    }
  }

  lemma HearSettles(client: nat, w: World, m: Move, n: int, lost: bool)
    requires Settled(client, w, n, lost) && m.Hear?
    ensures Settled(client, Next(client, w, m), n, lost)
  {
    hide Numbers, IsStored, RemembersSince, Unanswered;
    SameEventsSameStored(client, w, Next(client, w, m));
    if m.n <= |w.acks| {
      NumbersUnanswered(w.waiting, set a | a in w.acks[..m.n]);
      assert n in w.acks <==> n in w.acks[..m.n] || n in w.acks[m.n..];
    }
  }

  lemma ElseSettles(client: nat, w: World, m: Move, n: int, lost: bool)
    requires Good(client, w) && Settled(client, w, n, lost) && m.Else? && !Forgets(m.e, client)
    ensures Settled(client, Next(client, w, m), n, lost)
  {
    hide IsStored, Numbers, RemembersSince, Forgets;
    if Enabled(client, w, m) {
      OthersStoreNothingHere(client, w, m.e, Next(client, w, m));
      RemembersOneMore(w.events, m.e, 0, client);
    }
  }

  /** Of a client it remembers the broker takes a number for a repetition
      exactly when it has stored it. */
  lemma RepeatIffStored(client: nat, w: World, p: Publication)
    requires RemembersAll(client, w) && p.client == client && p.level == PRODUCER_SINGLE_ACK
    ensures IsRepeat(Run(w.events), p) <==> IsStored(client, w, p.seqNo)
  {
    hide Run, StoredAt, Forgets, IsRepeat;
    RepeatsAreRecognised(w.events, p);
    if IsStored(client, w, p.seqNo) {
      var i :| 0 <= i < |w.events| && StoredAt(w.events, i, client, p.seqNo);
      assert RemembersSince(w.events, i + 1, client);
    }
  }

  lemma ServeSettles(client: nat, w: World, m: Move, n: int, lost: bool)
    requires Good(client, w) && Settled(client, w, n, lost) && m.Serve? && Enabled(client, w, m) && !IsReplyNumber(n)
    ensures Settled(client, Next(client, w, m), n, lost || LosesAck(client, w, m, n))
  {
    hide IsStored, Numbers, Run, Step, Stores, NewAcks, RemembersSince, IsRepeat;
    var w', p := Next(client, w, m), w.toBroker[0];
    var e := EvPublish(p, m.order);
    assert Mine(client, w, p);
    AcksOfServing(client, Run(w.events), p, m.order);
    StoredOneMore(client, w, e, w');
    RemembersOneMore(w.events, e, 0, client);
    RepeatIffStored(client, w, p);
    assert n in w.acks ==> IsStored(client, w, n);
  }

  lemma MoveSettles(client: nat, w: World, m: Move, n: int, lost: bool)
    requires Good(client, w) && Settled(client, w, n, lost) && !IsReplyNumber(n)
    requires m.Else? ==> !Forgets(m.e, client)
    ensures Settled(client, Next(client, w, m), n, lost || LosesAck(client, w, m, n))
  {
    hide Good, Settled, Run, Stores, Forgets, IsReplyNumber;
    match m
    case Send(_, _, _, _, _) => SendSettles(client, w, m, n, lost);
    case Misfit => QuietSettles(client, w, m, n, lost);
    case Resend(_) => QuietSettles(client, w, m, n, lost);
    case Serve(_, _) =>
      if Enabled(client, w, m) {
        ServeSettles(client, w, m, n, lost);
      }
    case Hear(_) => HearSettles(client, w, m, n, lost);
    case Else(_) => ElseSettles(client, w, m, n, lost);
  }

  lemma RememberedFront(client: nat, moves: seq<Move>)
    requires Remembered(client, moves) && moves != []
    ensures Remembered(client, moves[..|moves| - 1])
    ensures var m := moves[|moves| - 1]; m.Else? ==> !Forgets(m.e, client)
  {
    hide Forgets;
  }

  lemma {:induction false} PlaySettles(client: nat, moves: seq<Move>, n: int)
    requires Remembered(client, moves) && !IsReplyNumber(n)
    ensures Settled(client, Play(client, START, moves), n, AckWasLost(client, moves, n))
    decreases |moves|
  {
    if moves != [] {
      hide Settled, Good, Next, LosesAck, Remembered, Forgets, IsReplyNumber;
      var front := moves[..|moves| - 1];
      RememberedFront(client, moves);
      PlaySettles(client, front, n);
      StartIsGood(client);
      PlayKeeps(client, START, front);
      MoveSettles(client, Play(client, START, front), moves[|moves| - 1], n, AckWasLost(client, front, n));
    }
  }

  // --------------------------------------------------- a lost ack is not made up

  /** A number that is stored and pending with no ack under way stays so in every
      continuation in which the broker remembers the client, unless a reply
      reads as that number: each resend is answered, but to nobody. */
  lemma {:induction false} LostAckIsNeverMadeUp(client: nat, w: World, moves: seq<Move>, n: int)
    requires Good(client, w) && RemembersAll(client, w) && !IsReplyNumber(n) && Remembered(client, moves)
    requires n in Numbers(w.waiting) && IsStored(client, w, n) && n !in w.acks
    ensures var v := Play(client, w, moves);
      n in Numbers(v.waiting) && IsStored(client, v, n) && n !in v.acks && RemembersAll(client, v)
    decreases |moves|
  {
    if moves != [] {
      hide Good, Next, LosesAck, IsStored, Numbers, Remembered, RemembersAll, IsReplyNumber, Forgets;
      var front := moves[..|moves| - 1];
      RememberedFront(client, moves);
      LostAckIsNeverMadeUp(client, w, front, n);
      PlayKeeps(client, w, front);
      MoveSettles(client, Play(client, w, front), moves[|moves| - 1], n, true);
    }
  }

  lemma NothingMore(client: nat, w: World)
    ensures Play(client, w, []) == w && Remembered(client, [])
  {
  }

  lemma PlayOne(client: nat, w: World, m: Move)
    ensures Play(client, w, [m]) == Next(client, w, m)
  {
    hide Next;
    assert [m][..0] == [];
    NothingMore(client, w);
  }

  lemma HearingAll(client: nat, w: World, n: int)
    requires n in w.acks
    ensures n !in Numbers(Next(client, w, Hear(|w.acks|)).waiting)
  {
    hide Numbers, Unanswered;
    assert w.acks[..|w.acks|] == w.acks;
    NumbersUnanswered(w.waiting, set a | a in w.acks);
  }

  // --------------------------------------------- a reply is mistaken for an ack

  lemma {:induction false} PlayConcat(client: nat, w: World, a: seq<Move>, b: seq<Move>)
    ensures Play(client, w, a + b) == Play(client, Play(client, w, a), b)
    decreases |b|
  {
    if b == [] {
      assert a + b == a;
    } else {
      hide Next;
      assert (a + b)[..|a + b| - 1] == a + b[..|b| - 1];
      PlayConcat(client, w, a, b[..|b| - 1]);
    }
  }

  lemma {:induction false} FreshName(keys: set<string>) returns (x: string)
    ensures forall k :: k in keys ==> |k| < |x|
    decreases keys
  {
    x := "e";
    if keys != {} {
      var k :| k in keys;
      var y := FreshName(keys - {k});
      x := if |k| < |y| then y else k + "e";
      forall j | j in keys
        ensures |j| < |x|
      {
        if j != k {
          assert j in keys - {k};
        }
      }
    }
  }

  /** Every pack under way is served, and the answers are lost. */
  lemma {:induction false} Drain(client: nat, w: World) returns (more: seq<Move>)
    requires Good(client, w)
    ensures var v := Play(client, w, more);
      && Remembered(client, more) && v.toBroker == [] && v.waiting == w.waiting
      && v.msgSeq == w.msgSeq && v.unsent == w.unsent && Run(v.events).exchanges == Run(w.events).exchanges
    decreases |w.toBroker|
  {
    hide Good, Run, Forgets;
    if w.toBroker == [] {
      more := [];
      NothingMore(client, w);
    } else {
      var order := WalkOver(Run(w.events), w.toBroker[0].exchange);
      var m := Serve(order, true);
      var w1 := Next(client, w, m);
      PlayOne(client, w, m);
      PlayKeeps(client, w, [m]);
      ServingKeepsExchanges(client, w, m);
      var rest := Drain(client, w1);
      more := [m] + rest;
      hide Play, Next;
      PlayConcat(client, w, [m], rest);
    }
  }

  lemma WalkOver(s: State, exchange: string) returns (order: seq<string>)
    ensures IsWalk(s, exchange, order)
  {
    order := [];
    if exchange in s.exchanges {
      order := SomeOrder(s.exchanges[exchange].bindings.Keys);
    }
  }

  lemma ServingKeepsExchanges(client: nat, w: World, m: Move)
    requires m.Serve? && Enabled(client, w, m)
    ensures Run(Next(client, w, m).events).exchanges == Run(w.events).exchanges
  {
    hide Run, Publish, IsWalk, NewAcks;
    var e := EvPublish(w.toBroker[0], m.order);
    RunOne(w.events, e);
    PublishKeepsRegistries(Run(w.events), e.p, e.order);
  }

  lemma RunOne(events: seq<Event>, e: Event)
    ensures Run(events + [e]) == Step(Run(events), e)
  {
    hide Step;
    assert (events + [e])[..|events|] == events;
  }

  /** Publishing to the exchange x, and hearing all answers. */
  ghost function PublishAndHear(client: nat, w: World, x: string): (more: seq<Move>)
    ensures Remembered(client, more)
  {
    var send, serve := Send(x, "", 0, false, []), Serve([], false);
    [send, serve, Hear(|Play(client, w, [send, serve]).acks|)]
  }

  /** The exchange is not there, or it has no binding, so that the reply reads
      as this number. */
  predicate Complains(s: State, x: string, number: int) {
    || (number == NO_EXCHANGE_NUMBER && x !in s.exchanges)
    || (number == NO_QUEUE_NUMBER && x in s.exchanges && s.exchanges[x].bindings == map[])
  }

  lemma PlayTwo(client: nat, w: World, a: Move, b: Move)
    ensures Play(client, w, [a, b]) == Next(client, Next(client, w, a), b)
  {
    hide Next;
    assert [a, b] == [a] + [b];
    PlayConcat(client, w, [a], [b]);
    PlayOne(client, w, a);
    PlayOne(client, Next(client, w, a), b);
  }

  lemma NewNumberIsNew(client: nat, w: World, p: Publication)
    requires Good(client, w) && p.client == client && p.seqNo == w.msgSeq && p.level == PRODUCER_SINGLE_ACK
    ensures !IsRepeat(Run(w.events), p) && !IsStored(client, w, w.msgSeq)
  {
    hide Run, StoredSinceExit, EverStored, Numbers, IsRepeat, IsReplyNumber;
    RepeatsAreRecognised(w.events, p);
    StoredSomeTime(w.events, client, w.msgSeq);
    assert !IsSent(w, w.msgSeq);
  }

  lemma StoredSomeTime(events: seq<Event>, client: int, seqNo: int)
    ensures StoredSinceExit(events, client, seqNo) ==> EverStored(events, client, seqNo)
  {
  }

  lemma GoesNowhere(s: State, p: Publication, number: int)
    requires Complains(s, p.exchange, number)
    ensures !Stores(s, EvPublish(p, []))
    ensures number == if p.exchange !in s.exchanges then NO_EXCHANGE_NUMBER else NO_QUEUE_NUMBER
    ensures IsWalk(s, p.exchange, [])
  {
    hide IsRepeat;
  }

  /** The new message is not stored, and what the producer reads in the reply
      takes that number out of its list, whosever it is. */
  lemma ComplaintFrees(client: nat, w: World, x: string, number: int)
    requires Good(client, w) && w.toBroker == [] && Complains(Run(w.events), x, number)
    ensures var v := Play(client, w, PublishAndHear(client, w, x));
      && number !in Numbers(v.waiting) && v.msgSeq == w.msgSeq + 1 && v.unsent == w.unsent
      && !IsStored(client, v, w.msgSeq)
  {
    hide Run, Numbers, IsStored, Step, Stores, NewAcks, Complains, IsRepeat, Unanswered, Good, IsWalk;
    var send, serve := Send(x, "", 0, false, []), Serve([], false);
    var p := Publication(client, x, "", 0, false, w.msgSeq, PRODUCER_SINGLE_ACK, []);
    var e, s := EvPublish(p, []), Run(w.events);
    PlayTwo(client, w, send, serve);
    var w2 := Next(client, Next(client, w, send), serve);
    NewNumberIsNew(client, w, p);
    AcksOfServing(client, s, p, []);
    GoesNowhere(s, p, number);
    assert w2.acks == w.acks + [number] && w2.events == w.events + [e];
    StoredOneMore(client, w, e, w2);
    var hear := Hear(|w2.acks|);
    HearingAll(client, w2, number);
    SameEventsSameStored(client, w2, Next(client, w2, hear));
    assert [send, serve, hear] == [send, serve] + [hear];
    PlayConcat(client, w, [send, serve], [hear]);
    PlayOne(client, w2, hear);
  }

  lemma ExchangeMade(client: nat, w: World, x: string)
    requires x !in Run(w.events).exchanges
    ensures var make := Else(EvCreateExchange(x, EXCHANGE_TYPE_FANOUT, false, false)); var v := Next(client, w, make);
      && !Forgets(make.e, client) && v == w.(events := v.events) && Complains(Run(v.events), x, NO_QUEUE_NUMBER)
  {
    RunOne(w.events, EvCreateExchange(x, EXCHANGE_TYPE_FANOUT, false, false));
    hide Run;
  }

  /** Wherever a run has come to, it can go on so that the producer takes a reply
      for the ack of either number. */
  lemma RunThatFrees(client: nat, w: World, number: int) returns (more: seq<Move>)
    requires Good(client, w) && IsReplyNumber(number)
    ensures Remembered(client, more)
    ensures var v := Play(client, w, more);
      && number !in Numbers(v.waiting) && v.msgSeq == w.msgSeq + 1 && v.unsent == w.unsent
      && !IsStored(client, v, w.msgSeq)
  {
    hide Good, Run, Numbers, IsStored, Next, Play, Forgets;
    var first := Drain(client, w);
    var w1 := Play(client, w, first);
    PlayKeeps(client, w, first);
    var x := FreshName(Run(w1.events).exchanges.Keys);
    var w2 := w1;
    more := first;
    if number == NO_QUEUE_NUMBER {
      var make := Else(EvCreateExchange(x, EXCHANGE_TYPE_FANOUT, false, false));
      ExchangeMade(client, w1, x);
      PlayOne(client, w1, make);
      PlayKeeps(client, w1, [make]);
      PlayConcat(client, w, first, [make]);
      w2 := Play(client, w1, [make]);
      more := first + [make];
    }
    ComplaintFrees(client, w2, x, number);
    var last := PublishAndHear(client, w2, x);
    PlayConcat(client, w, more, last);
    more := more + last;
  }

  /** A number that the broker has stored, of a client it remembers, sticks in
      the producer's list if and only if the ack of the very serve that stored
      it was lost and no reply reads as it. */
  lemma SticksIffItsAckWasLost(client: nat, moves: seq<Move>, n: int)
    requires Remembered(client, moves) && IsStored(client, Play(client, START, moves), n)
    ensures Sticks(client, Play(client, START, moves), n) <==> AckWasLost(client, moves, n) && !IsReplyNumber(n)
  {
    hide Good, IsStored, Numbers, AckWasLost, Next, Remembered, RemembersAll, IsReplyNumber;
    var w := Play(client, START, moves);
    StartIsGood(client);
    PlayKeeps(client, START, moves);
    NothingMore(client, w);
    if IsReplyNumber(n) {
      var more := RunThatFrees(client, w, n);
    } else {
      PlaySettles(client, moves, n);
      if AckWasLost(client, moves, n) {
        forall more | Remembered(client, more)
          ensures n in Numbers(Play(client, w, more).waiting)
        {
          LostAckIsNeverMadeUp(client, w, more, n);
        }
      } else if n in w.acks {
        HearOne(client, w, n);
      }
    }
  }

  lemma HearOne(client: nat, w: World, n: int)
    requires n in w.acks
    ensures Remembered(client, [Hear(|w.acks|)]) && n !in Numbers(Play(client, w, [Hear(|w.acks|)]).waiting)
  {
    hide Numbers, Next;
    HearingAll(client, w, n);
    PlayOne(client, w, Hear(|w.acks|));
  }

  // --------------------------------------------------- which numbers are safe

  /** The number is accounted for in every run. */
  ghost predicate Safe(client: nat, n: int) {
    forall moves :: var w := Play(client, START, moves);
      IsSent(w, n) ==> n in Numbers(w.waiting) || IsStored(client, w, n)
  }

  function Misfits(n: nat): seq<Move> {
    seq(n, _ => Misfit)
  }

  lemma {:induction false} AfterMisfits(client: nat, n: nat)
    ensures var w := Play(client, START, Misfits(n));
      w == START.(msgSeq := n, unsent := w.unsent) && forall m :: m in w.unsent ==> m < n
  {
    if n > 0 {
      assert Misfits(n)[..n - 1] == Misfits(n - 1);
      AfterMisfits(client, n - 1);
    }
  }

  /** No run loses a number that was sent if and only if it is not one of the two
      that the replies to failed publications read as. */
  lemma SafeIffNoReplyReadsSo(client: nat, n: int)
    ensures Safe(client, n) <==> !IsReplyNumber(n)
  {
    hide Good, IsStored, Numbers, Play;
    if IsReplyNumber(n) {
      var first := Misfits(n);
      AfterMisfits(client, n);
      var w := Play(client, START, first);
      StartIsGood(client);
      PlayKeeps(client, START, first);
      var more := RunThatFrees(client, w, n);
      PlayConcat(client, START, first, more);
      assert IsSent(Play(client, START, first + more), n);
    } else {
      hide IsReplyNumber;
      forall moves
        ensures var w := Play(client, START, moves);
          IsSent(w, n) ==> n in Numbers(w.waiting) || IsStored(client, w, n)
      {
        NothingLostNothingTwice(client, moves);
      }
    }
  }

  /** The plainest run that loses a number: its message names an exchange that is
      not there. */
  function LosingRun(): seq<Move> {
    Misfits(NO_EXCHANGE_NUMBER) + [Send("nope", "", 0, false, []), Serve([], false), Hear(1)]
  }

  lemma ANumberIsLost(client: nat)
    ensures var w := Play(client, START, LosingRun());
      && IsSent(w, NO_EXCHANGE_NUMBER) && NO_EXCHANGE_NUMBER !in Numbers(w.waiting)
      && !IsStored(client, w, NO_EXCHANGE_NUMBER)
  {
    hide Good, IsStored, Numbers, Play, Next, Misfits, Run;
    var first := Misfits(NO_EXCHANGE_NUMBER);
    AfterMisfits(client, NO_EXCHANGE_NUMBER);
    var w := Play(client, START, first);
    StartIsGood(client);
    PlayKeeps(client, START, first);
    NothingRun();
    ComplaintFrees(client, w, "nope", NO_EXCHANGE_NUMBER);
    OneAnswer(client, w);
    PlayConcat(client, START, first, PublishAndHear(client, w, "nope"));
  }

  lemma OneAnswer(client: nat, w: World)
    requires Good(client, w) && w.toBroker == [] && w.acks == [] && w.events == []
    ensures PublishAndHear(client, w, "nope") == [Send("nope", "", 0, false, []), Serve([], false), Hear(1)]
  {
    hide Run, Step, Stores, NewAcks, IsRepeat, Good;
    var p := Publication(client, "nope", "", 0, false, w.msgSeq, PRODUCER_SINGLE_ACK, []);
    NothingRun();
    PlayTwo(client, w, Send("nope", "", 0, false, []), Serve([], false));
    NewNumberIsNew(client, w, p);
    AcksOfServing(client, INITIAL, p, []);
    GoesNowhere(INITIAL, p, NO_EXCHANGE_NUMBER);
  }

  lemma NothingRun()
    ensures Run([]) == INITIAL
  {
  }

  // ------------------------------------------------------ a run that sticks

  /** A fanout exchange with one queue, one message, and a full queue to the
      connect server. */
  const STUCK_RUN := [
    Else(TWICE_RUN[0]), Else(TWICE_RUN[1]), Else(TWICE_RUN[2]),
    Send("e", "", 0, false, []), Serve(["k"], true)]

  function First(client: nat): Publication {
    Publication(client, "e", "", 0, false, 0, PRODUCER_SINGLE_ACK, [])
  }

  lemma ReadyIsReached()
    ensures var s := Run([TWICE_RUN[0], TWICE_RUN[1], TWICE_RUN[2]]); OneFanout(s) && s.stored == {}
  {
    hide Step, Run, OneFanout;
    var a, b, c := TWICE_RUN[0], TWICE_RUN[1], TWICE_RUN[2];
    NothingRun();
    RunOne([], a);
    RunOne([a], b);
    RunOne([a, b], c);
    OneFanoutIsMade();
    assert [] + [a] == [a] && [a] + [b] == [a, b] && [a, b] + [c] == [a, b, c];
  }

  lemma ReadyStores(client: nat, s: State)
    requires OneFanout(s) && s.stored == {}
    ensures Stores(s, EvPublish(First(client), ["k"])) && IsWalk(s, "e", ["k"])
  {
    hide SeqKey;
    assert ["k"][..0] == [];
    assert Find(s.exchanges["e"], "", ["k"]) == [] + [0];
  }

  lemma MovesOfRun(client: nat, w: World)
    ensures forall i :: 0 <= i < 3 ==> Next(client, w, STUCK_RUN[i]) == w.(events := w.events + [TWICE_RUN[i]])
    ensures w.msgSeq == 0 ==> Next(client, w, STUCK_RUN[3]).toBroker == w.toBroker + [First(client)]
    ensures Next(client, w, STUCK_RUN[3]).events == w.events
  {
  }

  lemma PlayedOneMore(client: nat, i: nat)
    requires i < 5
    ensures Play(client, START, STUCK_RUN[..i + 1]) == Next(client, Play(client, START, STUCK_RUN[..i]), STUCK_RUN[i])
  {
    hide Play, Next;
    PlayConcat(client, START, STUCK_RUN[..i], [STUCK_RUN[i]]);
    PlayOne(client, Play(client, START, STUCK_RUN[..i]), STUCK_RUN[i]);
    assert STUCK_RUN[..i] + [STUCK_RUN[i]] == STUCK_RUN[..i + 1];
  }

  lemma {:induction false} Prepared(client: nat, i: nat)
    requires i <= 3
    ensures Play(client, START, STUCK_RUN[..i]) == START.(events := seq(i, j requires 0 <= j < 3 => TWICE_RUN[j]))
  {
    hide Next;
    if i > 0 {
      hide Play;
      Prepared(client, i - 1);
      PlayedOneMore(client, i - 1);
      MovesOfRun(client, Play(client, START, STUCK_RUN[..i - 1]));
    }
  }

  lemma BeforeServing(client: nat)
    ensures var w := Play(client, START, STUCK_RUN[..4]);
      w.events == [TWICE_RUN[0], TWICE_RUN[1], TWICE_RUN[2]] && w.toBroker == [First(client)]
  {
    hide Play, Next;
    Prepared(client, 3);
    PlayedOneMore(client, 3);
    MovesOfRun(client, Play(client, START, STUCK_RUN[..3]));
  }

  /** Such a run exists: number 0 is stored, and its producer waits for ever. */
  lemma AProducerCanBeStuck(client: nat)
    ensures AckWasLost(client, STUCK_RUN, 0)
    ensures IsStored(client, Play(client, START, STUCK_RUN), 0) && Sticks(client, Play(client, START, STUCK_RUN), 0)
  {
    hide Run, Stores, Next, Play, OneFanout, Sticks, IsStored, Numbers, IsWalk;
    BeforeServing(client);
    ReadyIsReached();
    ReadyStores(client, Run([TWICE_RUN[0], TWICE_RUN[1], TWICE_RUN[2]]));
    assert STUCK_RUN[..|STUCK_RUN| - 1] == STUCK_RUN[..4];
    assert LosesAck(client, Play(client, START, STUCK_RUN[..4]), STUCK_RUN[4], 0);
    assert AckWasLost(client, STUCK_RUN, 0);
    hide AckWasLost;
    NothingLeft(client);
    PlaySettles(client, STUCK_RUN, 0);
    SticksIffItsAckWasLost(client, STUCK_RUN, 0);
  }

  lemma NothingLeft(client: nat)
    ensures Remembered(client, STUCK_RUN)
  {
  }
}
