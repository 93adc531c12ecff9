/** A producer in single-ack mode and the broker, over all runs: what is sent
    is pending or stored, but for two numbers that replies to failed
    publications are mistaken for, and nothing is stored twice unless the broker
    was made to forget it. */
module ProducerRuns {
  import Bytes
  import opened CommonDefs
  import opened Exchanges
  import opened Broker
  import opened Dedup
  import opened Producers
  import opened ServerPacks

  /** The producer's next number, the numbers used up by messages that could not
      be packed, the producer's list, the packs under way to the broker, the
      numbers that the packs under way to the producer read as, and the history
      of the broker. */
  datatype World = World(msgSeq: nat, unsent: set<int>, waiting: seq<Publication>, toBroker: seq<Publication>,
                         acks: seq<int>, events: seq<Event>)

  const START := World(0, {}, [], [], [], [])

  /** The producer publishes, tries to publish what does not fit in a pack, or
      sends its oldest messages again, with whatever the buffer held behind
      their names; the broker takes the next pack, its answer may find the queue
      full and be lost; the producer reads n answers; anything else happens to
      the broker, exits of other clients included. */
  datatype Move =
    | Send(exchange: string, key: string, priority: int, durable: bool, body: seq<Bytes.byte>)
    | Misfit
    | Resend(behind: seq<(string, string)>)
    | Serve(order: seq<string>, lost: bool)
    | Hear(n: nat)
    | Else(e: Event)

  /** A pack is served with a walk over all bindings of its exchange. */
  ghost predicate Enabled(client: nat, w: World, m: Move) {
    match m
    case Send(_, _, _, _, _) => true
    case Misfit => true
    case Resend(behind) => |behind| <= |w.waiting|
    case Serve(order, _) => w.toBroker != [] && IsWalk(Run(w.events), w.toBroker[0].exchange, order)
    case Hear(n) => n <= |w.acks|
    case Else(e) => OfOthers(client, e)
  }

  /** The client has no part in the event. */
  predicate OfOthers(client: nat, e: Event) {
    && (e.EvPublish? ==> e.p.client != client)
    && (e.EvSubscribe? || e.EvRecv? || e.EvExit? ==> e.client != client)
  }

  /** The numbers that the client reads in the packets. */
  function AcksFor(client: int, packets: seq<Packet>): seq<int> {
    if packets == [] then []
    else
      AcksFor(client, packets[..|packets| - 1])
        + (match packets[|packets| - 1]
           case ServerAck(c, n) => if c == client then [n] else []
           case Reply(c, succeed, text) => if c == client then [ReplyNumber(succeed, text)] else []
           case Deliver(_) => [])
  }

  function NewAcks(client: int, s: State, s': State): seq<int> {
    if |s.toConnect| <= |s'.toConnect| then AcksFor(client, s'.toConnect[|s.toConnect|..]) else []
  }

  function Unanswered(ps: seq<Publication>, acked: set<int>): (rest: seq<Publication>)
    ensures forall p :: p in rest <==> p in ps && p.seqNo !in acked
  {
    if ps == [] then []
    else
      var last := ps[|ps| - 1];
      Unanswered(ps[..|ps| - 1], acked) + (if last.seqNo in acked then [] else [last])
  }

  /** A message as the broker reads it when the names ran on. */
  function RunOn(p: Publication, behind: (string, string)): Publication {
    p.(exchange := p.exchange + behind.0, routingKey := p.routingKey + behind.1)
  }

  function OnWire(ps: seq<Publication>, behind: seq<(string, string)>): seq<Publication>
    requires |behind| <= |ps|
  {
    seq(|behind|, i requires 0 <= i < |behind| => RunOn(ps[i], behind[i]))
  }

  ghost function Next(client: nat, w: World, m: Move): World {
    if !Enabled(client, w, m) then w
    else
      match m
      case Send(exchange, key, priority, durable, body) =>
        var p := Publication(client, exchange, key, priority, durable, w.msgSeq, PRODUCER_SINGLE_ACK, body);
        w.(msgSeq := w.msgSeq + 1, waiting := w.waiting + [p], toBroker := w.toBroker + [p])
      case Misfit => w.(msgSeq := w.msgSeq + 1, unsent := w.unsent + {w.msgSeq})
      case Resend(behind) =>
        var n := |behind|;
        w.(toBroker := w.toBroker + OnWire(w.waiting, behind), waiting := w.waiting[n..] + w.waiting[..n])
      case Serve(order, lost) =>
        var e := EvPublish(w.toBroker[0], order);
        var s := Run(w.events);
        w.(toBroker := w.toBroker[1..], events := w.events + [e],
           acks := w.acks + (if lost then [] else NewAcks(client, s, Step(s, e))))
      case Hear(n) =>
        w.(acks := w.acks[n..], waiting := Unanswered(w.waiting, set a | a in w.acks[..n]))
      case Else(e) => w.(events := w.events + [e])
  }

  ghost function Play(client: nat, w: World, moves: seq<Move>): World {
    if moves == [] then w else Next(client, Play(client, w, moves[..|moves| - 1]), moves[|moves| - 1])
  }

  // ------------------------------------------------ the producer's methods

  /** ReSendMsg is the move Resend. */
  lemma ResendRotates(before: seq<Unacked>, after: seq<Unacked>, n: nat, now: int)
    requires Resent(before, after, n, now)
    ensures Packs(after) == Packs(before)[n..] + Packs(before)[..n]
  {
    var k := |before| - n;
    assert Packs(before)[..n] == Packs(before[..n]) && Packs(before)[n..] == Packs(before[n..]);
    assert after == after[..k] + after[k..];
    assert Packs(after) == Packs(after[..k]) + Packs(after[k..]);
  }

  /** RecvServerAck is the move Hear. */
  lemma {:induction false} HearErases(list: seq<Unacked>, acked: set<int>)
    ensures Packs(Without(list, acked)) == Unanswered(Packs(list), acked)
    decreases |list|
  {
    hide Packs;
    PacksOfNothing();
    if list != [] {
      var front, last := list[..|list| - 1], list[|list| - 1];
      HearErases(front, acked);
      assert list == front + [last];
      PacksMore(front, last);
      var w, ps := Without(front, acked), Packs(list);
      assert |ps| == |list| && ps[..|ps| - 1] == Packs(front) && ps[|ps| - 1] == last.p;
      PacksMore(w, last);
      assert w + [] == w && Packs(w) + [] == Packs(w);
    }
  }

  lemma PacksOfNothing()
    ensures Packs([]) == []
  {
  }

  lemma PacksMore(list: seq<Unacked>, u: Unacked)
    ensures Packs(list + [u]) == Packs(list) + [u.p] && |Packs(list)| == |list|
  {
  }

  // ------------------------------------------------------------- invariants

  function Numbers(ps: seq<Publication>): set<int> {
    set i | 0 <= i < |ps| :: ps[i].seqNo
  }

  lemma NumbersMember(ps: seq<Publication>, n: int) returns (i: nat)
    requires n in Numbers(ps)
    ensures i < |ps| && ps[i].seqNo == n
  {
    i :| 0 <= i < |ps| && ps[i].seqNo == n;
  }

  lemma NumbersMore(ps: seq<Publication>, p: Publication)
    ensures Numbers(ps + [p]) == Numbers(ps) + {p.seqNo}
  {
    forall n | n in Numbers(ps)
      ensures n in Numbers(ps + [p])
    {
      var i := NumbersMember(ps, n);
      assert (ps + [p])[i].seqNo == n;
    }
    assert (ps + [p])[|ps|] == p;
  }

  lemma NumbersRotate(ps: seq<Publication>, k: nat)
    requires k <= |ps|
    ensures Numbers(ps[k..] + ps[..k]) == Numbers(ps)
  {
    var qs := ps[k..] + ps[..k];
    forall n | n in Numbers(ps)
      ensures n in Numbers(qs)
    {
      var i := NumbersMember(ps, n);
      assert qs[if i < k then |ps| - k + i else i - k].seqNo == n;
    }
    forall n | n in Numbers(qs)
      ensures n in Numbers(ps)
    {
      var i := NumbersMember(qs, n);
      assert ps[if i < |ps| - k then k + i else i - (|ps| - k)].seqNo == n;
    }
  }

  lemma NumbersUnanswered(ps: seq<Publication>, acked: set<int>)
    ensures Numbers(Unanswered(ps, acked)) == Numbers(ps) - acked
  {
    var rest := Unanswered(ps, acked);
    forall n | n in Numbers(ps) - acked
      ensures n in Numbers(rest)
    {
      var i := NumbersMember(ps, n);
      assert ps[i] in rest;
      var j :| 0 <= j < |rest| && rest[j] == ps[i];
    }
    forall n | n in Numbers(rest)
      ensures n in Numbers(ps) - acked
    {
      var i := NumbersMember(rest, n);
      assert rest[i] in ps;
      var j :| 0 <= j < |ps| && ps[j] == rest[i];
    }
  }

  /** The number was given to a message that went out. */
  predicate IsSent(w: World, n: int) {
    0 <= n < w.msgSeq && n !in w.unsent
  }

  predicate Mine(client: nat, w: World, p: Publication) {
    p.client == client && p.level == PRODUCER_SINGLE_ACK && IsSent(w, p.seqNo)
  }

  /** The broker has stored it, now or earlier. */
  ghost predicate IsStored(client: nat, w: World, n: int) {
    EverStored(w.events, client, n)
  }

  ghost predicate Good(client: nat, w: World) {
    && (forall n :: n in w.unsent ==> n < w.msgSeq)
    && (forall n :: IsSent(w, n) ==> n in Numbers(w.waiting) || IsStored(client, w, n) || IsReplyNumber(n))
    && (forall n :: IsStored(client, w, n) ==> IsSent(w, n))
    && (forall i :: 0 <= i < |w.acks| ==> IsStored(client, w, w.acks[i]) || IsReplyNumber(w.acks[i]))
    && (forall i :: 0 <= i < |w.waiting| ==> Mine(client, w, w.waiting[i]))
    && (forall i :: 0 <= i < |w.toBroker| ==> Mine(client, w, w.toBroker[i]))
  }

  lemma PublishSends(s: State, p: Publication, order: seq<string>)
    ensures var s' := Publish(s, p, order);
      s'.toConnect == s.toConnect + (
        if IsRepeat(s, p) then [ServerAck(-1, p.seqNo)]
        else if Targets(s, p, order) == [] then [Reply(p.client, false, Complaint(s, p))]
        else if p.level == PRODUCER_SINGLE_ACK then [ServerAck(p.client, p.seqNo)]
        else [])
  {
    hide StoreAll, Targets, IsRepeat, Complaint;
    StoreAllSends(s, p, Targets(s, p, order));
  }

  lemma {:induction false} StoreAllSends(s: State, p: Publication, list: seq<nat>)
    ensures StoreAll(s, p, list).toConnect == s.toConnect
    decreases |list|
  {
    if list != [] {
      StoreAllSends(s, p, list[..|list| - 1]);
    }
  }

  /** What serving a pack makes the client read: its number exactly when it is
      stored by that, nothing for a repetition, which is acknowledged to nobody,
      and for a failed publication the number that the reply reads as. */
  lemma AcksOfServing(client: nat, s: State, p: Publication, order: seq<string>)
    requires p.client == client && p.level == PRODUCER_SINGLE_ACK
    ensures var e := EvPublish(p, order);
      NewAcks(client, s, Step(s, e))
      == if Stores(s, e) then [p.seqNo]
         else if IsRepeat(s, p) then []
         else if p.exchange !in s.exchanges then [NO_EXCHANGE_NUMBER] else [NO_QUEUE_NUMBER]
    ensures IsRepeat(s, p) ==> !Stores(s, EvPublish(p, order))
  {
    hide Publish, IsRepeat, Targets, Complaint, ReplyNumber;
    PublishSends(s, p, order);
    RepeatsGoNowhere(s, p, order);
    ComplaintsReadAs(s, p);
    var s' := Publish(s, p, order);
    var more := s'.toConnect[|s.toConnect|..];
    assert |more| <= 1;
    if |more| == 1 {
      assert more[..0] == [];
      assert AcksFor(client, more[..0]) == [];
    }
  }

  lemma SameEventsSameStored(client: nat, w: World, w': World)
    requires w'.events == w.events
    ensures forall n :: IsStored(client, w', n) <==> IsStored(client, w, n)
  {
  }

  lemma SendKeeps(client: nat, w: World, m: Move)
    requires Good(client, w) && m.Send?
    ensures Good(client, Next(client, w, m))
  {
    hide IsStored, Numbers;
    var w' := Next(client, w, m);
    SameEventsSameStored(client, w, w');
    assert w'.waiting == w.waiting + [w'.waiting[|w.waiting|]];
    NumbersMore(w.waiting, w'.waiting[|w.waiting|]);
  }

  lemma MisfitKeeps(client: nat, w: World)
    requires Good(client, w)
    ensures Good(client, Next(client, w, Misfit))
  {
    hide IsStored, Numbers;
    SameEventsSameStored(client, w, Next(client, w, Misfit));
  }

  lemma ResendKeeps(client: nat, w: World, m: Move)
    requires Good(client, w) && m.Resend?
    ensures Good(client, Next(client, w, m))
  {
    hide IsStored, Numbers;
    SameEventsSameStored(client, w, Next(client, w, m));
    if |m.behind| <= |w.waiting| {
      NumbersRotate(w.waiting, |m.behind|);
    }
  }

  lemma AckedIs(client: nat, w: World, n: int)
    requires Good(client, w) && n in w.acks
    ensures IsStored(client, w, n) || IsReplyNumber(n)
  {
    hide IsStored, Numbers, IsReplyNumber;
    var i :| 0 <= i < |w.acks| && w.acks[i] == n;
  }

  lemma HearKeeps(client: nat, w: World, m: Move)
    requires Good(client, w) && m.Hear?
    ensures Good(client, Next(client, w, m))
  {
    hide IsStored, Numbers, Unanswered, IsReplyNumber;
    var w' := Next(client, w, m);
    SameEventsSameStored(client, w, w');
    if m.n <= |w.acks| {
      NumbersUnanswered(w.waiting, set a | a in w.acks[..m.n]);
      forall n | IsSent(w', n)
        ensures n in Numbers(w'.waiting) || IsStored(client, w', n) || IsReplyNumber(n)
      {
        if n in w.acks[..m.n] {
          AckedIs(client, w, n);
        }
      }
      forall i | 0 <= i < |w'.acks|
        ensures IsStored(client, w', w'.acks[i]) || IsReplyNumber(w'.acks[i])
      {
        assert w'.acks[i] == w.acks[m.n + i];
      }
      forall i | 0 <= i < |w'.waiting|
        ensures Mine(client, w', w'.waiting[i])
      {
        assert w'.waiting[i] in w.waiting;
      }
    }
  }

  /** One more event: what it stores of the client. */
  lemma StoredOneMore(client: nat, w: World, e: Event, w': World)
    requires w'.events == w.events + [e]
    ensures forall n :: IsStored(client, w', n) <==> IsStored(client, w, n) || StoresAs(Run(w.events), e, client, n)
  {
    hide EverStored, StoresAs, Run;
    forall n
      ensures IsStored(client, w', n) <==> IsStored(client, w, n) || StoresAs(Run(w.events), e, client, n)
    {
      EverStoredOneMore(w.events, e, client, n);
    }
  }

  lemma ServeKeeps(client: nat, w: World, m: Move)
    requires Good(client, w) && m.Serve? && Enabled(client, w, m)
    ensures Good(client, Next(client, w, m))
  {
    hide Run, Step, Stores, NewAcks, IsStored, Numbers, IsRepeat;
    var w', p := Next(client, w, m), w.toBroker[0];
    var e, s := EvPublish(p, m.order), Run(w.events);
    assert Mine(client, w, p);
    AcksOfServing(client, s, p, m.order);
    StoredOneMore(client, w, e, w');
    forall i | 0 <= i < |w'.acks|
      ensures IsStored(client, w', w'.acks[i]) || IsReplyNumber(w'.acks[i])
    {
      if i < |w.acks| {
        assert w'.acks[i] == w.acks[i];
      } else {
        assert w'.acks[i] == NewAcks(client, s, Step(s, e))[0];
      }
    }
  }

  /** Nobody else's event stores a number of this client. */
  lemma OthersStoreNothingHere(client: nat, w: World, e: Event, w': World)
    requires OfOthers(client, e) && w'.events == w.events + [e]
    ensures forall n :: IsStored(client, w', n) <==> IsStored(client, w, n)
  {
    hide IsStored, Run, Stores;
    StoredOneMore(client, w, e, w');
    OnlyPublicationsStore(Run(w.events), e);
  }

  lemma ElseKeeps(client: nat, w: World, m: Move)
    requires Good(client, w) && m.Else? && Enabled(client, w, m)
    ensures Good(client, Next(client, w, m))
  {
    hide IsStored, Numbers, IsReplyNumber;
    OthersStoreNothingHere(client, w, m.e, Next(client, w, m));
  }

  lemma {:induction false} PlayKeeps(client: nat, w: World, moves: seq<Move>)
    requires Good(client, w)
    ensures Good(client, Play(client, w, moves))
    decreases |moves|
  {
    if moves != [] {
      var v, m := Play(client, w, moves[..|moves| - 1]), moves[|moves| - 1];
      PlayKeeps(client, w, moves[..|moves| - 1]);
      hide Good;
      if Enabled(client, v, m) {
        match m
        case Send(_, _, _, _, _) => SendKeeps(client, v, m);
        case Misfit => MisfitKeeps(client, v);
        case Resend(_) => ResendKeeps(client, v, m);
        case Serve(_, _) => ServeKeeps(client, v, m);
        case Hear(_) => HearKeeps(client, v, m);
        case Else(_) => ElseKeeps(client, v, m);
      }
    }
  }

  lemma StartIsGood(client: nat)
    ensures Good(client, START)
  {
  }

  // --------------------------------------------------------------- results

  /** In every run, whatever is lost or fails and whoever leaves: a number that
      was sent is pending at the producer or was stored by the broker, unless it
      is one of the two that replies read as; what is under way to the producer
      reads as a stored number or as one of the two; and between two stores of
      a number a client left whose number starts with the same digits. */
  lemma NothingLostNothingTwice(client: nat, moves: seq<Move>)
    ensures var w := Play(client, START, moves);
      && (forall n :: IsSent(w, n) && !IsReplyNumber(n) ==> n in Numbers(w.waiting) || IsStored(client, w, n))
      && (forall i :: 0 <= i < |w.acks| ==> IsStored(client, w, w.acks[i]) || IsReplyNumber(w.acks[i]))
      && (forall i, j, n :: 0 <= i < j < |w.events| && StoredAt(w.events, i, client, n) && StoredAt(w.events, j, client, n)
            ==> exists k :: i < k < j && Forgets(w.events[k], client))
  {
    StartIsGood(client);
    PlayKeeps(client, START, moves);
    var w := Play(client, START, moves);
    hide Play, Run, Numbers, IsStored, Forgets, Stores;
    forall i, j, n | 0 <= i < j < |w.events| && StoredAt(w.events, i, client, n) && StoredAt(w.events, j, client, n)
      ensures exists k :: i < k < j && Forgets(w.events[k], client)
    {
      OnlyPublicationsStore(Run(w.events[..i]), w.events[i]);
      StoredHaveLevel(Run(w.events[..j]), w.events[j]);
      if forall k :: i < k < j ==> !Forgets(w.events[k], client) {
        NeverStoredTwice(w.events, i, j);
      }
    }
  }

  lemma StoredHaveLevel(s: State, e: Event)
    ensures Stores(s, e) ==> e.EvPublish? && e.p.level > 0
  {
  }

  /** The publication is answered with a complaint. */
  predicate Fails(s: State, p: Publication, order: seq<string>) {
    !IsRepeat(s, p) && Targets(s, p, order) == []
  }

  /** No publication of the client is answered with a complaint. */
  ghost predicate NoneFails(client: nat, moves: seq<Move>) {
    moves == [] ||
    (var front, m := moves[..|moves| - 1], moves[|moves| - 1];
     var w := Play(client, START, front);
     && NoneFails(client, front)
     && (m.Serve? && !m.lost && Enabled(client, w, m) ==> !Fails(Run(w.events), w.toBroker[0], m.order)))
  }

  /** Every answer under way is an ack, and everything sent is accounted for. */
  ghost predicate AllAccounted(client: nat, w: World) {
    && (forall n :: IsSent(w, n) ==> n in Numbers(w.waiting) || IsStored(client, w, n))
    && (forall i :: 0 <= i < |w.acks| ==> IsStored(client, w, w.acks[i]))
  }

  lemma MoveAccounts(client: nat, w: World, m: Move)
    requires Good(client, w) && AllAccounted(client, w)
    requires m.Serve? && !m.lost && Enabled(client, w, m) ==> !Fails(Run(w.events), w.toBroker[0], m.order)
    ensures AllAccounted(client, Next(client, w, m))
  {
    hide IsStored, Numbers, Run, Step, Stores, NewAcks, Fails, Unanswered;
    var w' := Next(client, w, m);
    if Enabled(client, w, m) {
      match m
      case Send(_, _, _, _, _) =>
        SameEventsSameStored(client, w, w');
        assert w'.waiting == w.waiting + [w'.waiting[|w.waiting|]];
        NumbersMore(w.waiting, w'.waiting[|w.waiting|]);
      case Misfit => SameEventsSameStored(client, w, w');
      case Resend(behind) =>
        SameEventsSameStored(client, w, w');
        NumbersRotate(w.waiting, |behind|);
      case Serve(_, _) => ServeAccounts(client, w, m);
      case Hear(k) => HearAccounts(client, w, m);
      case Else(e) => OthersStoreNothingHere(client, w, e, w');
    }
  }

  lemma HearAccounts(client: nat, w: World, m: Move)
    requires AllAccounted(client, w) && m.Hear? && m.n <= |w.acks|
    ensures AllAccounted(client, Next(client, w, m))
  {
    hide IsStored, Numbers, Unanswered;
    var w' := Next(client, w, m);
    SameEventsSameStored(client, w, w');
    NumbersUnanswered(w.waiting, set a | a in w.acks[..m.n]);
    assert forall i :: 0 <= i < |w'.acks| ==> w'.acks[i] == w.acks[m.n + i];
    forall n | n in w.acks[..m.n]
      ensures IsStored(client, w, n)
    {
      var i :| 0 <= i < m.n && w.acks[i] == n;
    }
  }

  lemma NotFailed(s: State, p: Publication, order: seq<string>)
    requires p.level == PRODUCER_SINGLE_ACK && !Fails(s, p, order)
    ensures IsRepeat(s, p) || Stores(s, EvPublish(p, order))
  {
    hide Targets, IsRepeat;
  }

  lemma ServeAccounts(client: nat, w: World, m: Move)
    requires Good(client, w) && AllAccounted(client, w) && m.Serve? && Enabled(client, w, m)
    requires !m.lost ==> !Fails(Run(w.events), w.toBroker[0], m.order)
    ensures AllAccounted(client, Next(client, w, m))
  {
    hide IsStored, Numbers, Run, Step, Stores, NewAcks, Fails, IsRepeat;
    var w', p := Next(client, w, m), w.toBroker[0];
    var e, s := EvPublish(p, m.order), Run(w.events);
    assert Mine(client, w, p);
    AcksOfServing(client, s, p, m.order);
    StoredOneMore(client, w, e, w');
    if !m.lost {
      NotFailed(s, p, m.order);
    }
    forall i | 0 <= i < |w'.acks|
      ensures IsStored(client, w', w'.acks[i])
    {
      if i < |w.acks| {
        assert w'.acks[i] == w.acks[i];
      }
    }
  }

  /** In a run in which no publication of the client is answered with a
      complaint, every number that was sent is pending or was stored, the two
      included. */
  lemma {:induction false} NothingLostWithoutFailures(client: nat, moves: seq<Move>)
    requires NoneFails(client, moves)
    ensures AllAccounted(client, Play(client, START, moves))
    decreases |moves|
  {
    if moves != [] {
      hide Good, AllAccounted, Next, Fails;
      var front := moves[..|moves| - 1];
      NothingLostWithoutFailures(client, front);
      StartIsGood(client);
      PlayKeeps(client, START, front);
      MoveAccounts(client, Play(client, START, front), moves[|moves| - 1]);
    }
  }
}
