/** What the broker gets of the packs that connect servers put on its ring: a
    pack longer than its buffer is never taken and nothing behind it is. */
module Intake {
  import opened Bytes
  import opened CommonDefs
  import opened Ring
  import opened RingProcesses
  import Framing
  import RingRuns

  predicate Fits(pack: seq<byte>) {
    |pack| <= MAX_CLINT_PACKAGE_LENGTH
  }

  predicate AllFit(packs: seq<seq<byte>>) {
    forall i :: 0 <= i < |packs| ==> Fits(packs[i])
  }

  /** The broker always asks with the same buffer. */
  predicate OneBuffer(ops: seq<Op>) {
    forall i :: 0 <= i < |ops| && ops[i].Get? ==> ops[i].capacity == MAX_CLINT_PACKAGE_LENGTH
  }

  /** The packs that were put on the ring, in order. */
  function Entered(ops: seq<Op>, outs: seq<Outcome>): seq<seq<byte>>
    requires |ops| == |outs|
  {
    if ops == [] then []
    else
      var n := |ops| - 1;
      Entered(ops[..n], outs[..n]) + (if ops[n].Put? && outs[n].code == SUCCESS then [ops[n].data] else [])
  }

  /** The packs that the broker got, in order. */
  function Got(ops: seq<Op>, outs: seq<Outcome>): seq<seq<byte>>
    requires |ops| == |outs|
  {
    if ops == [] then []
    else
      var n := |ops| - 1;
      Got(ops[..n], outs[..n]) + (if ops[n].Get? && outs[n].code == SUCCESS then [outs[n].bytes] else [])
  }

  lemma {:induction false} OutcomePerOp(len: nat, ops: seq<Op>)
    ensures |FifoRun(len, ops).1| == |ops|
    decreases |ops|
  {
    if ops != [] {
      OutcomePerOp(len, ops[..|ops| - 1]);
    }
  }

  /** Entered and Got of the sequential run. */
  function In(len: nat, ops: seq<Op>): seq<seq<byte>> {
    OutcomePerOp(len, ops);
    Entered(ops, FifoRun(len, ops).1)
  }

  function Out(len: nat, ops: seq<Op>): seq<seq<byte>> {
    OutcomePerOp(len, ops);
    Got(ops, FifoRun(len, ops).1)
  }

  lemma OneMoreOp(len: nat, ops: seq<Op>, op: Op)
    ensures var (cs, out) := FifoStep(len, FifoRun(len, ops).0, op);
      && FifoRun(len, ops + [op]).0 == cs
      && In(len, ops + [op]) == In(len, ops) + (if op.Put? && out.code == SUCCESS then [op.data] else [])
      && Out(len, ops + [op]) == Out(len, ops) + (if op.Get? && out.code == SUCCESS then [out.bytes] else [])
  {
    hide FifoStep;
    OutcomePerOp(len, ops);
    assert (ops + [op])[..|ops|] == ops;
    var outs := FifoRun(len, ops + [op]).1;
    assert outs[..|ops|] == FifoRun(len, ops).1;
  }

  lemma StepIsFifo(len: nat, cs: seq<seq<byte>>, op: Op)
    ensures var (cs', out) := FifoStep(len, cs, op);
      && (op.Put? ==> cs' == cs + (if out.code == SUCCESS then [op.data] else []))
      && (op.Get? ==> cs == (if out.code == SUCCESS then [out.bytes] else []) + cs')
      && (op.Get? && out.code == SUCCESS ==> |out.bytes| <= op.capacity)
      && (op.Get? && cs != [] ==> (out.code == SUCCESS <==> |cs[0]| <= op.capacity)
                                  && (out.code != SUCCESS ==> out.code == ERR_BUF_SMALL))
  {
  }

  /** What was put on the ring is what the broker got and what is still there,
      in order; and what it got fits its buffer. */
  lemma {:induction false} NothingSkipped(len: nat, ops: seq<Op>)
    requires OneBuffer(ops)
    ensures Out(len, ops) + FifoRun(len, ops).0 == In(len, ops)
    ensures AllFit(Out(len, ops))
    decreases |ops|
  {
    if ops != [] {
      hide FifoStep, FifoRun, In, Out;
      var front, op := ops[..|ops| - 1], ops[|ops| - 1];
      assert ops == front + [op];
      NothingSkipped(len, front);
      OneMoreOp(len, front, op);
      var held := FifoRun(len, front).0;
      StepIsFifo(len, held, op);
      var (held', out) := FifoStep(len, held, op);
      var put := if op.Put? && out.code == SUCCESS then [op.data] else [];
      var taken := if op.Get? && out.code == SUCCESS then [out.bytes] else [];
      hide OneBuffer;
      Conserved(Out(len, front), held, In(len, front), put, taken, held');
      FitsToo(Out(len, front), taken);
    }
  }

  lemma Conserved(got: seq<seq<byte>>, held: seq<seq<byte>>, all: seq<seq<byte>>, put: seq<seq<byte>>,
                  taken: seq<seq<byte>>, held': seq<seq<byte>>)
    requires got + held == all && held + put == taken + held'
    ensures (got + taken) + held' == all + put
  {
    assert (got + taken) + held' == got + (taken + held');
    assert got + (held + put) == (got + held) + put;
  }

  lemma FitsToo(got: seq<seq<byte>>, taken: seq<seq<byte>>)
    requires AllFit(got) && forall i :: 0 <= i < |taken| ==> |taken[i]| <= MAX_CLINT_PACKAGE_LENGTH
    ensures AllFit(got + taken)
  {
  }

  /** The next pack for the broker does not fit its buffer. */
  predicate Blocked(len: nat, ops: seq<Op>) {
    var held := FifoRun(len, ops).0;
    held != [] && !Fits(held[0])
  }

  /** From then on the broker is told only that its buffer is too small, which its
      loop neither counts nor stops at, and gets nothing, whatever arrives. */
  lemma {:induction false} BlockedForEver(len: nat, ops: seq<Op>, more: seq<Op>)
    requires OneBuffer(ops) && OneBuffer(more) && Blocked(len, ops)
    ensures Blocked(len, ops + more) && Out(len, ops + more) == Out(len, ops)
    ensures forall i :: 0 <= i < |more| && more[i].Get? ==>
      FifoStep(len, FifoRun(len, ops + more[..i]).0, more[i]).1.code == ERR_BUF_SMALL
    decreases |more|
  {
    if more == [] {
      assert ops + more == ops;
    } else {
      hide FifoStep, FifoRun, In, Out, Fits;
      var front, op := more[..|more| - 1], more[|more| - 1];
      BlockedForEver(len, ops, front);
      assert ops + more == (ops + front) + [op];
      OneMoreOp(len, ops + front, op);
      StepIsFifo(len, FifoRun(len, ops + front).0, op);
      TooLong(FifoRun(len, ops + front).0[0]);
      forall i | 0 <= i < |more| && more[i].Get?
        ensures FifoStep(len, FifoRun(len, ops + more[..i]).0, more[i]).1.code == ERR_BUF_SMALL
      {
        if i < |front| {
          assert front[..i] == more[..i] && front[i] == more[i];
        }
      }
    }
  }

  lemma TooLong(pack: seq<byte>)
    ensures Fits(pack) <==> |pack| <= MAX_CLINT_PACKAGE_LENGTH
  {
  }

  function Asking(n: nat): (ops: seq<Op>)
    ensures OneBuffer(ops)
  {
    seq(n, _ => Get(MAX_CLINT_PACKAGE_LENGTH))
  }

  /** As long as everything fits, asking once for each pack gets them all. */
  lemma {:induction false} AskingEmpties(len: nat, ops: seq<Op>, n: nat)
    requires n <= |FifoRun(len, ops).0| && AllFit(FifoRun(len, ops).0)
    ensures var held := FifoRun(len, ops).0;
      && FifoRun(len, ops + Asking(n)).0 == held[n..]
      && Out(len, ops + Asking(n)) == Out(len, ops) + held[..n]
      && In(len, ops + Asking(n)) == In(len, ops)
  {
    var held := FifoRun(len, ops).0;
    if n == 0 {
      assert ops + Asking(0) == ops && Out(len, ops) + [] == Out(len, ops);
    } else {
      hide FifoStep, FifoRun, In, Out;
      AskingEmpties(len, ops, n - 1);
      var so, ask := ops + Asking(n - 1), Get(MAX_CLINT_PACKAGE_LENGTH);
      assert ops + Asking(n) == so + [ask];
      OneMoreOp(len, so, ask);
      StepIsFifo(len, held[n - 1..], ask);
      assert held[n - 1..][0] == held[n - 1] && Fits(held[n - 1]);
      assert held[n - 1..] == [held[n - 1]] + held[n..] && held[..n] == held[..n - 1] + [held[n - 1]];
      assert (Out(len, ops) + held[..n - 1]) + [held[n - 1]] == Out(len, ops) + held[..n];
    }
  }

  /** The broker can still get everything that was put on the ring so far. */
  ghost predicate CanGetAll(len: nat, ops: seq<Op>) {
    exists more :: OneBuffer(more) && In(len, ops) <= Out(len, ops + more)
  }

  lemma {:induction false} EnteredGrows(len: nat, ops: seq<Op>, more: seq<Op>)
    ensures In(len, ops) <= In(len, ops + more)
    decreases |more|
  {
    if more == [] {
      assert ops + more == ops;
    } else {
      hide FifoStep, FifoRun, In;
      EnteredGrows(len, ops, more[..|more| - 1]);
      assert ops + more == (ops + more[..|more| - 1]) + [more[|more| - 1]];
      OneMoreOp(len, ops + more[..|more| - 1], more[|more| - 1]);
    }
  }

  lemma OneBufferTwice(a: seq<Op>, b: seq<Op>)
    requires OneBuffer(a) && OneBuffer(b)
    ensures OneBuffer(a + b)
  {
  }

  /** In every run of puts and the broker's gets, in whatever order they got the
      lock: the broker can get all packs put on the ring if and only if none of
      them is longer than its buffer. */
  lemma AllAreGotIffAllFit(len: nat, ops: seq<Op>)
    requires OneBuffer(ops)
    ensures CanGetAll(len, ops) <==> AllFit(In(len, ops))
  {
    hide FifoStep, FifoRun, In, Out, Fits;
    var held, packs := FifoRun(len, ops).0, In(len, ops);
    NothingSkipped(len, ops);
    if AllFit(packs) {
      forall i | 0 <= i < |held|
        ensures Fits(held[i])
      {
        assert held[i] == packs[|Out(len, ops)| + i];
      }
      AskingEmpties(len, ops, |held|);
      assert held[..|held|] == held;
      assert packs <= Out(len, ops + Asking(|held|));
    }
    if CanGetAll(len, ops) {
      var more :| OneBuffer(more) && packs <= Out(len, ops + more);
      OneBufferTwice(ops, more);
      NothingSkipped(len, ops + more);
      var got := Out(len, ops + more);
      assert forall i :: 0 <= i < |packs| ==> packs[i] == got[i];
    }
  }

  /** Such packs come through: framing passes any whole pack, and the ring takes
      it when there is room. */
  lemma LongPackBlocks(len: nat, pack: seq<byte>)
    requires Framing.WholePack(pack) && !Fits(pack) && |pack| + OVERHEAD <= len
    ensures Framing.Parse(pack) == ([pack], []) && Blocked(len, [Put(pack)])
  {
    Framing.NoPackInNothing();
    Framing.ParseOfPacks([pack], []);
    assert Framing.Join([pack]) + [] == pack by {
      assert [pack][1..] == [] && Framing.Join([]) == [];
    }
    assert [Put(pack)][..0] == [];
  }

  /** With any number of processes on the ring, whatever the schedule: what the
      broker was handed is the front of what was put, and fits. */
  lemma BrokerGetsTheFront(n: nat, queueSize: nat, schedule: seq<RingRuns.Action>)
    requires queueSize <= INT_MAX
    requires OneBuffer(RingRuns.Ops(RingRuns.Run(RingRuns.Start(n, queueSize), schedule).taken))
    ensures var m := RingRuns.Run(RingRuns.Start(n, queueSize), schedule);
      && |m.returned| <= |m.taken|
      && (var ops, outs := RingRuns.Ops(m.taken[..|m.returned|]), RingRuns.Outcomes(m.returned);
          Got(ops, outs) <= Entered(ops, outs) && AllFit(Got(ops, outs)))
  {
    hide RingRuns.Run, FifoRun, In, Out;
    RingRuns.RunsAreSequential(n, queueSize, schedule);
    var m := RingRuns.Run(RingRuns.Start(n, queueSize), schedule);
    var k := |m.returned|;
    var ops := RingRuns.Ops(m.taken[..k]);
    assert forall i :: 0 <= i < k ==> ops[i] == RingRuns.Ops(m.taken)[i];
    NothingSkipped(queueSize, ops);
    OfTheRun(queueSize, ops);
  }

  lemma OfTheRun(len: nat, ops: seq<Op>)
    ensures |FifoRun(len, ops).1| == |ops|
    ensures In(len, ops) == Entered(ops, FifoRun(len, ops).1) && Out(len, ops) == Got(ops, FifoRun(len, ops).1)
  {
  }

  /** A client's stream: its packs can all reach the broker exactly when none
      announces more than the broker's buffer holds. */
  lemma StreamIsGotIffAllFit(len: nat, ops: seq<Op>, stream: seq<byte>, client: int)
    requires OneBuffer(ops)
    requires Framing.AllLong(Framing.Parse(stream).0)
    requires In(len, ops) == Framing.StampAll(Framing.Parse(stream).0, client)
    ensures CanGetAll(len, ops) <==>
      forall p :: p in Framing.Parse(stream).0 ==> Framing.Announced(p) <= MAX_CLINT_PACKAGE_LENGTH
  {
    hide In, Out, FifoRun, Framing.Parse, Framing.Stamp, Framing.Announced;
    AllAreGotIffAllFit(len, ops);
    Framing.ParseSplits(stream);
    var packs := Framing.Parse(stream).0;
    forall i | 0 <= i < |packs|
      ensures |Framing.Stamp(packs[i], client)| == |packs[i]| == Framing.Announced(packs[i])
    {
      StampKeepsLength(packs[i], client);
    }
    assert forall i :: 0 <= i < |packs| ==> In(len, ops)[i] == Framing.Stamp(packs[i], client);
  }

  lemma StampKeepsLength(pack: seq<byte>, client: int)
    requires |pack| >= HEADER_SIZE
    ensures |Framing.Stamp(pack, client)| == |pack|
  {
  }
}
