/** Runs of N processes over one ring, for every schedule: the CAS word gives
    mutual exclusion, and every run is a sequential FIFO run in the order in
    which the lock was taken. */
module RingRuns {
  import opened Bytes
  import opened Ring
  import opened RingProcesses

  datatype Claim = Claim(pid: nat, op: Op)
  datatype Return = Return(pid: nat, outcome: Outcome)

  /** Shared memory, the processes, and two histories: the operations in the
      order in which they got the lock, and the results handed back. */
  datatype Machine = Machine(ring: RingState, used: int, procs: seq<Process>,
                             taken: seq<Claim>, returned: seq<Return>)

  datatype Action = Begin(pid: nat, op: Op) | Tick(pid: nat)

  /** One scheduled action; a process that does not exist or cannot act stays
      as it is, and a failed CAS only spins. */
  function Act(m: Machine, a: Action): (m': Machine)
    requires Shaped(m.ring)
    ensures Shaped(m'.ring) && m'.ring.len == m.ring.len && |m'.procs| == |m.procs|
  {
    if a.pid >= |m.procs| then m else
    var p := m.procs[a.pid];
    match a
    case Begin(pid, op) =>
      if p.Idle? then m.(procs := m.procs[pid := Spinning(op)]) else m
    case Tick(pid) =>
      if p.Idle? then m
      else if p.Spinning? then
        if m.used != 0 then m
        else m.(used := 1, procs := m.procs[pid := Entered(p.op)], taken := m.taken + [Claim(pid, p.op)])
      else if p.Leaving? then
        if m.used != 1 then m
        else m.(used := 0, procs := m.procs[pid := Idle], returned := m.returned + [Return(pid, p.outcome)])
      else
        var (p', ring') := Work(p, m.ring);
        m.(ring := ring', procs := m.procs[pid := p'])
  }

  function Run(m: Machine, schedule: seq<Action>): (m': Machine)
    requires Shaped(m.ring)
    ensures Shaped(m'.ring) && m'.ring.len == m.ring.len && |m'.procs| == |m.procs|
    decreases |schedule|
  {
    if schedule == [] then m else Act(Run(m, schedule[..|schedule| - 1]), schedule[|schedule| - 1])
  }

  function Start(n: nat, queueSize: nat): (m: Machine)
    ensures Shaped(m.ring)
  {
    Machine(RingState(queueSize, 0, 0, 0, Zeros(queueSize)), 0, seq(n, _ => Idle), [], [])
  }

  function Ops(claims: seq<Claim>): (ops: seq<Op>)
    ensures |ops| == |claims|
  {
    seq(|claims|, i requires 0 <= i < |claims| => claims[i].op)
  }

  function Outcomes(rs: seq<Return>): (outs: seq<Outcome>)
    ensures |outs| == |rs|
  {
    seq(|rs|, i requires 0 <= i < |rs| => rs[i].outcome)
  }

  /** The claims whose operations are over. */
  function Over(m: Machine): seq<Claim> {
    if |m.returned| <= |m.taken| then m.taken[..|m.returned|] else m.taken
  }

  function Held(m: Machine): seq<seq<byte>> {
    FifoRun(m.ring.len, Ops(Over(m))).0
  }

  /** Operations finish in the order in which they got the lock, with the
      results of the sequential queue. */
  ghost predicate InOrder(m: Machine) {
    && (m.used == 0 || m.used == 1)
    && |m.taken| == |m.returned| + m.used
    && (forall i :: 0 <= i < |m.returned| ==> m.returned[i].pid == m.taken[i].pid)
    && Outcomes(m.returned) == FifoRun(m.ring.len, Ops(Over(m))).1
  }

  /** The lock word says who is inside: nobody, or the last claimant only. */
  ghost predicate Exclusive(m: Machine)
    requires |m.taken| == |m.returned| + m.used
  {
    if m.used != 1 then
      && (forall p :: 0 <= p < |m.procs| ==> !InCritical(m.procs[p]))
      && Intact(m.ring, Held(m))
    else
      var c := m.taken[|m.returned|];
      && c.pid < |m.procs|
      && (forall p :: 0 <= p < |m.procs| && p != c.pid ==> !InCritical(m.procs[p]))
      && Doing(m.procs[c.pid], c.op, Held(m), m.ring)
  }

  ghost predicate Inv(m: Machine) {
    Shaped(m.ring) && InOrder(m) && Exclusive(m)
  }

  lemma StartInv(n: nat, queueSize: nat)
    requires queueSize <= INT_MAX
    ensures Inv(Start(n, queueSize))
  {
    var m := Start(n, queueSize);
    assert Ops(Over(m)) == [];
    assert Read(m.ring.mem, 0, 0) == [];
  }

  lemma FifoRunAppend(len: nat, ops: seq<Op>, op: Op)
    ensures FifoRun(len, ops + [op]).0 == FifoStep(len, FifoRun(len, ops).0, op).0
    ensures FifoRun(len, ops + [op]).1 == FifoRun(len, ops).1 + [FifoStep(len, FifoRun(len, ops).0, op).1]
  {
    assert (ops + [op])[..|ops|] == ops;
  }

  lemma ActKeepsInv(m: Machine, a: Action)
    requires Inv(m)
    ensures Inv(Act(m, a))
  {
    hide Doing, FifoRun, Work, Holds;
    var m' := Act(m, a);
    if a.pid < |m.procs| {
      var p := m.procs[a.pid];
      if a.Tick? && InCritical(p) {
        var c := m.taken[|m.returned|];
        assert c.pid == a.pid;
        if p.Leaving? {
          LeaveKeepsInv(m, a.pid);
        } else {
          WorkKeeps(p, c.op, Held(m), m.ring);
          assert Over(m') == Over(m);
        }
      } else if a.Tick? && p.Spinning? && m.used == 0 {
        assert Over(m') == Over(m);
        TakeLock(p.op, Held(m), m.ring);
      } else {
        assert Over(m') == Over(m);
        if m.used == 1 {
          var c := m.taken[|m.returned|];
          DoingIsCritical(m.procs[c.pid], c.op, Held(m), m.ring);
        }
      }
    }
  }

  lemma DoingIsCritical(p: Process, op: Op, cs: seq<seq<byte>>, r: RingState)
    requires Doing(p, op, cs, r)
    ensures InCritical(p)
    ensures !p.Scanning? && !p.Emptying?
  {
  }

  lemma TakeLock(op: Op, cs: seq<seq<byte>>, r: RingState)
    requires Shaped(r) && Intact(r, cs)
    ensures Doing(Entered(op), op, cs, r)
  {
  }

  lemma LeaveKeepsInv(m: Machine, pid: nat)
    requires Inv(m) && m.used == 1 && pid < |m.procs| && m.procs[pid].Leaving?
    requires m.taken[|m.returned|].pid == pid
    ensures Inv(Act(m, Tick(pid)))
  {
    hide FifoRun, FifoStep, Holds;
    var m', c := Act(m, Tick(pid)), m.taken[|m.returned|];
    assert Over(m') == Over(m) + [c];
    assert Ops(Over(m')) == Ops(Over(m)) + [c.op];
    FifoRunAppend(m.ring.len, Ops(Over(m)), c.op);
    assert Outcomes(m'.returned) == Outcomes(m.returned) + [m.procs[pid].outcome];
  }

  lemma {:induction false} RunKeepsInv(n: nat, queueSize: nat, schedule: seq<Action>)
    requires queueSize <= INT_MAX
    ensures Inv(Run(Start(n, queueSize), schedule))
    decreases |schedule|
  {
    if schedule == [] {
      StartInv(n, queueSize);
    } else {
      var prev := schedule[..|schedule| - 1];
      RunKeepsInv(n, queueSize, prev);
      ActKeepsInv(Run(Start(n, queueSize), prev), schedule[|schedule| - 1]);
    }
  }

  /** In every run at most one process is inside an operation. */
  lemma MutualExclusion(n: nat, queueSize: nat, schedule: seq<Action>, p: nat, q: nat)
    requires queueSize <= INT_MAX && p < n && q < n
    ensures var m := Run(Start(n, queueSize), schedule);
      InCritical(m.procs[p]) && InCritical(m.procs[q]) ==> p == q
  {
    RunKeepsInv(n, queueSize, schedule);
  }

  /** The CAS that gives the lock back succeeds at its first attempt. */
  lemma ReleaseSucceeds(n: nat, queueSize: nat, schedule: seq<Action>, p: nat)
    requires queueSize <= INT_MAX && p < n
    requires Run(Start(n, queueSize), schedule).procs[p].Leaving?
    ensures var m := Run(Start(n, queueSize), schedule);
      m.used == 1 && Act(m, Tick(p)).procs[p] == Idle && Act(m, Tick(p)).used == 0
  {
    RunKeepsInv(n, queueSize, schedule);
  }

  /** Every run hands back what the sequential FIFO hands back when it is given
      the same operations in the order in which the lock was taken, each result
      to the process that asked; when the lock is free the ring holds what that
      FIFO holds. */
  lemma RunsAreSequential(n: nat, queueSize: nat, schedule: seq<Action>)
    requires queueSize <= INT_MAX
    ensures var m := Run(Start(n, queueSize), schedule);
      && |m.returned| <= |m.taken| <= |m.returned| + 1
      && (forall i :: 0 <= i < |m.returned| ==> m.returned[i].pid == m.taken[i].pid)
      && Outcomes(m.returned) == FifoRun(queueSize, Ops(m.taken[..|m.returned|])).1
      && (m.used == 0 ==> Intact(m.ring, FifoRun(queueSize, Ops(m.taken)).0))
  {
    RunKeepsInv(n, queueSize, schedule);
    var m := Run(Start(n, queueSize), schedule);
    if m.used == 0 {
      assert m.taken[..|m.returned|] == m.taken;
    }
  }

  /** How many steps of its own the holder of the lock may still need. */
  function StepsLeft(p: Process): nat {
    match p
    case Entered(_) => 14
    case Copying(_, copies) => |copies| + 4
    case MovingTail(_) => 3
    case CountingUp => 2
    case FetchingHeader(_, todo, _) => |todo| + 11
    case FetchingBody(_, _, todo, _) => |todo| + 8
    case FetchingTrailer(_, todo, _) => |todo| + 5
    case MovingHead(_, _) => 4
    case CountingDown(_, _) => 2
    case Leaving(_) => 1
    case _ => 0
  }

  lemma WorkAdvances(p: Process, op: Op, cs: seq<seq<byte>>, r: RingState)
    requires Doing(p, op, cs, r) && !p.Leaving?
    ensures 1 <= StepsLeft(Work(p, r).0) < StepsLeft(p)
  {
    hide Holds, PokeAll, PeekAll, Header, LoadInt, Peek, Poke, Total, Splice;
    WorkKeeps(p, op, cs, r);
    var p', r' := Work(p, r).0, Work(p, r).1;
    DoingIsCritical(p', op, cs, r');
  }

  lemma NeverFar(p: Process, op: Op, cs: seq<seq<byte>>, r: RingState)
    requires Doing(p, op, cs, r)
    ensures StepsLeft(p) <= 14
  {
    hide Holds, PokeAll, PeekAll, Header, Intact, Total;
  }

  /** In every run the process inside an operation comes closer to giving the
      lock back with each of its steps, and is 14 steps away at most; it never
      scans and never empties the queue. */
  lemma HolderAdvances(n: nat, queueSize: nat, schedule: seq<Action>, p: nat)
    requires queueSize <= INT_MAX && p < n
    requires InCritical(Run(Start(n, queueSize), schedule).procs[p])
    ensures var m := Run(Start(n, queueSize), schedule);
      && !m.procs[p].Scanning? && !m.procs[p].Emptying?
      && StepsLeft(Act(m, Tick(p)).procs[p]) < StepsLeft(m.procs[p]) <= 14
  {
    hide Doing, Work, FifoRun, StepsLeft;
    RunKeepsInv(n, queueSize, schedule);
    var m := Run(Start(n, queueSize), schedule);
    var c := m.taken[|m.returned|];
    DoingIsCritical(m.procs[p], c.op, Held(m), m.ring);
    NeverFar(m.procs[p], c.op, Held(m), m.ring);
    LeavingIsLast(m.procs[p]);
    if !m.procs[p].Leaving? {
      WorkAdvances(m.procs[p], c.op, Held(m), m.ring);
    }
  }

  lemma LeavingIsLast(p: Process)
    ensures p.Leaving? ==> StepsLeft(p) == 1
    ensures StepsLeft(Idle) == 0
  {
  }
}
