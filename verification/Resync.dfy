/** The recovery scan of Dequeue: when the oldest block carries a wrong index,
    the scan looks for six trailer bytes in a row from the start of its body. */
module Resync {
  import opened Bytes
  import opened Ring

  /** The six bytes before position p are all trailer bytes. */
  predicate EndsRun(s: seq<byte>, p: nat)
    requires p <= |s|
  {
    p >= TRAILER_SIZE && s[p - TRAILER_SIZE..p] == TRAILER
  }

  /** Where the first run at or behind position p ends, or -1. */
  function RunEndFrom(s: seq<byte>, p: nat): (q: int)
    requires p <= |s|
    ensures q == -1 || (p <= q <= |s| && EndsRun(s, q))
    ensures forall r :: p <= r < (if q == -1 then |s| + 1 else q) ==> !EndsRun(s, r)
    decreases |s| - p
  {
    if EndsRun(s, p) then p else if p == |s| then -1 else RunEndFrom(s, p + 1)
  }

  /** How far behind the start of a body the scan stops. */
  function ScanLength(body: seq<byte>): (n: nat)
    ensures TRAILER_SIZE <= n <= |body| + TRAILER_SIZE
    ensures EndsRun(body + TRAILER, n)
    ensures forall r :: 0 <= r < n ==> !EndsRun(body + TRAILER, r)
  {
    var s := body + TRAILER;
    assert s[|s| - TRAILER_SIZE..|s|] == TRAILER;
    assert EndsRun(s, |s|);
    RunEndFrom(s, 0)
  }

  /** A body the scan cannot mistake for a trailer. */
  predicate Clean(body: seq<byte>) {
    && (body != [] ==> body[|body| - 1] != TAIL_FLAG)
    && forall p :: 0 <= p <= |body| ==> !EndsRun(body, p)
  }

  /** The scan stops at the next block exactly for clean bodies. */
  lemma ScanFindsNextBlock(body: seq<byte>)
    ensures ScanLength(body) == |body| + TRAILER_SIZE <==> Clean(body)
  {
    var s, n := body + TRAILER, |body|;
    forall p | 0 <= p <= n
      ensures EndsRun(body, p) <==> EndsRun(s, p)
    {
      if p >= TRAILER_SIZE {
        assert s[p - TRAILER_SIZE..p] == body[p - TRAILER_SIZE..p];
      }
    }
    if n > 0 && body[n - 1] == TAIL_FLAG {
      assert s[n - 1..n + 5] == TRAILER;
      assert EndsRun(s, n + 5);
    } else {
      forall p | n < p < n + TRAILER_SIZE
        ensures !EndsRun(s, p)
      {
        if p >= TRAILER_SIZE && n > 0 {
          assert s[p - TRAILER_SIZE..p][n - 1 - (p - TRAILER_SIZE)] == body[n - 1];
        }
      }
    }
  }

  lemma TrailerEndsRun(body: seq<byte>)
    ensures EndsRun(body + TRAILER, |body| + TRAILER_SIZE)
  {
    assert (body + TRAILER)[|body|..] == TRAILER;
  }

  /** What the counter of the scan says about the position it has reached. */
  lemma RunEndsAt(s: seq<byte>, p: nat, count: nat)
    requires count <= p <= |s| && count <= TRAILER_SIZE
    requires forall k :: p - count <= k < p ==> s[k] == TAIL_FLAG
    requires count < TRAILER_SIZE && count < p ==> s[p - count - 1] != TAIL_FLAG
    ensures EndsRun(s, p) <==> count == TRAILER_SIZE
  {
    if count == TRAILER_SIZE {
      assert s[p - TRAILER_SIZE..p] == TRAILER;
    } else if p >= TRAILER_SIZE {
      assert s[p - TRAILER_SIZE..p][TRAILER_SIZE - 1 - count] == s[p - count - 1];
    }
  }

  /** The state of the scan at position p: no run has ended yet, and the last
      `count` bytes are trailer bytes. */
  ghost predicate Counted(s: seq<byte>, p: nat, count: nat) {
    && count <= p <= |s| && count < TRAILER_SIZE
    && (forall k :: p - count <= k < p ==> s[k] == TAIL_FLAG)
    && (count < p ==> s[p - count - 1] != TAIL_FLAG)
    && (forall q :: 0 <= q <= p ==> !EndsRun(s, q))
  }

  lemma CountStarts(s: seq<byte>)
    ensures Counted(s, 0, 0)
  {
    RunEndsAt(s, 0, 0);
  }

  lemma CountStep(s: seq<byte>, p: nat, count: nat)
    requires Counted(s, p, count) && p < |s|
    ensures var c := if s[p] == TAIL_FLAG then count + 1 else 0;
      if c == TRAILER_SIZE then EndsRun(s, p + 1) && forall q :: 0 <= q <= p ==> !EndsRun(s, q)
      else Counted(s, p + 1, c)
  {
    hide EndsRun;
    RunEndsAt(s, p + 1, if s[p] == TAIL_FLAG then count + 1 else 0);
  }

  /** The scan has not run past the trailer of its block. */
  lemma CountIsShort(body: seq<byte>, p: nat, count: nat)
    requires Counted(body + TRAILER, p, count)
    ensures p < |body| + TRAILER_SIZE
  {
    TrailerEndsRun(body);
    hide EndsRun;
  }

  lemma FirstRun(body: seq<byte>, n: nat)
    requires n <= |body| + TRAILER_SIZE && EndsRun(body + TRAILER, n)
    requires forall q :: 0 <= q < n ==> !EndsRun(body + TRAILER, q)
    ensures ScanLength(body) == n
  {
    hide EndsRun;
  }
}
