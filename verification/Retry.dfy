/**
 * Exponential backoff with jitter (pkg/retry/retry.go), with the wrap-around of
 * its 64-bit duration arithmetic written out.
 */
module Retry {
  import opened Clock
  import opened Wrappers

  const TWO_64: int := 0x1_0000_0000_0000_0000
  const MIN_INT64: int := -0x8000_0000_0000_0000
  const MAX_INT64: int := 0x7fff_ffff_ffff_ffff

  /** The int64 congruent to `x`. */
  function Wrap64(x: int): int {
    var m := x % TWO_64;
    if m <= MAX_INT64 then m else m - TWO_64
  }

  function Pow2(n: nat): nat {
    if n == 0 then 1 else 2 * Pow2(n - 1)
  }

  /** `time.Duration(math.Pow(2, float64(i)))`: exact below 2^63, the minimum int64 above (amd64). */
  function PowDuration(i: nat): int {
    if i < 63 then Pow2(i) else MIN_INT64
  }

  /** `time.Duration(math.Pow(2, i)) * 100 * time.Millisecond + jitter * time.Millisecond`, in int64 nanoseconds. */
  function Wait(i: nat, jitter: nat): int {
    Wrap64(Wrap64(Wrap64(PowDuration(i) * 100) * MILLISECOND) + Wrap64(jitter * MILLISECOND))
  }

  /** The wait as meant: 2^i * 100 ms plus the jitter. */
  function Intended(i: nat, jitter: nat): int {
    Pow2(i) * 100 * MILLISECOND + jitter * MILLISECOND
  }

  /** The environment of a run: what each call returns, each jitter drawn, and during which waits the context ends. */
  datatype World = World(fn: nat -> Option<string>, jitter: nat -> nat, ended: nat -> bool)

  /** The first round after which the loop does not go on. */
  predicate Stops(w: World, k: nat) {
    w.fn(k).None? || w.ended(k)
  }

  const CTX_ERR: string := "context canceled"

  /** The waits of rounds `0..n`. */
  function Waits(w: World, n: nat): seq<int> {
    if n == 0 then [] else Waits(w, n - 1) + [Wait(n - 1, w.jitter(n - 1))]
  }

  /** How many calls are made in all when the loop stands at round `from`. */
  function Calls(w: World, from: nat, attempts: int): nat
    decreases attempts - from
  {
    if attempts <= from then from
    else if Stops(w, from) then from + 1
    else Calls(w, from + 1, attempts)
  }

  /** The error returned: the last call's, the context's, or nil if nothing was called. */
  function Outcome(w: World, attempts: int): Option<string> {
    var calls := Calls(w, 0, attempts);
    if calls == 0 then None
    else if w.fn(calls - 1).Some? && w.ended(calls - 1) then Some(CTX_ERR)
    else w.fn(calls - 1)
  }

  /** The waits that run their full length: none after the call that stopped the loop. */
  function FullWaits(w: World, attempts: int): seq<int> {
    var calls := Calls(w, 0, attempts);
    Waits(w, if 0 < calls && Stops(w, calls - 1) then calls - 1 else calls)
  }

  /** The calls of rounds `0..j` all fail, and no wait before round `j`'s is cut short. */
  ghost predicate FailsUpTo(w: World, attempts: int, j: nat) {
    j < attempts && (forall k: nat :: k <= j ==> w.fn(k).Some?) && (forall k: nat :: k < j ==> !w.ended(k))
  }

  /** The first success is round `j`'s, and the context lasts until then. */
  ghost predicate SucceedsAfter(w: World, attempts: int, j: nat) {
    && j < attempts && w.fn(j).None?
    && (forall k: nat :: k < j ==> w.fn(k).Some?) && (forall k: nat :: k < j ==> !w.ended(k))
  }

  /** The first round that stops is the last. */
  lemma StopsAt(w: World, attempts: int, j: nat)
    requires j < attempts && Stops(w, j) && forall k: nat :: k < j ==> !Stops(w, k)
    ensures Calls(w, 0, attempts) == j + 1
  {
    CallsEndAtFirstStop(w, 0, attempts);
    var last: nat := Calls(w, 0, attempts) - 1;
    assert j < last ==> !Stops(w, j);
    assert last < j ==> !Stops(w, last);
  }

  lemma {:induction false} WaitsAre(w: World, n: nat)
    ensures |Waits(w, n)| == n && forall k :: 0 <= k < n ==> Waits(w, n)[k] == Wait(k, w.jitter(k))
  {
    hide Wait;
    if n != 0 {
      WaitsAre(w, n - 1);
    }
  }

  /**
   * If the calls up to round `j` fail and the context ends the wait of round `j` first,
   * the context's error is returned, after `j + 1` calls and `j` full waits.
   */
  lemma ContextEndsTheLoop(w: World, attempts: int, j: nat)
    requires FailsUpTo(w, attempts, j) && w.ended(j)
    ensures Outcome(w, attempts) == Some("context canceled")
    ensures Calls(w, 0, attempts) == j + 1 && |FullWaits(w, attempts)| == j
  {
    StopsAt(w, attempts, j);
    WaitsAre(w, j);
  }

  /** If a call succeeds after `j` failures, nil is returned, after `j + 1` calls and `j` full waits. */
  lemma SuccessEndsTheLoop(w: World, attempts: int, j: nat)
    requires SucceedsAfter(w, attempts, j)
    ensures Outcome(w, attempts).None?
    ensures Calls(w, 0, attempts) == j + 1 && |FullWaits(w, attempts)| == j
  {
    StopsAt(w, attempts, j);
    WaitsAre(w, j);
  }

  /** If nothing stops the loop, the last call's error is returned, after a full wait for every attempt. */
  lemma AttemptsRunOut(w: World, attempts: int)
    requires 0 < attempts && FailsUpTo(w, attempts, attempts - 1) && !w.ended(attempts - 1)
    ensures Outcome(w, attempts) == w.fn(attempts - 1)
    ensures Calls(w, 0, attempts) == attempts && |FullWaits(w, attempts)| == attempts
  {
    CallsEndAtFirstStop(w, 0, attempts);
    WaitsAre(w, attempts);
  }

  /** What the helper promises: how it ends, and how many calls and full waits it made until then. */
  ghost predicate AsPromised(w: World, attempts: int, err: Option<string>, calls: nat, waited: seq<int>) {
    && (attempts <= 0 ==> err.None? && calls == 0 && waited == [])
    && (forall j: nat :: SucceedsAfter(w, attempts, j) ==> err.None? && calls == j + 1 && |waited| == j)
    && (forall j: nat :: FailsUpTo(w, attempts, j) && w.ended(j) ==>
          err == Some("context canceled") && calls == j + 1 && |waited| == j)
    && (forall j: nat :: FailsUpTo(w, attempts, j) && !w.ended(j) && j == attempts - 1 ==>
          err == w.fn(j) && calls == attempts && |waited| == attempts)
    && (forall k :: 0 <= k < |waited| ==> waited[k] == Wait(k, w.jitter(k)))
  }

  lemma KeepsPromise(w: World, attempts: int)
    ensures AsPromised(w, attempts, Outcome(w, attempts), Calls(w, 0, attempts), FullWaits(w, attempts))
  {
    hide Wait, Outcome, FullWaits, Calls;
    forall j: nat | FailsUpTo(w, attempts, j) && w.ended(j)
      ensures Outcome(w, attempts) == Some("context canceled") && Calls(w, 0, attempts) == j + 1
      ensures |FullWaits(w, attempts)| == j
    {
      ContextEndsTheLoop(w, attempts, j);
    }
    forall j: nat | SucceedsAfter(w, attempts, j)
      ensures Outcome(w, attempts).None? && Calls(w, 0, attempts) == j + 1 && |FullWaits(w, attempts)| == j
    {
      SuccessEndsTheLoop(w, attempts, j);
    }
    if 0 < attempts && FailsUpTo(w, attempts, attempts - 1) && !w.ended(attempts - 1) {
      AttemptsRunOut(w, attempts);
    }
    NoAttempts(w, attempts);
    FullWaitsAre(w, attempts);
  }

  lemma NoAttempts(w: World, attempts: int)
    ensures attempts <= 0 ==>
              Outcome(w, attempts).None? && Calls(w, 0, attempts) == 0 && FullWaits(w, attempts) == []
  {
  }

  lemma FullWaitsAre(w: World, attempts: int)
    ensures forall k :: 0 <= k < |FullWaits(w, attempts)| ==> FullWaits(w, attempts)[k] == Wait(k, w.jitter(k))
  {
    hide Wait;
    var c := Calls(w, 0, attempts);
    WaitsAre(w, if 0 < c && Stops(w, c - 1) then c - 1 else c);
  }

  /** The three ways to end, besides making no attempt at all, leave nothing out. */
  lemma {:induction false} EveryRunEnds(w: World, attempts: int, from: nat) returns (j: nat)
    requires from < attempts && forall k: nat :: k < from ==> w.fn(k).Some? && !w.ended(k)
    ensures || SucceedsAfter(w, attempts, j) || (FailsUpTo(w, attempts, j) && w.ended(j))
            || (FailsUpTo(w, attempts, j) && j == attempts - 1)
    decreases attempts - from
  {
    if w.fn(from).Some? && !w.ended(from) && from + 1 < attempts {
      j := EveryRunEnds(w, attempts, from + 1);
    } else {
      j := from;
    }
  }

  /**
   * `WithBackoff`: calls `fn` until it succeeds, the context ends during a wait, or
   * the attempts are used up.
   */
  method WithBackoff(w: World, attempts: int) returns (err: Option<string>, calls: nat, waited: seq<int>)
    ensures err == Outcome(w, attempts) && calls == Calls(w, 0, attempts) && waited == FullWaits(w, attempts)
    ensures AsPromised(w, attempts, err, calls, waited)
  {
    KeepsPromise(w, attempts);
    hide AsPromised;
    err, calls, waited := None, 0, [];
    var i := 0;
    while i < attempts
      invariant 0 <= i && (i <= attempts || i == 0)
      invariant calls == i && waited == Waits(w, i)
      invariant Calls(w, 0, attempts) == Calls(w, i, attempts)
      invariant i != 0 ==> !Stops(w, i - 1)
      invariant err == if i == 0 then None else w.fn(i - 1)
    {
      err := w.fn(i);
      calls := calls + 1;
      if err.None? {
        return;
      }
      if w.ended(i) {
        err := Some(CTX_ERR);
        return;
      }
      waited := waited + [Wait(i, w.jitter(i))];
      i := i + 1;
    }
  }

  /** The calls end at the first round that stops, or with the last attempt. */
  lemma {:induction false} CallsEndAtFirstStop(w: World, from: nat, attempts: int)
    requires from <= attempts
    ensures var c := Calls(w, from, attempts);
            && from <= c <= attempts && (from < attempts ==> from < c)
            && (forall k :: from <= k < c - 1 ==> !Stops(w, k))
            && (from < c < attempts ==> Stops(w, c - 1))
    decreases attempts - from
  {
    if from < attempts && !Stops(w, from) {
      CallsEndAtFirstStop(w, from + 1, attempts);
    }
  }

  /** nil is returned exactly when a call succeeds before the context ends, or when no attempt is allowed. */
  lemma NilMeansSuccess(w: World, attempts: int)
    ensures Outcome(w, attempts).None? <==>
              attempts <= 0 || exists k: nat :: k < attempts && w.fn(k).None? && forall j: nat :: j < k ==> !Stops(w, j)
  {
    if 0 < attempts {
      CallsEndAtFirstStop(w, 0, attempts);
      var c := Calls(w, 0, attempts);
      if exists k: nat :: k < attempts && w.fn(k).None? && forall j: nat :: j < k ==> !Stops(w, j) {
        var k: nat :| k < attempts && w.fn(k).None? && forall j: nat :: j < k ==> !Stops(w, j);
        assert Stops(w, k);
        assert k == c - 1;
      }
    }
  }

  // ---------- the arithmetic ----------

  lemma {:induction false} Pow2Sum(a: nat, b: nat)
    ensures Pow2(a + b) == Pow2(a) * Pow2(b)
    decreases a
  {
    if a != 0 {
      Pow2Sum(a - 1, b);
    }
  }

  lemma {:induction false} Pow2Grows(a: nat, b: nat)
    requires a <= b
    ensures 1 <= Pow2(a) <= Pow2(b)
    decreases b
  {
    if a < b {
      Pow2Grows(a, b - 1);
    } else if a != 0 {
      Pow2Grows(a - 1, a - 1);
    }
  }

  lemma Pow2Values()
    ensures Pow2(36) == 68_719_476_736 && Pow2(37) == 137_438_953_472 && Pow2(62) == 0x4000_0000_0000_0000
  {
    assert Pow2(4) == 16 && Pow2(5) == 32;
    Pow2Sum(4, 5);
    assert Pow2(9) == 512;
    Pow2Sum(9, 9);
    Pow2Sum(18, 18);
    Pow2Sum(36, 1);
    Pow2Sum(18, 8);
    Pow2Sum(4, 4);
    Pow2Sum(36, 26);
  }

  lemma WrapId(x: int)
    ensures Wrap64(x) == x <==> MIN_INT64 <= x <= MAX_INT64
    ensures MIN_INT64 <= Wrap64(x) <= MAX_INT64
  {
  }

  /** The int64 arithmetic gives the intended wait exactly for the first 37 rounds. */
  lemma WaitIsExact(i: nat, jitter: nat)
    requires jitter < 100
    ensures Wait(i, jitter) == Intended(i, jitter) <==> i <= 36
    ensures i <= 36 ==> 0 < Wait(i, jitter) <= MAX_INT64
  {
    Pow2Values();
    if i <= 36 {
      Pow2Grows(i, 36);
      WrapId(PowDuration(i) * 100);
      WrapId(PowDuration(i) * 100 * MILLISECOND);
      WrapId(jitter * MILLISECOND);
      WrapId(Intended(i, jitter));
    } else {
      Pow2Grows(37, i);
      WrapId(Wrap64(Wrap64(PowDuration(i) * 100) * MILLISECOND) + Wrap64(jitter * MILLISECOND));
      assert MAX_INT64 < Intended(i, jitter);
    }
  }

  /** The 38th wait wraps to a negative duration, which a timer treats as no wait. */
  lemma RoundThirtyEightDoesNotWait(jitter: nat)
    requires jitter < 100
    ensures Wait(37, jitter) < 0
  {
    Pow2Values();
  }

  /** Each wait is longer than the one before, whatever the jitters. */
  lemma WaitsGrow(i: nat, jitter: nat, jitter': nat)
    requires i < 36 && jitter < 100 && jitter' < 100
    ensures Wait(i, jitter) < Wait(i + 1, jitter')
  {
    WaitIsExact(i, jitter);
    WaitIsExact(i + 1, jitter');
    Pow2Grows(0, i);
  }

  function Sum(s: seq<int>): int {
    if s == [] then 0 else Sum(s[..|s| - 1]) + s[|s| - 1]
  }

  lemma {:induction false} TotalWait(w: World, n: nat)
    requires n <= 37 && forall k: nat :: w.jitter(k) < 100
    ensures |Waits(w, n)| == n
    ensures 100 * MILLISECOND * (Pow2(n) - 1) <= Sum(Waits(w, n))
        <= 100 * MILLISECOND * (Pow2(n) - 1) + 99 * MILLISECOND * n
  {
    hide Wait, Waits, Sum, Pow2;
    if n == 0 {
      NoWaits(w);
    } else {
      TotalWait(w, n - 1);
      OneWaitMore(w, n);
    }
  }

  lemma NoWaits(w: World)
    ensures Waits(w, 0) == [] && Sum(Waits(w, 0)) == 0 && Pow2(0) == 1
  {
  }

  lemma OneWaitMore(w: World, n: nat)
    requires 1 <= n <= 37 && w.jitter(n - 1) < 100
    ensures |Waits(w, n)| == |Waits(w, n - 1)| + 1 && Pow2(n) == 2 * Pow2(n - 1)
    ensures Sum(Waits(w, n))
            == Sum(Waits(w, n - 1)) + Pow2(n - 1) * 100 * MILLISECOND + w.jitter(n - 1) * MILLISECOND
  {
    hide Wait;
    WaitIsExact(n - 1, w.jitter(n - 1));
    assert Waits(w, n)[..|Waits(w, n)| - 1] == Waits(w, n - 1);
  }

  /**
   * When every call fails and the context stays alive: exactly `attempts` calls, the
   * last error, and a total wait between 100 (2^n - 1) and 100 (2^n - 1) + 99 n ms.
   */
  lemma AllFail(w: World, attempts: nat)
    requires 1 <= attempts <= 37 && forall k: nat :: w.jitter(k) < 100
    requires forall k: nat :: k < attempts ==> w.fn(k).Some? && !w.ended(k)
    ensures Calls(w, 0, attempts) == attempts && Outcome(w, attempts) == w.fn(attempts - 1)
    ensures var total := Sum(FullWaits(w, attempts));
            100 * MILLISECOND * (Pow2(attempts) - 1) <= total
                <= 100 * MILLISECOND * (Pow2(attempts) - 1) + 99 * MILLISECOND * attempts
  {
    CallsEndAtFirstStop(w, 0, attempts);
    TotalWait(w, attempts);
  }
}
