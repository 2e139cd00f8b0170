/** The multiplier retry strategy, over reals: which options it accepts and how long it waits. */
module Backoff {
  import opened Common
  import opened Envelopes
  import opened Pipeline

  datatype Options = Options(
    maxRetries: Option<real>, delayMs: Option<real>, multiplier: Option<real>, maxDelayMs: Option<real>,
    jitter: Option<real>)

  datatype InvalidOption = BadMaxRetries | BadDelay | BadMultiplier | BadMaxDelay | BadJitter

  datatype Strategy = Strategy(maxRetries: nat, delayMs: real, multiplier: real, maxDelayMs: real, jitter: real)

  function Or(given: Option<real>, default: real): real {
    match given
    case None => default
    case Some(x) => x
  }

  function Create(o: Options): Result<Strategy, InvalidOption> {
    var maxRetries, delayMs, multiplier := Or(o.maxRetries, 3.0), Or(o.delayMs, 1000.0), Or(o.multiplier, 2.0);
    var maxDelayMs, jitter := Or(o.maxDelayMs, 0.0), Or(o.jitter, 0.1);
    if maxRetries.Floor as real != maxRetries || maxRetries < 0.0 then Err(BadMaxRetries)
    else if delayMs < 0.0 then Err(BadDelay)
    else if multiplier < 1.0 then Err(BadMultiplier)
    else if maxDelayMs < 0.0 then Err(BadMaxDelay)
    else if jitter < 0.0 || jitter > 1.0 then Err(BadJitter)
    else Ok(Strategy(maxRetries.Floor, delayMs, multiplier, maxDelayMs, jitter))
  }

  predicate Valid(s: Strategy) {
    s.delayMs >= 0.0 && s.multiplier >= 1.0 && s.maxDelayMs >= 0.0 && 0.0 <= s.jitter <= 1.0
  }

  function Power(x: real, n: nat): real { if n == 0 then 1.0 else x * Power(x, n - 1) }

  /** 1 + x + ... + x^(n-1) */
  function Geometric(x: real, n: nat): real { if n == 0 then 0.0 else Geometric(x, n - 1) + Power(x, n - 1) }

  /** The wait before jitter. */
  function Capped(s: Strategy, retries: nat): real {
    var delay := s.delayMs * Power(s.multiplier, retries);
    if s.maxDelayMs > 0.0 && s.maxDelayMs < delay then s.maxDelayMs else delay
  }

  /** `draw` is the random number in [0, 1). */
  function Spread(s: Strategy, capped: real, draw: real): real {
    capped + capped * s.jitter * (draw * 2.0 - 1.0)
  }

  function WaitingTime(s: Strategy, e: Envelope, draw: real): real {
    var capped := Capped(s, e.RetryCount());
    if s.jitter == 0.0 then capped else Round(Spread(s, capped, draw)) as real
  }

  predicate IsRetryable(s: Strategy, e: Envelope) { e.RetryCount() < s.maxRetries }

  /** The option is left out, or its value is allowed. */
  predicate Allows(given: Option<real>, least: real, most: Option<real>) {
    match given
    case None => true
    case Some(x) => least <= x && (match most case None => true case Some(y) => x <= y)
  }

  predicate Counts(n: nat, x: real) { n as real == x }

  /** Exactly the documented values are accepted, each given value is used, and each other has its default. */
  lemma CreatedIff(o: Options)
    ensures Create(o).Ok? <==>
      && (o.maxRetries.Some? ==> exists n: nat :: Counts(n, o.maxRetries.value))
      && Allows(o.delayMs, 0.0, None) && Allows(o.multiplier, 1.0, None) && Allows(o.maxDelayMs, 0.0, None)
      && Allows(o.jitter, 0.0, Some(1.0))
    ensures Create(o).Ok? ==> var s := Create(o).value;
      && Valid(s) && (o.maxRetries.Some? ==> s.maxRetries as real == o.maxRetries.value)
      && (o.delayMs.Some? ==> s.delayMs == o.delayMs.value)
      && (o.multiplier.Some? ==> s.multiplier == o.multiplier.value)
      && (o.maxDelayMs.Some? ==> s.maxDelayMs == o.maxDelayMs.value)
      && (o.jitter.Some? ==> s.jitter == o.jitter.value)
  {
    if o.maxRetries.Some? {
      var x := o.maxRetries.value;
      forall n: nat | Counts(n, x) ensures x.Floor == n {}
      if x.Floor as real == x && x >= 0.0 { assert Counts(x.Floor, x); }
    }
  }

  // ---- The unjittered wait -----------------------------------------------------------

  lemma {:induction false} PowerGrows(x: real, m: nat, n: nat)
    requires x >= 1.0 && m <= n
    ensures 1.0 <= Power(x, m) <= Power(x, n)
    decreases n
  {
    if m < n {
      PowerGrows(x, m, n - 1);
      Product(x - 1.0, Power(x, n - 1));
    } else if m > 0 {
      PowerGrows(x, m - 1, n - 1);
      Product(x - 1.0, Power(x, m - 1));
    }
  }

  /** The unjittered wait never shrinks with the retry count, and stays under the cap when there is one. */
  lemma CappedGrows(s: Strategy, m: nat, n: nat)
    requires Valid(s) && m <= n
    ensures 0.0 <= Capped(s, m) <= Capped(s, n)
    ensures s.maxDelayMs > 0.0 ==> Capped(s, n) <= s.maxDelayMs
    ensures Capped(s, n) <= s.delayMs * Power(s.multiplier, n)
  {
    PowerGrows(s.multiplier, m, n);
    Product(s.delayMs, Power(s.multiplier, m));
    Product(s.delayMs, Power(s.multiplier, n) - Power(s.multiplier, m));
  }

  // ---- Jitter ------------------------------------------------------------------------

  lemma SpreadIsNear(s: Strategy, capped: real, draw: real)
    requires 0.0 <= s.jitter <= 1.0 && capped >= 0.0 && 0.0 <= draw < 1.0
    ensures capped - s.jitter * capped <= Spread(s, capped, draw) <= capped + s.jitter * capped
    ensures Spread(s, capped, draw) >= 0.0
  {
    var j := capped * s.jitter;
    Product(capped, s.jitter);
    Product(capped, 1.0 - s.jitter);
    Product(j, draw);
    Product(j, 1.0 - draw);
    assert j * (draw * 2.0 - 1.0) == 2.0 * (j * draw) - j;
  }

  /** The jittered wait is never negative and within `jitter * capped + 1/2` of the unjittered one. */
  lemma WaitIsNear(s: Strategy, e: Envelope, draw: real)
    requires Valid(s) && 0.0 <= draw < 1.0
    ensures var capped, wait := Capped(s, e.RetryCount()), WaitingTime(s, e, draw);
      && wait >= 0.0
      && capped - s.jitter * capped - 0.5 <= wait <= capped + s.jitter * capped + 0.5
      && (s.jitter == 0.0 ==> wait == capped)
  {
    var capped := Capped(s, e.RetryCount());
    CappedGrows(s, e.RetryCount(), e.RetryCount());
    SpreadIsNear(s, capped, draw);
    hide Capped, Spread, Power;
    Product(s.jitter, capped);
  }

  /** The whole jitter less. */
  function Least(s: Strategy, capped: real): real { (1.0 - s.jitter) * capped }

  /**
   * What the draw does: the middle draw gives the unjittered wait, the least one the whole jitter
   * less, a greater one never waits less, and mirrored draws lie on either side of the middle.
   */
  lemma JitterSpans(s: Strategy, e: Envelope, draw: real, later: real)
    requires Valid(s) && s.jitter > 0.0 && 0.0 <= draw <= later <= 1.0
    ensures var capped := Capped(s, e.RetryCount());
      && WaitingTime(s, e, 0.5) == Round(capped) as real
      && WaitingTime(s, e, 0.0) == Round(Least(s, capped)) as real
      && WaitingTime(s, e, draw) <= WaitingTime(s, e, later)
      && -1.0 <= WaitingTime(s, e, draw) + WaitingTime(s, e, 1.0 - draw) - 2.0 * capped <= 1.0
  {
    var capped := Capped(s, e.RetryCount());
    CappedGrows(s, e.RetryCount(), e.RetryCount());
    MiddleAndLeast(s, e);
    hide *;
    JitteredWait(s, e, draw);
    JitteredWait(s, e, later);
    JitteredWait(s, e, 1.0 - draw);
    SpreadMoves(s, capped, draw, later);
    SpreadMirrors(s, capped, draw);
    RoundIsNear(Spread(s, capped, draw), Spread(s, capped, 1.0 - draw));
    RoundGrows(Spread(s, capped, draw), Spread(s, capped, later));
  }

  lemma MiddleAndLeast(s: Strategy, e: Envelope)
    requires Valid(s) && s.jitter > 0.0
    ensures var capped := Capped(s, e.RetryCount());
      && WaitingTime(s, e, 0.5) == Round(capped) as real
      && WaitingTime(s, e, 0.0) == Round(Least(s, capped)) as real
  {
    var capped := Capped(s, e.RetryCount());
    CappedGrows(s, e.RetryCount(), e.RetryCount());
    hide *;
    JitteredWait(s, e, 0.5);
    JitteredWait(s, e, 0.0);
    SpreadMoves(s, capped, 0.0, 0.5);
  }

  lemma JitteredWait(s: Strategy, e: Envelope, draw: real)
    requires s.jitter > 0.0
    ensures WaitingTime(s, e, draw) == Round(Spread(s, Capped(s, e.RetryCount()), draw)) as real
  {
    hide Capped, Spread, Envelope.RetryCount;
  }

  lemma SpreadMoves(s: Strategy, capped: real, draw: real, later: real)
    requires capped >= 0.0 && 0.0 <= s.jitter <= 1.0 && draw <= later
    ensures Spread(s, capped, draw) <= Spread(s, capped, later)
    ensures Spread(s, capped, 0.5) == capped && Spread(s, capped, 0.0) == Least(s, capped)
  {
    var j := capped * s.jitter;
    Product(capped, s.jitter);
    Product(j, later - draw);
    assert j * (later * 2.0 - 1.0) - j * (draw * 2.0 - 1.0) == 2.0 * (j * (later - draw));
  }

  lemma SpreadMirrors(s: Strategy, capped: real, draw: real)
    ensures Spread(s, capped, draw) + Spread(s, capped, 1.0 - draw) == 2.0 * capped
  {
    var j := capped * s.jitter;
    assert (1.0 - draw) * 2.0 - 1.0 == -(draw * 2.0 - 1.0);
    assert j * -(draw * 2.0 - 1.0) == -(j * (draw * 2.0 - 1.0));
  }

  lemma RoundIsNear(x: real, y: real)
    ensures -1.0 <= Round(x) as real + Round(y) as real - (x + y) <= 1.0
  {
  }

  lemma RoundGrows(x: real, y: real)
    requires x <= y
    ensures Round(x) as real <= Round(y) as real
  {
    assert Round(x) <= Round(y);
    hide Round;
    RealGrows(Round(x), Round(y));
  }

  lemma RealGrows(m: int, n: int)
    requires m <= n
    ensures m as real <= n as real
  {
  }

  // ---- All the waits of one message --------------------------------------------------

  /** The delays of a message that keeps failing, resent until it is no longer retryable. */
  function Backoffs(s: Strategy, e: Envelope, draw: nat -> real): (waits: seq<real>)
    decreases if IsRetryable(s, e) then s.maxRetries - e.RetryCount() else 0
  {
    if !IsRetryable(s, e) then [] else
      var wait := WaitingTime(s, e, draw(e.RetryCount()));
      RetryCountGrows(e, wait);
      [wait] + Backoffs(s, Retried(e, wait), draw)
  }

  function Sum(xs: seq<real>): real { if xs == [] then 0.0 else xs[0] + Sum(xs[1..]) }

  /** The most that retry `k` can wait. */
  function Most(s: Strategy, k: nat): real { (1.0 + s.jitter) * Capped(s, k) + 0.5 }

  /** A wait that retry `k` can have. */
  predicate Within(s: Strategy, k: nat, wait: real) {
    wait >= 0.0 && Least(s, Capped(s, k)) - 0.5 <= wait <= Most(s, k)
  }

  lemma WaitIsWithin(s: Strategy, e: Envelope, draw: real)
    requires Valid(s) && 0.0 <= draw < 1.0
    ensures Within(s, e.RetryCount(), WaitingTime(s, e, draw))
  {
    WaitIsNear(s, e, draw);
    hide WaitingTime, Capped, Envelope.RetryCount;
    var capped := Capped(s, e.RetryCount());
    assert (1.0 + s.jitter) * capped == capped + s.jitter * capped;
    assert (1.0 - s.jitter) * capped == capped - s.jitter * capped;
  }

  /** A message that keeps failing is resent until its count reaches the limit, each time within bounds. */
  lemma {:induction false} BackoffsAre(s: Strategy, e: Envelope, draw: nat -> real)
    requires Valid(s) && Draws(draw)
    ensures |Backoffs(s, e, draw)| == if IsRetryable(s, e) then s.maxRetries - e.RetryCount() else 0
    ensures forall k :: 0 <= k < |Backoffs(s, e, draw)| ==> Within(s, e.RetryCount() + k, Backoffs(s, e, draw)[k])
    decreases if IsRetryable(s, e) then s.maxRetries - e.RetryCount() else 0
  {
    hide Within, WaitingTime, Retried, Envelope.RetryCount;
    if IsRetryable(s, e) {
      var wait := WaitingTime(s, e, draw(e.RetryCount()));
      WaitIsWithin(s, e, draw(e.RetryCount()));
      RetryCountGrows(e, wait);
      BackoffsAre(s, Retried(e, wait), draw);
      forall k | 0 <= k < |Backoffs(s, e, draw)|
        ensures Within(s, e.RetryCount() + k, Backoffs(s, e, draw)[k])
      {
        if k > 0 {
          assert e.RetryCount() + k == Retried(e, wait).RetryCount() + (k - 1);
          assert Backoffs(s, e, draw)[k] == Backoffs(s, Retried(e, wait), draw)[k - 1];
        }
      }
    }
  }

  /** (1 + jitter) times `delayMs` times the terms `start` to `start + n` of the geometric sum, and n/2. */
  function Allowance(s: Strategy, start: nat, n: nat): real {
    (1.0 + s.jitter) * (s.delayMs * (Geometric(s.multiplier, start + n) - Geometric(s.multiplier, start)))
      + n as real / 2.0
  }

  lemma AllowanceNext(s: Strategy, start: nat, n: nat)
    requires Valid(s)
    ensures Allowance(s, start, n + 1) >= Most(s, start) + Allowance(s, start + 1, n)
  {
    var x := s.multiplier;
    CappedGrows(s, start, start);
    var j, power, capped := 1.0 + s.jitter, Power(x, start), Capped(s, start);
    Product(j, s.delayMs * power - capped);
    assert j * (s.delayMs * power - capped) == j * (s.delayMs * power) - j * capped;
    var a, b, c := Geometric(x, start + (n + 1)), Geometric(x, start + 1), Geometric(x, start);
    assert b == c + power && start + (n + 1) == (start + 1) + n;
    hide Geometric, Power, Capped;
    Regroup(j, s.delayMs, a, b, c);
    assert b - c == power;
  }

  lemma Regroup(j: real, d: real, a: real, b: real, c: real)
    ensures j * (d * (a - b)) + j * (d * (b - c)) == j * (d * (a - c))
  {
    assert d * (a - b) + d * (b - c) == d * (a - c);
  }

  lemma {:induction false} SumIsBounded(s: Strategy, waits: seq<real>, start: nat)
    requires Valid(s)
    requires forall k :: 0 <= k < |waits| ==> Within(s, start + k, waits[k])
    ensures 0.0 <= Sum(waits) <= Allowance(s, start, |waits|)
    decreases |waits|
  {
    if waits != [] {
      assert Within(s, start + 0, waits[0]);
      hide Most, Within, Least, Capped;
      forall k | 0 <= k < |waits| - 1 ensures Within(s, (start + 1) + k, waits[1..][k]) {
        assert waits[1..][k] == waits[k + 1] && (start + 1) + k == start + (k + 1);
      }
      SumIsBounded(s, waits[1..], start + 1);
      AllowanceNext(s, start, |waits| - 1);
      hide Allowance;
    }
  }

  /** (1 + jitter) times the geometric sum of the delays, plus half a millisecond a retry. */
  function Budget(s: Strategy): real {
    (1.0 + s.jitter) * (s.delayMs * Geometric(s.multiplier, s.maxRetries)) + s.maxRetries as real / 2.0
  }

  /**
   * One message's whole backoff: for every accepted choice of options and every draw, a message
   * first received without retries is resent exactly `maxRetries` times, and waits no longer in all
   * than the budget.
   */
  lemma TotalBackoff(o: Options, e: Envelope, draw: nat -> real)
    requires Create(o).Ok? && Draws(draw) && e.RetryCount() == 0
    ensures var s := Create(o).value;
      |Backoffs(s, e, draw)| == s.maxRetries && 0.0 <= Sum(Backoffs(s, e, draw)) <= Budget(s)
  {
    var s := Create(o).value;
    assert Valid(s);
    hide Create;
    BackoffsAre(s, e, draw);
    var waits := Backoffs(s, e, draw);
    hide Backoffs, Within, Envelope.RetryCount, Geometric, Allowance, Sum, Budget;
    SumIsBounded(s, waits, 0);
    WholeAllowance(s);
  }

  lemma WholeAllowance(s: Strategy)
    ensures Allowance(s, 0, s.maxRetries) == Budget(s)
  {
    var whole := Geometric(s.multiplier, s.maxRetries);
    assert Geometric(s.multiplier, 0) == 0.0 && 0 + s.maxRetries == s.maxRetries;
    hide Geometric;
    assert whole - 0.0 == whole;
  }

  // ---- The growth of the waits -------------------------------------------------------

  /** Neither jitter nor cap. */
  predicate Plain(s: Strategy) { s.jitter == 0.0 && s.maxDelayMs == 0.0 }

  /** Each wait is the multiplier times the one before, and a fresh message's first is the base delay. */
  lemma WaitGrows(s: Strategy, e: Envelope, next: Envelope, draw: real, later: real)
    requires Plain(s) && next.RetryCount() == e.RetryCount() + 1
    ensures WaitingTime(s, next, later) == s.multiplier * WaitingTime(s, e, draw)
    ensures e.RetryCount() == 0 ==> WaitingTime(s, e, draw) == s.delayMs
  {
    hide Envelope.RetryCount;
    var power := Power(s.multiplier, e.RetryCount());
    assert Power(s.multiplier, next.RetryCount()) == s.multiplier * power;
    assert s.delayMs * (s.multiplier * power) == s.multiplier * (s.delayMs * power);
  }

  lemma BackoffsNext(s: Strategy, e: Envelope, draw: nat -> real)
    requires IsRetryable(s, e)
    ensures var wait := WaitingTime(s, e, draw(e.RetryCount()));
      && Backoffs(s, e, draw) == [wait] + Backoffs(s, Retried(e, wait), draw)
      && Retried(e, wait).RetryCount() == e.RetryCount() + 1
  {
    RetryCountGrows(e, WaitingTime(s, e, draw(e.RetryCount())));
    hide WaitingTime, Envelope.RetryCount, Retried;
  }

  /** Without jitter and cap the waits of one message form a geometric progression. */
  lemma {:induction false} BackoffsGrow(s: Strategy, e: Envelope, draw: nat -> real)
    requires Plain(s)
    ensures var waits := Backoffs(s, e, draw);
      && Progression(s.multiplier, waits)
      && (IsRetryable(s, e) ==> waits != [] && waits[0] == WaitingTime(s, e, draw(e.RetryCount())))
    decreases if IsRetryable(s, e) then s.maxRetries - e.RetryCount() else 0
  {
    if IsRetryable(s, e) {
      var wait := WaitingTime(s, e, draw(e.RetryCount()));
      var next := Retried(e, wait);
      BackoffsNext(s, e, draw);
      WaitGrows(s, e, next, draw(e.RetryCount()), draw(next.RetryCount()));
      BackoffsGrow(s, next, draw);
      hide WaitingTime, Retried, Envelope.RetryCount;
      var rest := Backoffs(s, next, draw);
      assert IsRetryable(s, next) || rest == [];
      hide *;
      ProgressionExtends(s.multiplier, wait, rest);
    }
  }

  ghost predicate Progression(x: real, waits: seq<real>) {
    forall k :: 0 <= k < |waits| - 1 ==> waits[k + 1] == x * waits[k]
  }

  lemma ProgressionExtends(x: real, wait: real, rest: seq<real>)
    requires Progression(x, rest) && (rest != [] ==> rest[0] == x * wait)
    ensures Progression(x, [wait] + rest)
  {
    var waits := [wait] + rest;
    forall k | 0 <= k < |waits| - 1 ensures waits[k + 1] == x * waits[k] {
      if k > 0 { assert rest[(k - 1) + 1] == x * rest[k - 1]; }
    }
  }

  lemma {:induction false} SumOfProgression(x: real, waits: seq<real>)
    requires Progression(x, waits)
    ensures waits != [] ==> Sum(waits) == waits[0] * Geometric(x, |waits|)
    decreases |waits|
  {
    if waits == [] {
    } else if |waits| == 1 {
      assert Sum(waits) == waits[0] + Sum(waits[1..]) && Geometric(x, 1) == Geometric(x, 0) + Power(x, 0);
    } else {
      var rest := waits[1..];
      forall k | 0 <= k < |rest| - 1 ensures rest[k + 1] == x * rest[k] {
        assert rest[k] == waits[k + 1] && rest[k + 1] == waits[(k + 1) + 1];
      }
      SumOfProgression(x, rest);
      GeometricShifts(x, |rest|);
      assert rest[0] == waits[0 + 1];
      hide Geometric;
      var g := Geometric(x, |rest|);
      assert (x * waits[0]) * g == waits[0] * (x * g);
    }
  }

  /** The geometric sum, from its front. */
  lemma {:induction false} GeometricShifts(x: real, n: nat)
    ensures Geometric(x, n + 1) == 1.0 + x * Geometric(x, n)
    decreases n
  {
    if n > 0 {
      GeometricShifts(x, n - 1);
      assert x * (Geometric(x, n - 1) + Power(x, n - 1)) == x * Geometric(x, n - 1) + x * Power(x, n - 1);
    }
  }

  /** Its closed form. */
  lemma {:induction false} GeometricCloses(x: real, n: nat)
    ensures (x - 1.0) * Geometric(x, n) == Power(x, n) - 1.0
    decreases n
  {
    if n > 0 {
      GeometricCloses(x, n - 1);
      assert (x - 1.0) * (Geometric(x, n - 1) + Power(x, n - 1))
          == (x - 1.0) * Geometric(x, n - 1) + (x - 1.0) * Power(x, n - 1);
      assert (x - 1.0) * Power(x, n - 1) == x * Power(x, n - 1) - Power(x, n - 1);
    }
  }

  /** In all, a fresh message waits exactly the base delay times the geometric sum. */
  lemma ExactBackoff(s: Strategy, e: Envelope, draw: nat -> real)
    requires Valid(s) && Plain(s) && e.RetryCount() == 0
    ensures var waits := Backoffs(s, e, draw);
      && |waits| == s.maxRetries && Sum(waits) == s.delayMs * Geometric(s.multiplier, s.maxRetries)
      && (waits != [] ==> waits[0] == s.delayMs)
  {
    hide *;
    BackoffsGrow(s, e, draw);
    BackoffsCount(s, e, draw);
    FirstWait(s, e, draw(0));
    RetryableWhenFresh(s, e);
    var waits := Backoffs(s, e, draw);
    SumOfProgression(s.multiplier, waits);
    NothingSums(s.multiplier, waits);
  }

  lemma RetryableWhenFresh(s: Strategy, e: Envelope)
    requires e.RetryCount() == 0
    ensures IsRetryable(s, e) <==> s.maxRetries > 0
  {
    hide Envelope.RetryCount;
  }

  lemma NothingSums(x: real, waits: seq<real>)
    ensures waits == [] ==> Sum(waits) == 0.0 && Geometric(x, |waits|) == 0.0
  {
  }

  lemma FirstWait(s: Strategy, e: Envelope, draw: real)
    requires Plain(s) && e.RetryCount() == 0
    ensures WaitingTime(s, e, draw) == s.delayMs
  {
    hide Envelope.RetryCount;
  }

  lemma {:induction false} BackoffsCount(s: Strategy, e: Envelope, draw: nat -> real)
    ensures |Backoffs(s, e, draw)| == if IsRetryable(s, e) then s.maxRetries - e.RetryCount() else 0
    decreases if IsRetryable(s, e) then s.maxRetries - e.RetryCount() else 0
  {
    if IsRetryable(s, e) {
      BackoffsNext(s, e, draw);
      hide Backoffs, WaitingTime, Retried, Envelope.RetryCount;
      BackoffsCount(s, Retried(e, WaitingTime(s, e, draw(e.RetryCount()))), draw);
    }
  }

  /** A cap cuts each wait on its own: it is the smaller of the cap and the wait without one. */
  lemma CapCutsWait(s: Strategy, e: Envelope, draw: real)
    requires s.jitter == 0.0 && s.maxDelayMs > 0.0
    ensures var free := WaitingTime(s.(maxDelayMs := 0.0), e, draw);
      WaitingTime(s, e, draw) == if s.maxDelayMs < free then s.maxDelayMs else free
  {
    hide Envelope.RetryCount, Power;
  }

  const DEFAULTS := Options(None, None, None, None, None)

  /** With the defaults a message that keeps failing waits three times: about 1, 2 and 4 seconds. */
  lemma DefaultBackoff(e: Envelope, draw: nat -> real)
    requires Draws(draw) && e.RetryCount() == 0
    ensures Create(DEFAULTS).Ok?
    ensures var waits := Backoffs(Create(DEFAULTS).value, e, draw);
      && |waits| == 3
      && 899.5 <= waits[0] <= 1100.5 && 1799.5 <= waits[1] <= 2200.5 && 3599.5 <= waits[2] <= 4400.5
  {
    var s := Create(DEFAULTS).value;
    assert s == Strategy(3, 1000.0, 2.0, 0.0, 0.1);
    BackoffsAre(s, e, draw);
    DefaultPowers();
    hide Backoffs, Envelope.RetryCount, Power;
    var waits := Backoffs(s, e, draw);
    assert Within(s, 0 + 0, waits[0]) && Within(s, 0 + 1, waits[1]) && Within(s, 0 + 2, waits[2]);
  }

  lemma DefaultPowers()
    ensures Power(2.0, 0) == 1.0 && Power(2.0, 1) == 2.0 && Power(2.0, 2) == 4.0
  {
    assert Power(2.0, 1) == 2.0 * Power(2.0, 0);
  }
}
