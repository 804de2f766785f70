/** Backoff arithmetic in 64 bits and the retry loops of the MDS client
    (pkg/aclrbac/mds/retry.go, pkg/aclrbac/mds/client.go). */
module Retry {
  const TWO_63: int := 0x8000_0000_0000_0000
  const TWO_64: int := 0x1_0000_0000_0000_0000

  /** The value of a 64-bit signed result. */
  function Wrap64(x: int): int { (x + TWO_63) % TWO_64 - TWO_63 }

  function Pow2(k: nat): nat { if k == 0 then 1 else 2 * Pow2(k - 1) }

  /** Go's `<<`: a count of 64 or more shifts everything out. */
  function ShiftLeft64(x: int, k: nat): int { if k >= 64 then 0 else Wrap64(x * Pow2(k)) }

  /** Division that truncates toward zero. */
  function Quotient(a: int, b: int): int
    requires b > 0
  {
    if a >= 0 then a / b else -((-a) / b)
  }

  function Max(a: int, b: int): int { if a > b then a else b }

  function Min(a: int, b: int): int { if a < b then a else b }

  /** The delay before jitter. */
  function PreJitter(n: int, base: int, maxDelay: int): int {
    var d := ShiftLeft64(base, Max(n, 1) - 1);
    if d <= 0 || d > maxDelay then maxDelay else d
  }

  /** The doubled base, capped: what the delay before the n-th retry is meant to be. */
  function CappedDoubling(n: int, base: int, cap: int): int { Min(base * Pow2(Max(n, 1) - 1), cap) }

  /** Bounds under which no wraparound shows. */
  ghost predicate Tame(base: int, cap: int) {
    base > 0 && cap > 0 && base * cap < TWO_63 && 5 * cap < 4 * TWO_63
  }

  function JitterSpan(d: int): int { Max(Quotient(d, 2), 1) }

  function Jittered(d: int, jitter: int): int { Wrap64(d - Quotient(d, 4) + jitter) }

  lemma {:induction false} Pow2Add(a: nat, b: nat)
    ensures Pow2(a + b) == Pow2(a) * Pow2(b)
  {
    if a > 0 {
      Pow2Add(a - 1, b);
      assert Pow2(a + b) == 2 * (Pow2(a - 1) * Pow2(b));
    }
  }

  lemma Pow2Of64()
    ensures Pow2(64) == TWO_64
  {
    assert Pow2(8) == 256;
    Pow2Add(8, 8);
    Pow2Add(16, 16);
    Pow2Add(32, 32);
  }

  /** A multiple of m that is positive is at least m. */
  lemma PositiveMultiple(m: nat, c: int)
    requires m * c > 0
    ensures m * c >= m
  {
  }

  /** After an overflow the wrapped value is still a multiple of the power of two, so it is never a
      small positive number. */
  lemma WrappedIsMultiple(base: nat, k: nat) returns (c: int)
    requires k < 64
    ensures Wrap64(base * Pow2(k)) == Pow2(k) * c
  {
    var x := base * Pow2(k);
    var m := (x + TWO_63) / TWO_64;
    assert Wrap64(x) == x - m * TWO_64;
    Pow2Add(k, 64 - k);
    Pow2Of64();
    c := base - m * Pow2(64 - k);
    calc {
      x - m * TWO_64;
      base * Pow2(k) - m * (Pow2(k) * Pow2(64 - k));
      { MulRegroup(base, Pow2(k), m, Pow2(64 - k)); }
      Pow2(k) * c;
    }
  }

  lemma MulRegroup(a: int, p: int, m: int, q: int)
    ensures a * p - m * (p * q) == p * (a - m * q)
  {
    assert m * (p * q) == p * (m * q);
  }

  lemma {:induction false} Pow2Grows(a: nat, b: nat)
    requires a <= b
    ensures 1 <= Pow2(a) <= Pow2(b)
  {
    if a < b { Pow2Grows(a, b - 1); } else if a > 0 { Pow2Grows(a - 1, a - 1); }
  }

  lemma MulMonotone(a: int, b: int, c: int)
    requires 0 <= c && a <= b
    ensures c * a <= c * b
  {
  }

  /** Despite wraparound of the shift, the delay before jitter is the doubled base, capped. */
  lemma PreJitterIsCappedDoubling(n: int, base: int, cap: int)
    requires base > 0 && cap > 0 && base * cap < TWO_63
    ensures PreJitter(n, base, cap) == CappedDoubling(n, base, cap)
  {
    var k := Max(n, 1) - 1;
    var p := Pow2(k);
    MulMonotone(1, base, cap);
    assert cap < TWO_63;
    Pow2Grows(0, k);
    if k >= 64 {
      Pow2Grows(64, k);
      Pow2Of64();
      MulMonotone(1, base, p);
    } else if base * p < TWO_63 {
      MulMonotone(1, p, base);
      assert Wrap64(base * p) == base * p;
    } else {
      var c := WrappedIsMultiple(base, k);
      if p <= cap { MulMonotone(p, cap, base); }
      if p * c > 0 { PositiveMultiple(p, c); }
      assert ShiftLeft64(base, k) == p * c;
    }
  }

  /** Exactly when that is so, for any base and cap a caller can pass: unless the doubled base overflows
      and its low 64 bits happen to be positive and below the cap. */
  lemma CappedDoublingIff(n: int, base: int, cap: int)
    requires 0 < base < TWO_63 && 0 < cap < TWO_63
    ensures var x := base * Pow2(Max(n, 1) - 1);
            PreJitter(n, base, cap) == CappedDoubling(n, base, cap) <==> x < TWO_63 || !(0 < x % TWO_64 < cap)
  {
    var k := Max(n, 1) - 1;
    var p := Pow2(k);
    Pow2Grows(0, k);
    MulMonotone(1, p, base);
    MulMonotone(1, base, p);
    WrapModulo(base * p);
    if k >= 64 {
      Pow2Grows(64, k);
      Pow2Of64();
      Pow2Add(64, k - 64);
      ShiftedOut(base, Pow2(k - 64));
    }
  }

  lemma WrapModulo(x: int)
    ensures 0 <= x % TWO_64 < TWO_63 ==> Wrap64(x) == x % TWO_64
    ensures x % TWO_64 >= TWO_63 ==> Wrap64(x) < 0
  {
  }

  lemma ShiftedOut(base: int, p: int)
    ensures (base * (TWO_64 * p)) % TWO_64 == 0
  {
    assert base * (TWO_64 * p) == (base * p) * TWO_64;
  }

  /** Without the bound on base times cap the claim is false: here the third delay wraps to 4. */
  lemma WraparoundCanShow()
    ensures PreJitter(3, 0x4000_0000_0000_0001, 100) == 4
    ensures CappedDoubling(3, 0x4000_0000_0000_0001, 100) == 100
  {
    assert Pow2(2) == 4;
  }

  lemma SpanBounds(d: int)
    requires 0 < d
    ensures 4 * Quotient(d, 4) <= d < 4 * Quotient(d, 4) + 4
    ensures 1 <= JitterSpan(d) && 2 * JitterSpan(d) <= Max(d, 2)
  {
  }

  lemma WrapSmall(x: int)
    ensures 0 <= x < TWO_63 ==> Wrap64(x) == x
    ensures TWO_63 <= x < TWO_64 ==> Wrap64(x) < 0
  {
  }

  /** The jittered delay lies in [0.75d, 1.25d) for every draw iff the largest sum fits 64 bits. */
  lemma JitterBand(d: int)
    requires 0 < d < TWO_63
    ensures (forall j :: 0 <= j < JitterSpan(d) ==> 3 * d <= 4 * Jittered(d, j) < 5 * d)
        <==> d - Quotient(d, 4) + JitterSpan(d) - 1 < TWO_63
  {
    SpanBounds(d);
    var q, half := Quotient(d, 4), JitterSpan(d);
    hide Quotient, JitterSpan, Wrap64;
    forall j | 0 <= j < half ensures d - q + j < TWO_63 ==> 3 * d <= 4 * Jittered(d, j) < 5 * d { WrapSmall(d - q + j); }
    WrapSmall(d - q + half - 1);
    if d - q + half - 1 >= TWO_63 { assert Jittered(d, half - 1) < 0; }
  }

  /** The delay before the n-th retry; the jitter is any value the random source may give. For tame
      bounds it lies within a quarter of the capped doubling. */
  method BackoffDelay(n: int, base: int, maxDelay: int) returns (delay: int)
    ensures exists j :: 0 <= j < JitterSpan(PreJitter(n, base, maxDelay)) && delay == Jittered(PreJitter(n, base, maxDelay), j)
    ensures Tame(base, maxDelay) ==>
              var d := CappedDoubling(n, base, maxDelay);
              0 < d <= maxDelay && 3 * d <= 4 * delay < 5 * d
  {
    var k := n;
    if k < 1 { k := 1; }
    var d := ShiftLeft64(base, k - 1);
    if d <= 0 || d > maxDelay {
      d := maxDelay;
    }
    var half := Quotient(d, 2);
    if half <= 0 { half := 1; }
    var jitter := *;
    if !(0 <= jitter < half) { jitter := 0; }
    delay := Wrap64(d - Quotient(d, 4) + jitter);
    assert 0 <= jitter < JitterSpan(d) && delay == Jittered(d, jitter) && d == PreJitter(n, base, maxDelay);
    if Tame(base, maxDelay) {
      PreJitterIsCappedDoubling(n, base, maxDelay);
      TameBand(n, base, maxDelay);
    }
  }

  lemma TameBand(n: int, base: int, cap: int)
    requires Tame(base, cap)
    ensures var d := PreJitter(n, base, cap);
            0 < d <= cap && forall j :: 0 <= j < JitterSpan(d) ==> 3 * d <= 4 * Jittered(d, j) < 5 * d
  {
    var d := PreJitter(n, base, cap);
    assert d - Quotient(d, 4) + JitterSpan(d) - 1 < TWO_63;
    JitterBand(d);
  }

  // ---------------------------------------------------------------------------
  // The retry loops

  /** What one send brings back. `hint` is the parsed Retry-After header, zero when absent. */
  datatype Reply = NetworkError(transient: bool) | Response(status: int, hint: int)

  predicate ShouldRetry(r: Reply) {
    match r
    case NetworkError(t) => t
    case Response(s, _) => s == 429 || s == 500 || s == 502 || s == 503 || s == 504
  }

  /** Only a 429 carries a hint. */
  function Hint(r: Reply): int { if r.Response? && r.status == 429 then r.hint else 0 }

  datatype Config = Config(maxRetries: nat, retryBase: int, retryCap: int, retryAfterCap: int)

  ghost predicate Sound(c: Config) { Tame(c.retryBase, c.retryCap) }

  /** What a reply is retried after, and what not. */
  ghost predicate Transient(r: Reply) {
    (r.NetworkError? && r.transient) || (r.Response? && r.status in {429, 500, 502, 503, 504})
  }

  lemma RetriesTransient(r: Reply)
    ensures ShouldRetry(r) <==> Transient(r)
  {
  }

  /** The wait after a reply, `n` being the number of the retry: what a 429 asks for, within its cap, or
      a jittered delay, which for sound tunings is within a quarter of the doubled base. */
  ghost predicate WaitAfter(r: Reply, n: nat, c: Config, wait: int) {
    if r.Response? && r.status == 429 && r.hint > 0 then wait == Min(r.hint, c.retryAfterCap)
    else
      var d := PreJitter(n, c.retryBase, c.retryCap);
      && (exists j :: 0 <= j < JitterSpan(d) && wait == Jittered(d, j))
      && (Sound(c) ==> var doubled := CappedDoubling(n, c.retryBase, c.retryCap); 3 * doubled <= 4 * wait < 5 * doubled)
  }

  /** Send `i` of an attempt was answered by something transient and then waited for. */
  ghost predicate Retried(replies: nat -> Reply, from: nat, i: nat, c: Config, wait: int) {
    Transient(replies(from + i)) && WaitAfter(replies(from + i), i + 1, c, wait)
  }

  /** An attempt: sends that were all retried but the last, each after its wait. */
  ghost predicate OneAttempt(replies: nat -> Reply, from: nat, c: Config, sends: nat, waits: seq<int>) {
    && 1 <= sends <= c.maxRetries + 1 && |waits| == sends - 1
    && (forall i: nat :: i < |waits| ==> Retried(replies, from, i, c, waits[i]))
    && (Transient(replies(from + sends - 1)) ==> sends == c.maxRetries + 1)
  }

  /** No wait of an attempt exceeds both a quarter more than the cap and the cap on what is asked for. */
  lemma WaitsAreBounded(replies: nat -> Reply, from: nat, c: Config, sends: nat, waits: seq<int>, w: int)
    requires OneAttempt(replies, from, c, sends, waits) && Sound(c) && w in waits
    ensures 4 * w < 5 * c.retryCap || w <= c.retryAfterCap
  {
    hide CappedDoubling;
    var i :| 0 <= i < |waits| && waits[i] == w;
    assert Retried(replies, from, i, c, waits[i]);
    CappedBelow(i + 1, c.retryBase, c.retryCap);
  }

  lemma CappedBelow(n: int, base: int, cap: int)
    ensures CappedDoubling(n, base, cap) <= cap
  {
  }

  /** The default tuning, in nanoseconds. */
  lemma DefaultsAreSound(maxRetries: nat)
    ensures Sound(Config(maxRetries, 100_000_000, 5_000_000_000, 60_000_000_000))
  {
  }

  /** One request with its retries; `replies(i)` answers send number i. */
  method Attempt(replies: nat -> Reply, from: nat, c: Config) returns (last: Reply, sends: nat, waits: seq<int>)
    ensures OneAttempt(replies, from, c, sends, waits) && last == replies(from + sends - 1)
  {
    sends, waits := 0, [];
    last := replies(from);
    for attempt := 0 to c.maxRetries + 1
      invariant sends == attempt == |waits| && sends <= c.maxRetries
      invariant forall i: nat :: i < |waits| ==> Retried(replies, from, i, c, waits[i])
    {
      last := replies(from + sends);
      RetriesTransient(last);
      sends := sends + 1;
      if !ShouldRetry(last) || attempt == c.maxRetries {
        return;
      }
      var delay := Hint(last);
      if delay > 0 {
        if delay > c.retryAfterCap { delay := c.retryAfterCap; }
      } else {
        delay := BackoffDelay(attempt + 1, c.retryBase, c.retryCap);
      }
      waits := waits + [delay];
    }
  }

  predicate Unauthorized(r: Reply) { r.Response? && r.status == 401 }

  /** A first attempt of `first` sends that ended in a 401, and a second. */
  ghost predicate TwoAttempts(replies: nat -> Reply, c: Config, sends: nat, waits: seq<int>, first: nat) {
    && 1 <= first < sends && first - 1 <= |waits|
    && OneAttempt(replies, 0, c, first, waits[..first - 1])
    && OneAttempt(replies, first, c, sends - first, waits[first - 1..])
    && replies(first - 1).Response? && replies(first - 1).status == 401
  }

  /** A request: one attempt, and one more if that ends in a 401 and a token source gives a new token. */
  method Do(replies: nat -> Reply, c: Config, hasTokenSource: bool, refreshSucceeds: bool)
    returns (last: Reply, sends: nat, waits: seq<int>)
    ensures sends >= 1 && last == replies(sends - 1)
    ensures OneAttempt(replies, 0, c, sends, waits) || exists first :: TwoAttempts(replies, c, sends, waits, first)
    ensures OneAttempt(replies, 0, c, sends, waits) ==> !(last.Response? && last.status == 401 && hasTokenSource && refreshSucceeds)
    ensures !OneAttempt(replies, 0, c, sends, waits) ==> hasTokenSource && refreshSucceeds
  {
    last, sends, waits := Attempt(replies, 0, c);
    if Unauthorized(last) && hasTokenSource && refreshSucceeds {
      ghost var first, waits1 := sends, waits;
      var more, waits2;
      last, more, waits2 := Attempt(replies, sends, c);
      sends, waits := sends + more, waits + waits2;
      assert waits[..first - 1] == waits1 && waits[first - 1..] == waits2;
      assert TwoAttempts(replies, c, sends, waits, first);
    }
  }
}
