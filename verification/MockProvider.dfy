/** The mock provider's callback sender: back-off, retries and the weighted choice of outcomes. */
module MockProvider {
  import opened Boundary
  import opened Posting
  import opened Text

  // ----- 64-bit arithmetic

  /** A result wrapped into a signed 64-bit integer. */
  function Wrap(x: int): int {
    (x - MIN64) % TWO64 + MIN64
  }

  const TWO63 := 0x8000_0000_0000_0000
  const TWO64 := 0x1_0000_0000_0000_0000

  lemma WrapIsIdentity(x: int)
    requires MIN64 <= x <= MAX64
    ensures Wrap(x) == x
  {
  }

  /** Wrapping reads the residue modulo 2^64 as a signed number. */
  lemma WrapOfResidue(x: int)
    ensures Wrap(x) == if x % TWO64 < TWO63 then x % TWO64 else x % TWO64 - TWO64
  {
    var q, r := x / TWO64, x % TWO64;
    if r < TWO63 { Residue(r + TWO63, q, x - MIN64); } else { Residue(r - TWO63, q + 1, x - MIN64); }
  }

  lemma Residue(r: int, q: int, x: int)
    requires 0 <= r < TWO64 && x == q * TWO64 + r
    ensures x % TWO64 == r
  {
  }

  /** Wrapping a factor first makes no difference. */
  lemma WrapFactor(b: int, p: int)
    ensures Wrap(b * Wrap(p)) == Wrap(b * p)
  {
    WrapOfResidue(p);
    var k := (p - Wrap(p)) / TWO64;
    assert p == Wrap(p) + k * TWO64;
    Spread(b, Wrap(p), k);
    Shift(b * Wrap(p) - MIN64, b * k);
  }

  lemma Spread(b: int, w: int, k: int)
    ensures b * (w + k * TWO64) == b * w + (b * k) * TWO64
  {
  }

  lemma Shift(x: int, k: int)
    ensures (x + k * TWO64) % TWO64 == x % TWO64
  {
    Residue(x % TWO64, x / TWO64 + k, x + k * TWO64);
  }

  /** Go's division truncates towards zero. */
  function Quotient(x: int, d: int): int
    requires d > 0
  {
    if x >= 0 then x / d else -(-x / d)
  }

  function Pow2(n: nat): nat {
    if n == 0 then 1 else 2 * Pow2(n - 1)
  }

  // ----- back-off (times in nanoseconds)

  const MS := 1_000_000
  const SECOND := 1_000_000_000

  datatype Config = Config(base: int, max: int, jitterPct: int, maxRetries: int)

  /** Both durations fit their 64-bit type. */
  predicate Durations(cfg: Config) {
    MIN64 <= cfg.base <= MAX64 && MIN64 <= cfg.max <= MAX64
  }

  function BaseOf(cfg: Config): int {
    if cfg.base <= 0 then 250 * MS else cfg.base
  }

  function MaxOf(cfg: Config): int {
    if cfg.max <= 0 then 10 * SECOND else cfg.max
  }

  function JitterPct(cfg: Config): int {
    if cfg.jitterPct <= 0 then 0 else if cfg.jitterPct > 100 then 100 else cfg.jitterPct
  }

  function Min(a: int, b: int): int {
    if a < b then a else b
  }

  /** The exponential wait, capped: base * 2^attempt in 64 bits. */
  function WaitOf(cfg: Config, attempt: nat): int {
    Min(Wrap(BaseOf(cfg) * Wrap(Pow2(attempt))), MaxOf(cfg))
  }

  /** How far the jitter reaches: jp per cent of the wait, in 64 bits; nothing if that is negative. */
  function ShareOf(wait: int, jp: int): nat {
    var delta := Quotient(Wrap(wait * jp), 100);
    if delta <= 0 then 0 else delta
  }

  function Jittered(wait: int, share: nat, draw: nat): int {
    if share == 0 then wait else Wrap(wait + (draw % (2 * share + 1) - share))
  }

  /** `draw` is what the shared generator is about to deliver. */
  function Backoff(cfg: Config, attempt: nat, draw: nat): int {
    Jittered(WaitOf(cfg, attempt), ShareOf(WaitOf(cfg, attempt), JitterPct(cfg)), draw)
  }

  /** min(base * 2^attempt, max), over the integers. */
  function Ideal(cfg: Config, attempt: nat): int {
    Min(BaseOf(cfg) * Pow2(attempt), MaxOf(cfg))
  }

  function Delta(cfg: Config, attempt: nat): int {
    Ideal(cfg, attempt) * JitterPct(cfg) / 100
  }

  /** Neither the product nor the longest wait of this back-off leaves 64 bits. */
  predicate Fits(cfg: Config, attempt: nat) {
    BaseOf(cfg) * Pow2(attempt) <= MAX64 && Ideal(cfg, attempt) + Delta(cfg, attempt) <= MAX64
  }

  lemma {:induction false} Positive(n: nat)
    ensures Pow2(n) >= 1
  {
    if n > 0 { Positive(n - 1); }
  }

  lemma ProductIsPositive(cfg: Config, attempt: nat)
    ensures 1 <= BaseOf(cfg) <= BaseOf(cfg) * Pow2(attempt)
  {
    Positive(attempt);
    Scale(BaseOf(cfg), 1, Pow2(attempt));
  }

  /** The wait is the residue of the product modulo 2^64, read as a signed number and capped. */
  lemma WaitOfResidue(cfg: Config, attempt: nat)
    ensures var r := BaseOf(cfg) * Pow2(attempt) % TWO64;
            WaitOf(cfg, attempt) == Min(if r < TWO63 then r else r - TWO64, MaxOf(cfg))
  {
    WrapFactor(BaseOf(cfg), Pow2(attempt));
    WrapOfResidue(BaseOf(cfg) * Pow2(attempt));
  }

  lemma FittingWait(cfg: Config, attempt: nat)
    requires BaseOf(cfg) * Pow2(attempt) <= MAX64
    ensures WaitOf(cfg, attempt) == Ideal(cfg, attempt)
  {
    WrapFactor(BaseOf(cfg), Pow2(attempt));
    ProductIsPositive(cfg, attempt);
    WrapIsIdentity(BaseOf(cfg) * Pow2(attempt));
  }

  // ----- the jitter of one wait

  lemma Percent(w: int, jp: int)
    requires 0 <= w && 0 <= jp <= 100
    ensures 0 <= w * jp / 100 <= w && 0 <= w * jp
  {
    assert w * jp <= w * 100;
  }

  lemma WrapShrinks(x: int)
    requires x >= 0
    ensures Wrap(x) <= x
  {
    WrapOfResidue(x);
    assert x % TWO64 <= x;
  }

  /** Overflow in the share of a wait that is not negative only makes the jitter smaller. */
  lemma ShareIsBounded(w: int, jp: int)
    requires 0 <= w && 0 <= jp <= 100
    ensures ShareOf(w, jp) <= w * jp / 100 <= w
    ensures w * jp <= MAX64 ==> ShareOf(w, jp) == w * jp / 100
  {
    Percent(w, jp);
    WrapShrinks(w * jp);
    if w * jp <= MAX64 { WrapIsIdentity(w * jp); }
  }

  /** A negative wait has a share only if its product with the percentage overflows, and then one too
      small to take it to zero or below 64 bits. */
  lemma NegativeShare(w: int, jp: int)
    requires MIN64 <= w < 0 && 0 <= jp <= 100
    ensures MIN64 <= w - ShareOf(w, jp) && w + ShareOf(w, jp) < 0
  {
    var v := Wrap(w * jp);
    if v > 0 {
      var q := (v - w * jp) / TWO64;
      WrapDistance(w * jp);
      assert v == w * jp + q * TWO64;
      NegativeProduct(w, jp, v, q);
    }
  }

  lemma WrapDistance(x: int)
    ensures (Wrap(x) - x) % TWO64 == 0
  {
    WrapOfResidue(x);
    var q := x / TWO64;
    assert x == q * TWO64 + x % TWO64;
    Residue(0, if x % TWO64 < TWO63 then -q else -q - 1, Wrap(x) - x);
  }

  lemma NegativeProduct(w: int, jp: int, v: int, q: int)
    requires MIN64 <= w < 0 && 0 <= jp <= 100 && 0 < v <= MAX64 && v == w * jp + q * TWO64
    ensures MIN64 <= w - v / 100 && w + v / 100 < 0
  {
    var x := w + TWO63;
    assert w * jp == x * jp - jp * TWO63;
    assert v == x * jp + (2 * q - jp) * TWO63;
    Percent(x, jp);
    Percent(-w, jp);
    assert (-w) * jp == -(w * jp);
    assert q >= 1;
    assert v <= x * jp;
    assert v < (-w) * jp;
  }

  /** While no sum leaves 64 bits, the jittered wait is in the range. */
  lemma JitterRange(w: int, share: nat, draw: nat)
    requires MIN64 <= w - share && w + share <= MAX64
    ensures w - share <= Jittered(w, share, draw) <= w + share
  {
    var j := draw % (2 * share + 1);
    WrapIsIdentity(w + (j - share));
  }

  lemma SmallRemainder(x: nat, m: nat)
    requires x < m
    ensures x % m == x
  {
  }

  /** Any sum in the range that stays within 64 bits is drawn. */
  lemma DrawFor(w: int, share: nat, x: int) returns (draw: nat)
    requires w - share <= x <= w + share
    ensures Jittered(w, share, draw) == if share == 0 then w else Wrap(x)
  {
    draw := x - w + share;
    SmallRemainder(draw, 2 * share + 1);
  }

  lemma WrapsBelowZero(x: int)
    requires MAX64 < x < TWO64
    ensures Wrap(x) < 0
  {
    Residue(x, 0, x);
    WrapOfResidue(x);
  }

  // ----- one back-off

  lemma DeltaIsAShare(cfg: Config, attempt: nat)
    ensures 0 <= Delta(cfg, attempt) <= Ideal(cfg, attempt) && 0 <= Ideal(cfg, attempt) * JitterPct(cfg)
  {
    ProductIsPositive(cfg, attempt);
    Percent(Ideal(cfg, attempt), JitterPct(cfg));
  }

  /** While neither the product nor the longest wait overflows, every back-off lies within w plus or
      minus floor(w * jp / 100) and is never negative, even if the share of the jitter overflows. */
  lemma BackoffWithinJitter(cfg: Config, attempt: nat, draw: nat)
    requires Fits(cfg, attempt)
    ensures var w, delta := Ideal(cfg, attempt), Delta(cfg, attempt);
            0 <= w - delta <= Backoff(cfg, attempt, draw) <= w + delta
  {
    FittingWait(cfg, attempt);
    DeltaIsAShare(cfg, attempt);
    ShareIsBounded(Ideal(cfg, attempt), JitterPct(cfg));
    JitterRange(Ideal(cfg, attempt), ShareOf(Ideal(cfg, attempt), JitterPct(cfg)), draw);
  }

  /** And if the share does not overflow either, every value of that range is drawn. */
  lemma EveryJitterIsDrawn(cfg: Config, attempt: nat, x: int)
    requires Fits(cfg, attempt) && Ideal(cfg, attempt) * JitterPct(cfg) <= MAX64
    requires Ideal(cfg, attempt) - Delta(cfg, attempt) <= x <= Ideal(cfg, attempt) + Delta(cfg, attempt)
    ensures exists draw: nat :: Backoff(cfg, attempt, draw) == x
  {
    FittingWait(cfg, attempt);
    DeltaIsAShare(cfg, attempt);
    ShareIsBounded(Ideal(cfg, attempt), JitterPct(cfg));
    WrapIsIdentity(x);
    var draw := DrawFor(Ideal(cfg, attempt), Delta(cfg, attempt), x);
    assert Backoff(cfg, attempt, draw) == x;
  }

  /** The same in plain numbers: the base is 250 ms and the cap 10 s unless they are set, the
      percentage is kept between 0 and 100, and the back-off stays that share around the capped
      exponential wait. */
  lemma BackoffMeans(cfg: Config, attempt: nat, draw: nat)
    ensures var base, max := if cfg.base > 0 then cfg.base else 250_000_000, if cfg.max > 0 then cfg.max else 10_000_000_000;
            var share := if cfg.jitterPct > 100 then 100 else if cfg.jitterPct > 0 then cfg.jitterPct else 0;
            var wait := if base * Pow2(attempt) > max then max else base * Pow2(attempt);
            base * Pow2(attempt) <= MAX64 && wait + wait * share / 100 <= MAX64 ==>
              wait - wait * share / 100 <= Backoff(cfg, attempt, draw) <= wait + wait * share / 100
  {
    if Fits(cfg, attempt) { BackoffWithinJitter(cfg, attempt, draw); }
  }

  /** Left to its defaults, the sender waits 0.25, 0.5, 1, 2, 4 and 8 s, and then 10 s each time up to
      the 36th. */
  lemma DefaultSchedule(cfg: Config, attempt: nat, draw: nat)
    requires cfg.base <= 0 && cfg.max <= 0 && cfg.jitterPct <= 0 && attempt < 36
    ensures Backoff(cfg, attempt, draw) ==
              if attempt < 6 then [250_000_000, 500_000_000, 1_000_000_000, 2_000_000_000, 4_000_000_000, 8_000_000_000][attempt] else 10_000_000_000
  {
    DefaultWait(cfg, attempt, draw);
    SmallPowers(attempt);
    if attempt >= 6 { Grows(6, attempt); }
    CappedSchedule(Pow2(attempt), attempt);
  }

  lemma DefaultWait(cfg: Config, attempt: nat, draw: nat)
    requires cfg.base <= 0 && cfg.max <= 0 && cfg.jitterPct <= 0 && attempt < 36
    ensures Backoff(cfg, attempt, draw) == Min(250_000_000 * Pow2(attempt), 10_000_000_000)
  {
    DefaultBaseOverflowsAt36(cfg);
    ProductGrows(cfg, attempt, 35);
    Unjittered(cfg, attempt, draw);
    FittingWait(cfg, attempt);
  }

  lemma CappedSchedule(p: nat, n: nat)
    requires if n < 6 then p == [1, 2, 4, 8, 16, 32][n] else p >= 64
    ensures Min(250_000_000 * p, 10_000_000_000) ==
              if n < 6 then [250_000_000, 500_000_000, 1_000_000_000, 2_000_000_000, 4_000_000_000, 8_000_000_000][n] else 10_000_000_000
  {
  }

  lemma SmallPowers(n: nat)
    ensures n < 6 ==> Pow2(n) == [1, 2, 4, 8, 16, 32][n]
    ensures Pow2(6) == 64
  {
    assert Pow2(0) == 1 && Pow2(1) == 2 && Pow2(2) == 4 && Pow2(3) == 8 && Pow2(4) == 16 && Pow2(5) == 32;
  }

  lemma NoShare(w: int)
    ensures ShareOf(w, 0) == 0
  {
    WrapIsIdentity(w * 0);
  }

  /** The back-off as the code computes it: in the range above while nothing overflows, and no pause
      at all from attempt 64 on. */
  method RetryBackoff(cfg: Config, attempt: nat, draw: nat) returns (w: int)
    ensures w == Backoff(cfg, attempt, draw)
    ensures Fits(cfg, attempt) ==> 0 <= Ideal(cfg, attempt) - Delta(cfg, attempt) <= w <= Ideal(cfg, attempt) + Delta(cfg, attempt)
    ensures attempt >= 64 ==> w == 0
  {
    if Fits(cfg, attempt) { BackoffWithinJitter(cfg, attempt, draw); }
    if attempt >= 64 { LateBackoffIsZero(cfg, attempt, draw); }
    var base, max := cfg.base, cfg.max;
    if base <= 0 { base := 250 * MS; }
    if max <= 0 { max := 10 * SECOND; }
    var wait := Wrap(base * Wrap(Pow2(attempt)));
    if wait > max { wait := max; }
    var jp := cfg.jitterPct;
    if jp <= 0 {
      NoShare(wait);
      return wait;
    }
    if jp > 100 { jp := 100; }
    assert wait == WaitOf(cfg, attempt) && jp == JitterPct(cfg);
    var delta := Quotient(Wrap(wait * jp), 100);
    if delta <= 0 { return wait; }
    var j := draw % (2 * delta + 1) - delta;
    return Wrap(wait + j);
  }

  // ----- where the 64-bit product leaves the integers

  lemma {:induction false} Pow2Adds(m: nat, n: nat)
    ensures Pow2(m + n) == Pow2(m) * Pow2(n)
  {
    if n > 0 {
      Pow2Adds(m, n - 1);
      Doubled(Pow2(m), Pow2(n - 1));
    }
  }

  lemma Doubled(x: int, y: int)
    ensures x * (2 * y) == 2 * (x * y)
  {
  }

  lemma Pow2Of64()
    ensures Pow2(36) == 68719476736 && Pow2(64) == TWO64
  {
    assert Pow2(8) == 256;
    assert Pow2(16) == 65536 by { Pow2Adds(8, 8); }
    assert Pow2(32) == 4294967296 by { Pow2Adds(16, 16); }
    assert Pow2(36) == 68719476736 by { Pow2Adds(32, 4); assert Pow2(4) == 16; }
    assert Pow2(64) == TWO64 by { Pow2Adds(32, 32); }
  }

  lemma WrapOfMultiple(k: int)
    ensures Wrap(k * TWO64) == 0
  {
    Residue(0, k, k * TWO64);
    WrapOfResidue(k * TWO64);
  }

  lemma LatePowerIsZero(n: nat)
    requires n >= 64
    ensures Wrap(Pow2(n)) == 0
  {
    Pow2Of64();
    Pow2Adds(n - 64, 64);
    WrapOfMultiple(Pow2(n - 64));
  }

  /** From attempt 64 on the shifted one is gone: whatever the configuration, there is no pause. */
  lemma LateBackoffIsZero(cfg: Config, attempt: nat, draw: nat)
    requires attempt >= 64
    ensures Backoff(cfg, attempt, draw) == 0
  {
    LatePowerIsZero(attempt);
    WrapIsIdentity(0);
    assert BaseOf(cfg) * 0 == 0;
    assert WaitOf(cfg, attempt) == 0;
    assert 0 * JitterPct(cfg) == 0;
  }

  lemma Unjittered(cfg: Config, attempt: nat, draw: nat)
    requires cfg.jitterPct <= 0
    ensures Backoff(cfg, attempt, draw) == WaitOf(cfg, attempt)
  {
    NoShare(WaitOf(cfg, attempt));
  }

  /** When the cap of the wrapped product is the cap of the true one. */
  lemma CappedIff(p: int, max: int)
    requires p >= 1 && 1 <= max <= MAX64
    ensures Min(Wrap(p), max) == Min(p, max) <==> p <= MAX64 || max <= p % TWO64 < TWO63
  {
    WrapOfResidue(p);
    if p <= MAX64 { WrapIsIdentity(p); }
  }

  /** Without jitter the back-off is min(base * 2^attempt, max) if and only if the product stays
      within 64 bits, or its residue modulo 2^64 happens to lie at or above the cap and below 2^63. */
  lemma UnjitteredIffProductHolds(cfg: Config, attempt: nat, draw: nat)
    requires Durations(cfg) && cfg.jitterPct <= 0
    ensures var product := BaseOf(cfg) * Pow2(attempt);
            Backoff(cfg, attempt, draw) == Ideal(cfg, attempt) <==> product <= MAX64 || MaxOf(cfg) <= product % TWO64 < TWO63
  {
    Unjittered(cfg, attempt, draw);
    WrapFactor(BaseOf(cfg), Pow2(attempt));
    ProductIsPositive(cfg, attempt);
    CappedIff(BaseOf(cfg) * Pow2(attempt), MaxOf(cfg));
  }

  /** Whatever the jitter and the draw, a product that is negative in 64 bits gives a negative back-off. */
  lemma NegativeProductIsNegative(cfg: Config, attempt: nat, draw: nat)
    requires BaseOf(cfg) * Pow2(attempt) % TWO64 >= TWO63
    ensures Backoff(cfg, attempt, draw) < 0
  {
    WaitOfResidue(cfg, attempt);
    var w := WaitOf(cfg, attempt);
    NegativeShare(w, JitterPct(cfg));
    JitterRange(w, ShareOf(w, JitterPct(cfg)), draw);
  }

  /** Otherwise the wait is the residue, capped, and its share at most that. */
  lemma OtherWait(cfg: Config, attempt: nat)
    requires BaseOf(cfg) * Pow2(attempt) % TWO64 < TWO63
    ensures var w := WaitOf(cfg, attempt);
            w == Min(BaseOf(cfg) * Pow2(attempt) % TWO64, MaxOf(cfg)) && ShareOf(w, JitterPct(cfg)) <= w
  {
    WaitOfResidue(cfg, attempt);
    ShareIsBounded(WaitOf(cfg, attempt), JitterPct(cfg));
  }

  /** Whatever the jitter, some draw gives a negative back-off if and only if the product is negative
      in 64 bits, or the capped residue and its share together leave them. */
  lemma SomeDrawIsNegativeIff(cfg: Config, attempt: nat)
    ensures var w := WaitOf(cfg, attempt);
            (exists draw: nat :: Backoff(cfg, attempt, draw) < 0) <==>
            BaseOf(cfg) * Pow2(attempt) % TWO64 >= TWO63 || w + ShareOf(w, JitterPct(cfg)) > MAX64
  {
    var w := WaitOf(cfg, attempt);
    var share := ShareOf(w, JitterPct(cfg));
    if BaseOf(cfg) * Pow2(attempt) % TWO64 >= TWO63 {
      NegativeProductIsNegative(cfg, attempt, 0);
    } else {
      OtherWait(cfg, attempt);
      if w + share > MAX64 {
        var draw := DrawFor(w, share, w + share);
        WrapsBelowZero(w + share);
        assert Backoff(cfg, attempt, draw) < 0;
      } else {
        forall draw: nat ensures Backoff(cfg, attempt, draw) >= 0 {
          JitterRange(w, share, draw);
        }
      }
    }
  }

  /** With a cap of at most 2^62 ns, which is 146 years: whatever the jitter and the draw, the back-off
      is negative if and only if the product is negative in 64 bits. */
  lemma NegativeIffProductIs(cfg: Config, attempt: nat, draw: nat)
    requires MaxOf(cfg) <= MAX64 / 2
    ensures Backoff(cfg, attempt, draw) < 0 <==> BaseOf(cfg) * Pow2(attempt) % TWO64 >= TWO63
  {
    if BaseOf(cfg) * Pow2(attempt) % TWO64 >= TWO63 {
      NegativeProductIsNegative(cfg, attempt, draw);
    } else {
      OtherWait(cfg, attempt);
      var w := WaitOf(cfg, attempt);
      JitterRange(w, ShareOf(w, JitterPct(cfg)), draw);
    }
  }

  /** Every draw keeps to the promised range. */
  ghost predicate InRange(cfg: Config, attempt: nat) {
    forall draw: nat ::
      Ideal(cfg, attempt) - Delta(cfg, attempt) <= Backoff(cfg, attempt, draw) <= Ideal(cfg, attempt) + Delta(cfg, attempt)
  }

  lemma AddPercent(x: int, d: int, k: int)
    requires 0 <= d <= 100 * k
    ensures x / 100 <= (x + d) / 100 <= x / 100 + k
  {
  }

  lemma SplitProduct(w: int, v: int, jp: int)
    requires w <= v && 0 <= jp <= 100
    ensures v * jp == w * jp + (v - w) * jp && 0 <= (v - w) * jp <= 100 * (v - w)
  {
    Scale(v - w, jp, 100);
    Scale(v - w, 0, jp);
  }

  lemma ShareGrows(w: int, v: int, jp: int)
    requires 0 <= w <= v && 0 <= jp <= 100
    ensures w * jp / 100 <= v * jp / 100
    ensures w - w * jp / 100 <= v - v * jp / 100
  {
    SplitProduct(w, v, jp);
    AddPercent(w * jp, (v - w) * jp, v - w);
  }

  /** The wait never exceeds what it should be, nor its share. */
  lemma WaitIsNoLonger(cfg: Config, attempt: nat)
    requires Durations(cfg) && BaseOf(cfg) * Pow2(attempt) % TWO64 < TWO63
    ensures var w := WaitOf(cfg, attempt);
            0 <= w <= Ideal(cfg, attempt) && ShareOf(w, JitterPct(cfg)) <= w && ShareOf(w, JitterPct(cfg)) <= Delta(cfg, attempt)
  {
    OtherWait(cfg, attempt);
    ProductIsPositive(cfg, attempt);
    assert BaseOf(cfg) * Pow2(attempt) % TWO64 <= BaseOf(cfg) * Pow2(attempt);
    ShareGrows(WaitOf(cfg, attempt), Ideal(cfg, attempt), JitterPct(cfg));
    ShareIsBounded(WaitOf(cfg, attempt), JitterPct(cfg));
  }

  lemma LowestDraw(w: int, share: nat)
    requires 0 <= w - share <= MAX64
    ensures exists draw: nat :: Jittered(w, share, draw) == w - share
  {
    WrapIsIdentity(w - share);
    var draw := DrawFor(w, share, w - share);
  }

  lemma OverflowingDraw(w: int, share: nat)
    requires 0 <= share <= w <= MAX64 < w + share
    ensures exists draw: nat :: Jittered(w, share, draw) < 0
  {
    var draw := DrawFor(w, share, w + share);
    WrapsBelowZero(w + share);
  }

  /** When all draws of a wait with a share no longer than itself lie between `low` and `high`. */
  lemma DrawsWithinIff(w: int, share: nat, low: int, high: int)
    requires share <= w <= MAX64 && 0 <= low && w + share <= high
    ensures (forall draw: nat :: low <= Jittered(w, share, draw) <= high) <==> low <= w - share && w + share <= MAX64
  {
    if w + share > MAX64 {
      OverflowingDraw(w, share);
    } else {
      LowestDraw(w, share);
      forall draw: nat ensures w - share <= Jittered(w, share, draw) <= w + share {
        JitterRange(w, share, draw);
      }
    }
  }

  /** Whatever the jitter: every draw keeps to w plus or minus floor(w * jp / 100) if and only if the
      product is not negative in 64 bits, and the capped residue, with its share, neither falls short of
      that range nor leaves 64 bits. */
  lemma InRangeIff(cfg: Config, attempt: nat)
    requires Durations(cfg)
    ensures var w := WaitOf(cfg, attempt); var share := ShareOf(w, JitterPct(cfg));
            InRange(cfg, attempt) <==>
            && BaseOf(cfg) * Pow2(attempt) % TWO64 < TWO63
            && Ideal(cfg, attempt) - Delta(cfg, attempt) <= w - share && w + share <= MAX64
  {
    DeltaIsAShare(cfg, attempt);
    if BaseOf(cfg) * Pow2(attempt) % TWO64 >= TWO63 {
      NegativeProductIsNegative(cfg, attempt, 0);
    } else {
      WaitIsNoLonger(cfg, attempt);
      ResidueInRangeIff(cfg, attempt, WaitOf(cfg, attempt), ShareOf(WaitOf(cfg, attempt), JitterPct(cfg)));
    }
  }

  lemma ResidueInRangeIff(cfg: Config, attempt: nat, w: int, share: nat)
    requires w == WaitOf(cfg, attempt) && share == ShareOf(w, JitterPct(cfg)) && share <= w <= MAX64
    requires 0 <= Ideal(cfg, attempt) - Delta(cfg, attempt) && w + share <= Ideal(cfg, attempt) + Delta(cfg, attempt)
    ensures InRange(cfg, attempt) <==> Ideal(cfg, attempt) - Delta(cfg, attempt) <= w - share && w + share <= MAX64
  {
    var low, high := Ideal(cfg, attempt) - Delta(cfg, attempt), Ideal(cfg, attempt) + Delta(cfg, attempt);
    DrawsWithinIff(w, share, low, high);
    assert forall draw: nat :: Backoff(cfg, attempt, draw) == Jittered(w, share, draw);
  }

  /** The shortest jittered wait. */
  function Lowest(cfg: Config, w: int): int {
    w - w * JitterPct(cfg) / 100
  }

  /** With a cap of at most 2^63 / 100 ns, which is 2.9 years, that is: the product fits, or its residue
      is below 2^63 and, capped, has the same shortest wait as the cap. */
  lemma InRangeIffResidue(cfg: Config, attempt: nat)
    requires Durations(cfg) && MaxOf(cfg) * 100 <= MAX64
    ensures var product := BaseOf(cfg) * Pow2(attempt);
            InRange(cfg, attempt) <==>
            || product <= MAX64
            || (product % TWO64 < TWO63 && Lowest(cfg, Min(product % TWO64, MaxOf(cfg))) == Lowest(cfg, MaxOf(cfg)))
  {
    InRangeIff(cfg, attempt);
    var product := BaseOf(cfg) * Pow2(attempt);
    ProductIsPositive(cfg, attempt);
    if product <= MAX64 { Residue(product, 0, product); }
    if product % TWO64 < TWO63 {
      OtherWait(cfg, attempt);
      SmallCap(cfg, attempt);
    }
  }

  lemma SmallCap(cfg: Config, attempt: nat)
    requires MaxOf(cfg) * 100 <= MAX64 && BaseOf(cfg) * Pow2(attempt) % TWO64 < TWO63
    ensures var w := WaitOf(cfg, attempt); var share := ShareOf(w, JitterPct(cfg));
            w - share == Lowest(cfg, w) && w + share <= MAX64
    ensures Lowest(cfg, WaitOf(cfg, attempt)) <= Lowest(cfg, MaxOf(cfg))
  {
    OtherWait(cfg, attempt);
    ExactShare(WaitOf(cfg, attempt), JitterPct(cfg), MaxOf(cfg));
    ShareGrows(WaitOf(cfg, attempt), MaxOf(cfg), JitterPct(cfg));
  }

  lemma ExactShare(w: int, jp: int, max: int)
    requires 0 <= w <= max && max * 100 <= MAX64 && 0 <= jp <= 100
    ensures ShareOf(w, jp) == w * jp / 100 && w + ShareOf(w, jp) <= MAX64
  {
    Scale(w, jp, 100);
    ShareIsBounded(w, jp);
  }

  /** The first product beyond 64 bits always gives a negative back-off, whatever the jitter. */
  lemma FirstOverflowIsNegative(cfg: Config, attempt: nat, draw: nat)
    requires Durations(cfg)
    requires MAX64 < BaseOf(cfg) * Pow2(attempt) && (attempt > 0 ==> BaseOf(cfg) * Pow2(attempt - 1) <= MAX64)
    ensures Backoff(cfg, attempt, draw) < 0
    ensures cfg.jitterPct <= 0 ==> Backoff(cfg, attempt, draw) == BaseOf(cfg) * Pow2(attempt) - TWO64
  {
    var product := BaseOf(cfg) * Pow2(attempt);
    if attempt > 0 { Doubled(BaseOf(cfg), Pow2(attempt - 1)); }
    Residue(product, 0, product);
    NegativeProductIsNegative(cfg, attempt, draw);
    if cfg.jitterPct <= 0 {
      Unjittered(cfg, attempt, draw);
      WaitOfResidue(cfg, attempt);
    }
  }

  // ----- several back-offs together

  /** The first `n` back-offs, as the code computes them without jitter. */
  function Total(cfg: Config, n: nat): int {
    if n == 0 then 0 else Total(cfg, n - 1) + Backoff(cfg, n - 1, 0)
  }

  lemma Distribute(b: int, p: int)
    ensures b * (p - 1) + b * p == b * (2 * p - 1)
  {
  }

  lemma Scale(b: int, p: int, q: int)
    requires b >= 0 && p <= q
    ensures b * p <= b * q
  {
  }

  lemma {:induction false} Grows(m: nat, n: nat)
    requires m <= n
    ensures Pow2(m) <= Pow2(n)
  {
    if m < n {
      Grows(m, n - 1);
      Positive(n - 1);
    }
  }

  /** Products grow with the attempt. */
  lemma ProductGrows(cfg: Config, m: nat, n: nat)
    requires m <= n
    ensures BaseOf(cfg) * Pow2(m) <= BaseOf(cfg) * Pow2(n)
  {
    Grows(m, n);
    Scale(BaseOf(cfg), Pow2(m), Pow2(n));
  }

  lemma IdealBackoff(cfg: Config, attempt: nat)
    requires cfg.jitterPct <= 0 && BaseOf(cfg) * Pow2(attempt) <= MAX64
    ensures Backoff(cfg, attempt, 0) == Ideal(cfg, attempt)
  {
    Unjittered(cfg, attempt, 0);
    FittingWait(cfg, attempt);
  }

  /** Up to the cap the total doubles and doubles: base * (2^n - 1). */
  lemma {:induction false} TotalBelowCap(cfg: Config, n: nat)
    requires Durations(cfg) && cfg.jitterPct <= 0
    requires n == 0 || BaseOf(cfg) * Pow2(n - 1) <= MaxOf(cfg)
    ensures Total(cfg, n) == BaseOf(cfg) * (Pow2(n) - 1)
  {
    if n > 0 {
      if n > 1 { ProductGrows(cfg, n - 2, n - 1); }
      TotalBelowCap(cfg, n - 1);
      IdealBackoff(cfg, n - 1);
      Distribute(BaseOf(cfg), Pow2(n - 1));
    }
  }

  /** Attempt `m` is the first whose product reaches the cap. */
  predicate CapReachedAt(cfg: Config, m: nat) {
    (m == 0 || BaseOf(cfg) * Pow2(m - 1) <= MaxOf(cfg)) && MaxOf(cfg) <= BaseOf(cfg) * Pow2(m)
  }

  /** base * (2^m - 1) + (n - m) * max. */
  function Linear(cfg: Config, m: nat, n: nat): int {
    BaseOf(cfg) * (Pow2(m) - 1) + (n - m) * MaxOf(cfg)
  }

  lemma OneMore(cfg: Config, m: nat, n: nat)
    ensures Linear(cfg, m, n + 1) == Linear(cfg, m, n) + MaxOf(cfg)
  {
    assert (n + 1 - m) * MaxOf(cfg) == (n - m) * MaxOf(cfg) + MaxOf(cfg);
  }

  /** One capped back-off: the cap while the product fits, at most the cap beyond, and negative at
      the first product that does not fit. */
  lemma CappedBackoff(cfg: Config, m: nat, k: nat)
    requires Durations(cfg) && cfg.jitterPct <= 0 && CapReachedAt(cfg, m) && m <= k
    ensures Backoff(cfg, k, 0) <= MaxOf(cfg)
    ensures BaseOf(cfg) * Pow2(k) <= MAX64 ==> Backoff(cfg, k, 0) == MaxOf(cfg)
    ensures MAX64 < BaseOf(cfg) * Pow2(k) && (k == m || BaseOf(cfg) * Pow2(k - 1) <= MAX64) ==> Backoff(cfg, k, 0) < 0
  {
    Unjittered(cfg, k, 0);
    ProductGrows(cfg, m, k);
    if BaseOf(cfg) * Pow2(k) <= MAX64 {
      IdealBackoff(cfg, k);
    } else if k == m || BaseOf(cfg) * Pow2(k - 1) <= MAX64 {
      FirstOverflowIsNegative(cfg, k, 0);
    }
  }

  /** From the first capped back-off on, the total grows by the cap each time exactly as long as the
      products stay within 64 bits; from the first that does not, it is behind for good. */
  lemma {:induction false} TotalAboveCap(cfg: Config, m: nat, n: nat)
    requires Durations(cfg) && cfg.jitterPct <= 0 && CapReachedAt(cfg, m) && m <= n
    ensures Total(cfg, n) <= Linear(cfg, m, n)
    ensures Total(cfg, n) == Linear(cfg, m, n) <==> n == m || BaseOf(cfg) * Pow2(n - 1) <= MAX64
  {
    if m == n {
      TotalBelowCap(cfg, n);
    } else {
      TotalAboveCap(cfg, m, n - 1);
      CappedBackoff(cfg, m, n - 1);
      OneMore(cfg, m, n - 1);
      if n - 1 > m { ProductGrows(cfg, n - 2, n - 1); }
    }
  }

  /** And from attempt 64 on it stands still. */
  lemma {:induction false} TotalStandsStill(cfg: Config, n: nat)
    requires n >= 64
    ensures Total(cfg, n) == Total(cfg, 64)
  {
    if n > 64 {
      TotalStandsStill(cfg, n - 1);
      LateBackoffIsZero(cfg, n - 1, 0);
    }
  }

  // ----- posting with retries

  /** Only the delay-seconds form of section 10.2.3 of RFC 9110; a date reads as no delay. */
  function ParseRetryAfter(v: string): int {
    match Atoi(TrimSpace(v))
    case None => 0
    case Some(secs) => if secs >= 0 then Wrap(secs * SECOND) else 0
  }

  /** `t` is `n` in digits, perhaps with leading zeros and a plus sign. */
  predicate ReadsAs(t: string, n: nat) {
    var digits := if t != "" && t[0] == '+' then t[1..] else t;
    digits != "" && AllDigits(digits) && Value(digits) == n
  }

  /** The delay-seconds form, with any space around it, asks for that many seconds, in 64 bits. */
  lemma DelaySecondsAreRead(v: string, n: nat)
    requires ReadsAs(TrimSpace(v), n) && n <= MAX64
    ensures ParseRetryAfter(v) == Wrap(n * SECOND)
    ensures n * SECOND <= MAX64 ==> ParseRetryAfter(v) == n * SECOND
  {
    if n * SECOND <= MAX64 { WrapIsIdentity(n * SECOND); }
  }

  /** Nothing else asks for a delay: a date, a negative number, an empty value, a number beyond 64 bits. */
  lemma OthersAreIgnored(v: string)
    requires forall n: nat | n <= MAX64 :: !ReadsAs(TrimSpace(v), n)
    ensures ParseRetryAfter(v) == 0
  {
    var t := TrimSpace(v);
    if Atoi(t).Some? && Atoi(t).value >= 0 {
      if t[0] == '-' {
        assert Atoi(t).value == -1 * Value(t[1..]);
      } else {
        assert ReadsAs(t, Atoi(t).value);
      }
    }
  }

  /** For every value whose number, if it is one, fits: it asks for n > 0 seconds if and only if,
      trimmed, it is n in delay-seconds form. */
  lemma DelayIffSeconds(v: string, n: nat)
    requires n > 0 && forall k: nat | ReadsAs(TrimSpace(v), k) :: k * SECOND <= MAX64
    ensures ParseRetryAfter(v) == n * SECOND <==> ReadsAs(TrimSpace(v), n)
  {
    if k: nat :| ReadsAs(TrimSpace(v), k) { DelaySecondsAreRead(v, k); } else { OthersAreIgnored(v); }
  }

  /** What `Decimal` prints is such a form, and a value with anything but digits behind its first
      character, such as a date, is not. */
  lemma PrintedAndDates(v: string, n: nat, i: nat)
    requires n <= MAX64
    ensures ReadsAs(Decimal(n), n) && TrimSpace(Decimal(n)) == Decimal(n)
    ensures 0 < i < |TrimSpace(v)| && !IsDigit(TrimSpace(v)[i]) ==> ParseRetryAfter(v) == 0
  {
    ValueOfDecimal(n);
    var s, t := Decimal(n), TrimSpace(v);
    assert IsDigit(s[0]) && IsDigit(s[|s| - 1]);
    TrimSpaceIsFixed(s);
    if 0 < i < |t| && !IsDigit(t[i]) {
      assert t[1..][i - 1] == t[i];
      OthersAreIgnored(v);
    }
  }

  function Pause(cfg: Config, attempt: nat, a: Answer): int {
    if ParseRetryAfter(a.retryAfter) > 0 then ParseRetryAfter(a.retryAfter) else Backoff(cfg, attempt, a.draw)
  }

  /** The pauses of the callback sender: the delay the answer asks for, or else the back-off. */
  function PausesOf(cfg: Config): (nat, Answer) -> int {
    (attempt: nat, a: Answer) => Pause(cfg, attempt, a)
  }

  /** A positive number of seconds in the answer is the pause; otherwise the back-off of the attempt is. */
  lemma PauseMeans(cfg: Config, attempt: nat, a: Answer, n: nat)
    ensures ReadsAs(TrimSpace(a.retryAfter), n) && 0 < n && n * 1_000_000_000 <= MAX64 ==> PausesOf(cfg)(attempt, a) == n * 1_000_000_000
    ensures (forall k: nat | 0 < k <= MAX64 :: !ReadsAs(TrimSpace(a.retryAfter), k)) ==> PausesOf(cfg)(attempt, a) == Backoff(cfg, attempt, a.draw)
  {
    if ReadsAs(TrimSpace(a.retryAfter), n) && 0 < n && n * 1_000_000_000 <= MAX64 { DelaySecondsAreRead(a.retryAfter, n); }
    if forall k: nat | 0 < k <= MAX64 :: !ReadsAs(TrimSpace(a.retryAfter), k) {
      if ReadsAs(TrimSpace(a.retryAfter), 0) { DelaySecondsAreRead(a.retryAfter, 0); } else { OthersAreIgnored(a.retryAfter); }
    }
  }

  /** The callback sender: the posting loop with these pauses. */
  method PostWebhookWithRetry(cfg: Config, o: Outside<Question, Answer>) returns (ok: bool, ghost posts: nat)
    requires o.asked == []
    modifies o
    ensures PostingRun(cfg.maxRetries, PausesOf(cfg), o.reply, o.asked, ok, posts)
  {
    ok, posts := PostWithRetries(cfg.maxRetries, PausesOf(cfg), o);
  }

  /** A run of the sender with enough retries does ask for a negative pause, whatever the jitter: when
      its posts up to that of the first overflowing back-off fail in a way worth retrying, and the last
      of them asks for no delay of its own. */
  lemma NegativePauseIsAsked(cfg: Config, reply: nat -> Answer, asked: seq<Question>, ok: bool, posts: nat, k: nat)
    requires PostingRun(cfg.maxRetries, PausesOf(cfg), reply, asked, ok, posts)
    requires k < cfg.maxRetries && AllWorthRetrying(reply, k + 1) && ParseRetryAfter(reply(2 * k).retryAfter) <= 0
    requires Durations(cfg) && MAX64 < BaseOf(cfg) * Pow2(k) && (k > 0 ==> BaseOf(cfg) * Pow2(k - 1) <= MAX64)
    ensures 2 * k + 1 < |asked| && asked[2 * k + 1].Sleep? && asked[2 * k + 1].ns < 0
  {
    PauseIsAsked(cfg.maxRetries, PausesOf(cfg), reply, asked, ok, posts, k);
    PauseIsNegative(cfg, reply(2 * k), k);
  }

  lemma PauseIsNegative(cfg: Config, a: Answer, k: nat)
    requires Durations(cfg) && MAX64 < BaseOf(cfg) * Pow2(k) && (k > 0 ==> BaseOf(cfg) * Pow2(k - 1) <= MAX64)
    requires ParseRetryAfter(a.retryAfter) <= 0
    ensures PausesOf(cfg)(k, a) < 0
  {
    FirstOverflowIsNegative(cfg, k, a.draw);
  }

  lemma DefaultBaseOverflowsAt36(cfg: Config)
    requires BaseOf(cfg) == 250 * MS
    ensures BaseOf(cfg) * Pow2(35) <= MAX64 < BaseOf(cfg) * Pow2(36)
  {
    Pow2Of64();
    assert Pow2(36) == 2 * Pow2(35);
  }

  /** With the default base, whatever the cap, the jitter and the draws, that is the 37th pause of a
      sender with at least 37 retries. */
  lemma DefaultBaseSleepsNegative(cfg: Config, reply: nat -> Answer, asked: seq<Question>, ok: bool, posts: nat)
    requires Durations(cfg) && BaseOf(cfg) == 250 * MS && cfg.maxRetries >= 37
    requires PostingRun(cfg.maxRetries, PausesOf(cfg), reply, asked, ok, posts)
    requires AllWorthRetrying(reply, 37) && ParseRetryAfter(reply(72).retryAfter) <= 0
    ensures |asked| > 73 && asked[73].Sleep? && asked[73].ns < 0
  {
    DefaultBaseOverflowsAt36(cfg);
    NegativePauseIsAsked(cfg, reply, asked, ok, posts, 36);
  }

  // ----- the weighted choice, over the reals

  datatype Weighted = Weighted(kind: string, weight: real)

  /** The weights of the first `n` items together. */
  function Cumulative(items: seq<Weighted>, n: nat): real
    requires n <= |items|
  {
    if n == 0 then 0.0 else Cumulative(items, n - 1) + items[n - 1].weight
  }

  ghost predicate PositiveWeights(items: seq<Weighted>) {
    forall i | 0 <= i < |items| :: items[i].weight > 0.0
  }

  lemma {:induction false} CumulativeGrows(items: seq<Weighted>, m: nat, n: nat)
    requires PositiveWeights(items) && m < n <= |items|
    ensures Cumulative(items, m) < Cumulative(items, n)
  {
    if m < n - 1 { CumulativeGrows(items, m, n - 1); }
  }

  lemma TargetInRange(r: real, total: real)
    requires 0.0 <= r <= 1.0 && total >= 0.0
    ensures r * total <= total
  {
    assert total - r * total == (1.0 - r) * total;
  }

  /** Target `x` falls into the share of item `i`. */
  predicate Owns(items: seq<Weighted>, i: nat, x: real) {
    i < |items| && x <= Cumulative(items, i + 1) && (i > 0 ==> Cumulative(items, i) < x)
  }

  /** With positive weights and r in [0, 1]: the item in whose share of the total r * total falls,
      so item i owns an interval of length weight / total, and the fallback is never needed. */
  method PickWeighted(r: real, items: seq<Weighted>) returns (kind: string, ghost i: nat)
    ensures items == [] ==> kind == "failed"
    ensures items != [] && Cumulative(items, |items|) <= 0.0 ==> i == 0 && kind == items[0].kind
    ensures PositiveWeights(items) && items != [] && 0.0 <= r <= 1.0 ==>
              Owns(items, i, r * Cumulative(items, |items|)) && kind == items[i].kind
  {
    i := 0;
    if |items| == 0 { return "failed", 0; }
    var total := 0.0;
    for k := 0 to |items|
      invariant total == Cumulative(items, k)
    {
      total := total + items[k].weight;
    }
    if PositiveWeights(items) { CumulativeGrows(items, 0, |items|); }
    if total <= 0.0 { return items[0].kind, 0; }
    if 0.0 <= r <= 1.0 { TargetInRange(r, total); }
    kind, i := ItemAt(r * total, items);
  }

  /** The loop that looks for the target, with the last item as fallback. */
  method ItemAt(target: real, items: seq<Weighted>) returns (kind: string, ghost i: nat)
    requires items != []
    ensures i < |items| && kind == items[i].kind
    ensures if target <= Cumulative(items, |items|) then Owns(items, i, target) else i == |items| - 1 || Owns(items, i, target)
  {
    var cumulative := 0.0;
    for k := 0 to |items|
      invariant cumulative == Cumulative(items, k)
      invariant k > 0 ==> cumulative < target
    {
      cumulative := cumulative + items[k].weight;
      if target <= cumulative { return items[k].kind, k; }
    }
    return items[|items| - 1].kind, |items| - 1;
  }

  /** Above zero, item `i` owns an interval as long as its weight, right behind those of the items before it. */
  lemma ShareIsItsWeight(items: seq<Weighted>, i: nat, x: real)
    requires i < |items| && x > 0.0
    ensures Owns(items, i, x) <==> Cumulative(items, i) < x <= Cumulative(items, i) + items[i].weight
    ensures Cumulative(items, 0) == 0.0 && Cumulative(items, i + 1) == Cumulative(items, i) + items[i].weight
  {
  }

  /** The shares partition the range: every target up to the total is owned by exactly one item. */
  lemma SharesPartition(items: seq<Weighted>, x: real, i: nat, j: nat)
    requires PositiveWeights(items) && Owns(items, i, x) && Owns(items, j, x)
    ensures i == j
  {
    if i < j && i + 1 < j { CumulativeGrows(items, i + 1, j); }
    if j < i && j + 1 < i { CumulativeGrows(items, j + 1, i); }
  }
}
