/** The SM-2 scheduling arithmetic (sm/sm.go): from a recall quality and a
    card's repetition streak, easiness factor (scaled by 100) and previous
    interval in days, compute the new streak, easiness factor and interval.
    All quantities are Go `int16`s, so every overflow is written out. */
module Sm {
  import opened Prelude

  /** A configuration of the algorithm: the easiness-factor change for each
      quality it accepts, the least quality that keeps the streak, and the least
      quality that does not ask for a repeat on the same day. */
  datatype Algorithm = Algorithm(efMapping: map<int16, int16>, resetQuality: int16, repeatQuality: int16)

  /** The original six-level SM-2. */
  const SM2: Algorithm := Algorithm(map[0 := -80, 1 := -54, 2 := -32, 3 := -14, 4 := 0, 5 := 10], 3, 4)

  /** The four-level variant the bot uses. */
  const SM2Mod: Algorithm := Algorithm(map[0 := -80, 1 := -30, 2 := 0, 3 := 10], 2, 2)

  /** The least easiness factor. */
  const MinEF: int16 := 130

  /** The three results of one review. */
  datatype Schedule = Schedule(repetition: int16, easinessFactor: int16, interval: int16)

  /** A quality the configuration knows; any other makes `nextEF` panic. */
  predicate ValidQuality(a: Algorithm, q: int16)
  {
    q in a.efMapping
  }

  lemma QualityDomains(q: int16)
    ensures ValidQuality(SM2Mod, q) <==> 0 <= q <= 3
    ensures ValidQuality(SM2, q) <==> 0 <= q <= 5
  {
  }

  /** `nextEF`: add the quality's delta in 16 bits, then raise the result to at
      least 130. Without overflow this is the larger of the sum and 130. */
  function NextEF(a: Algorithm, q: int16, ef: int16): (r: int16)
    requires ValidQuality(a, q)
    ensures r >= MinEF
    ensures var sum := ef as int + a.efMapping[q] as int;
      -0x8000 <= sum < 0x8000 ==> r as int == Max(sum, MinEF as int)
  {
    var e := Wrap16(ef as int + a.efMapping[q] as int);
    if e < MinEF then MinEF else e
  }

  /** `nextRepetition`: a quality below the reset threshold restarts the streak
      at 1; any other quality extends it by one (in 16 bits). */
  function NextRepetition(a: Algorithm, q: int16, repetition: int16): (r: int16)
    ensures q < a.resetQuality ==> r == 1
    ensures q >= a.resetQuality && repetition < 0x7FFF ==> r as int == repetition as int + 1
    ensures q >= a.resetQuality && repetition == 0x7FFF ==> r == -0x8000
  {
    if q < a.resetQuality then 1 else Wrap16(repetition as int + 1)
  }

  /** `nextInterval`: a quality below the repeat threshold means "again today"
      (0 days); otherwise the first and second repetitions get 1 and 6 days and
      later ones the previous interval times the easiness factor over 100,
      rounded half up. `repetition` and `ef` are the values before this review.
      The product is formed in 64 bits, divided with truncation, cut to 16 bits,
      and then incremented (in 16 bits) when the remainder is at least 50. */
  function NextInterval(a: Algorithm, q: int16, ef: int16, repetition: int16, interval: int16): (r: int16)
    ensures q < a.repeatQuality ==> r == 0
    ensures q >= a.repeatQuality && repetition == 1 ==> r == 1
    ensures q >= a.repeatQuality && repetition == 2 ==> r == 6
    ensures var p := interval as int * ef as int;
      q >= a.repeatQuality && repetition != 1 && repetition != 2 && 0 <= p && (p + 50) / 100 < 0x8000
      ==> r as int == RoundHalfUp(p)
  {
    if q < a.repeatQuality then 0
    else if repetition == 1 then 1
    else if repetition == 2 then 6
    else
      var product := interval as int * ef as int;
      var days := Wrap16(Quot(product, 100));
      if Rem(product, 100) >= 50 then Wrap16(days as int + 1) else days
  }

  /** The reference rounding: a non-negative number of hundredths rounded to
      the nearest whole, halves upward. */
  function RoundHalfUp(hundredths: int): int
    requires hundredths >= 0
  {
    (hundredths + 50) / 100
  }

  /** `Calc`: the three updates, each computed from the values before the
      review (in particular `NextInterval` sees the old easiness factor and the
      old streak, not the ones just computed). */
  function Calc(a: Algorithm, q: int16, repetition: int16, ef: int16, interval: int16): (r: Schedule)
    requires ValidQuality(a, q)
    ensures r.repetition == NextRepetition(a, q, repetition)
    ensures r.easinessFactor == NextEF(a, q, ef)
    ensures r.interval == NextInterval(a, q, ef, repetition, interval)
    ensures r.easinessFactor >= MinEF
    ensures q < a.resetQuality ==> r.repetition == 1
    ensures q < a.repeatQuality ==> r.interval == 0
  {
    Schedule(NextRepetition(a, q, repetition), NextEF(a, q, ef), NextInterval(a, q, ef, repetition, interval))
  }

  /** The rounding examples: 7 days at 2.50 give 17.5, rounded up to 18; 10 days
      at 2.50 give exactly 25; a lower quality forces a repeat today. */
  lemma RoundingExamples()
    ensures NextInterval(SM2Mod, 3, 250, 3, 7) == 18
    ensures NextInterval(SM2Mod, 3, 250, 3, 10) == 25
    ensures NextInterval(SM2Mod, 1, 250, 3, 10) == 0
    ensures Calc(SM2Mod, 3, 1, 250, 0) == Schedule(2, 260, 1)
  {
  }

  // ---------------------------------------------------------------------------
  // Scheduling states the bot can reach

  /** The region of card fields the bot's own reviews stay in, as long as no
      16-bit overflow happens: a streak that is never negative, an easiness
      factor of at least 130, an interval that is never negative and at least
      one day once the streak has reached 2. */
  predicate Reachable(repetition: int16, ef: int16, interval: int16)
  {
    0 <= repetition && MinEF <= ef && 0 <= interval && (repetition >= 2 ==> interval >= 1)
  }

  /** No 16-bit overflow in the next review. */
  predicate NoOverflow(repetition: int16, ef: int16, interval: int16)
  {
    repetition < 0x7FFF && ef as int + 10 < 0x8000 && interval as int * ef as int + 50 < 100 * 0x8000
  }

  lemma ProductBounds(interval: int16, ef: int16)
    requires interval >= 1 && ef >= MinEF
    ensures interval as int * ef as int >= 130
  {
    var i := interval as int;
    var e := ef as int;
    assert i * e >= 1 * e by {
      assert (i - 1) * e >= 0;
    }
  }

  /** The SM2Mod review keeps a card inside `Reachable` while nothing overflows. */
  lemma {:induction false} ReachablePreserved(q: int16, repetition: int16, ef: int16, interval: int16)
    requires ValidQuality(SM2Mod, q)
    requires Reachable(repetition, ef, interval) && NoOverflow(repetition, ef, interval)
    ensures var s := Calc(SM2Mod, q, repetition, ef, interval);
      Reachable(s.repetition, s.easinessFactor, s.interval)
  {
    var s := Calc(SM2Mod, q, repetition, ef, interval);
    assert s.easinessFactor >= MinEF;
    if q >= 2 && repetition >= 3 {
      ProductBounds(interval, ef);
      var p := interval as int * ef as int;
      assert s.interval as int == RoundHalfUp(p);
      assert RoundHalfUp(p) >= 1;
    } else if q >= 2 && repetition == 0 {
      var p := interval as int * ef as int;
      assert p >= 0;
      assert s.interval as int == RoundHalfUp(p);
    }
  }

  /** In SM2Mod the repeat and reset thresholds coincide, so for a reachable
      card a same-day repeat always restarts the streak. */
  lemma {:induction false} SM2ModRepeatRestarts(q: int16, repetition: int16, ef: int16, interval: int16)
    requires ValidQuality(SM2Mod, q)
    requires Reachable(repetition, ef, interval) && NoOverflow(repetition, ef, interval)
    ensures NextInterval(SM2Mod, q, ef, repetition, interval) == 0 ==> NextRepetition(SM2Mod, q, repetition) == 1
  {
    if q >= 2 && repetition >= 3 {
      ProductBounds(interval, ef);
      var p := interval as int * ef as int;
      assert NextInterval(SM2Mod, q, ef, repetition, interval) as int == RoundHalfUp(p) >= 1;
    }
  }

  /** Outside `Reachable` the implication fails: a streak of 3 with a previous
      interval of 0 days gets another 0-day interval while the streak grows. */
  lemma RepeatWithoutRestart()
    ensures NextInterval(SM2Mod, 2, 250, 3, 0) == 0
    ensures NextRepetition(SM2Mod, 2, 3) == 4
    ensures !Reachable(3, 250, 0)
  {
    assert RoundHalfUp(0) == 0;
  }

  /** In SM2 the implication fails even for reachable cards, because quality 3
      keeps the streak but is below the repeat threshold 4. */
  lemma SM2RepeatKeepsStreak()
    ensures NextInterval(SM2, 3, 250, 1, 0) == 0
    ensures NextRepetition(SM2, 3, 1) == 2
    ensures NextEF(SM2, 3, 250) == 236
  {
  }

  /** A 16-bit overflow that the bot's arithmetic lets through: an interval of
      20000 days at 2.50 wraps to a negative number of days. */
  lemma IntervalWraps()
    ensures NextInterval(SM2Mod, 3, 250, 3, 20000) == -15536
  {
  }
}
