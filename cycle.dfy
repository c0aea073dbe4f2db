/**
 * Cycle-day arithmetic and phase classification (`calculate_cycle_day` and
 * `get_phase_info` in main.py). Calendar dates are whole day numbers, so the
 * difference of two dates is a plain subtraction, and "today" is a parameter.
 */
module Cycle {
  import opened Wrappers

  /** The length used when the profile has none, and the one every phase lookup uses. */
  const DEFAULT_CYCLE_LENGTH := 28

  /** Python's `a % b`: floored modulo, so the remainder takes the sign of the divisor. */
  function PyMod(a: int, b: int): (r: int)
    requires b != 0
    ensures b > 0 ==> 0 <= r < b
    ensures b < 0 ==> b < r <= 0
    ensures exists q :: a == q * b + r
  {
    var m := a % b;
    assert a == (a / b) * b + m;
    assert b < 0 && m != 0 ==> a == (a / b - 1) * b + (m + b);
    if b > 0 || m == 0 then m else m + b
  }

  lemma MulAtLeast(k: int, b: int)
    requires k >= 1 && b > 0
    ensures k * b >= b
  {
  }

  /** A remainder and quotient are determined by any decomposition `a == q * b + r` with `0 <= r < b`. */
  lemma ModUnique(a: int, b: int, q: int, r: int)
    requires b > 0 && 0 <= r < b && a == q * b + r
    ensures a % b == r && a / b == q
  {
    var q0, r0 := a / b, a % b;
    assert a == q0 * b + r0;
    assert (q - q0) * b == r0 - r;
    if q > q0 {
      MulAtLeast(q - q0, b);
    } else if q < q0 {
      MulAtLeast(q0 - q, b);
    }
  }

  /** `cycle_length or 28`: both a missing and a zero length fall back to 28. */
  function EffectiveLength(cycleLength: Option<int>): (l: int)
    ensures l != 0
    ensures cycleLength.Some? && cycleLength.value != 0 ==> l == cycleLength.value
    ensures cycleLength.None? || cycleLength.value == 0 ==> l == DEFAULT_CYCLE_LENGTH
  {
    match cycleLength
    case Some(c) => if c != 0 then c else DEFAULT_CYCLE_LENGTH
    case None => DEFAULT_CYCLE_LENGTH
  }

  /**
   * `calculate_cycle_day`: the 1-based position of `today` in the cycle that
   * started on `lastPeriod`, or None when no last-period date is known.
   */
  function CycleDay(today: int, lastPeriod: Option<int>, cycleLength: Option<int>): (r: Option<int>)
    ensures r.None? <==> lastPeriod.None?
    ensures r.Some? && EffectiveLength(cycleLength) > 0 ==>
      1 <= r.value <= EffectiveLength(cycleLength)
  {
    match lastPeriod
    case None => None
    case Some(start) => Some(PyMod(today - start, EffectiveLength(cycleLength)) + 1)
  }

  /**
   * The cycle day is one more than the offset of `today` within its cycle: for
   * every way of writing the days since the last period as `q` whole cycles
   * plus `r` days with `0 <= r < L`, the result is `r + 1`.
   */
  lemma CycleDayOffset(today: int, start: int, cycleLength: Option<int>, q: int, r: int)
    requires EffectiveLength(cycleLength) > 0
    requires 0 <= r < EffectiveLength(cycleLength)
    requires today - start == q * EffectiveLength(cycleLength) + r
    ensures CycleDay(today, Some(start), cycleLength) == Some(r + 1)
  {
    ModUnique(today - start, EffectiveLength(cycleLength), q, r);
  }

  /** On the first day of the last period the cycle day is 1. */
  lemma CycleDayOnLastPeriod(start: int, cycleLength: Option<int>)
    ensures CycleDay(start, Some(start), cycleLength) == Some(1)
  {
  }

  /** Moving `today` by one cycle length does not change the cycle day. */
  lemma CycleDayPeriodic(today: int, start: int, cycleLength: Option<int>)
    requires EffectiveLength(cycleLength) > 0
    ensures CycleDay(today + EffectiveLength(cycleLength), Some(start), cycleLength)
         == CycleDay(today, Some(start), cycleLength)
  {
    var l := EffectiveLength(cycleLength);
    var q, r := (today - start) / l, (today - start) % l;
    CycleDayOffset(today, start, cycleLength, q, r);
    assert today + l - start == (q + 1) * l + r;
    CycleDayOffset(today + l, start, cycleLength, q + 1, r);
  }

  /** The next calendar day is the next cycle day, wrapping from the last day back to 1. */
  lemma CycleDayAdvances(today: int, start: int, cycleLength: Option<int>)
    requires EffectiveLength(cycleLength) > 0
    ensures var d := CycleDay(today, Some(start), cycleLength).value;
      CycleDay(today + 1, Some(start), cycleLength).value
        == if d == EffectiveLength(cycleLength) then 1 else d + 1
  {
    var l := EffectiveLength(cycleLength);
    var q, r := (today - start) / l, (today - start) % l;
    CycleDayOffset(today, start, cycleLength, q, r);
    if r + 1 == l {
      assert today + 1 - start == (q + 1) * l + 0;
      CycleDayOffset(today + 1, start, cycleLength, q + 1, 0);
    } else {
      CycleDayOffset(today + 1, start, cycleLength, q, r + 1);
    }
  }

  datatype Phase = Unknown | Menstrual | Follicular | Ovulatory | Luteal

  /** The text `get_phase_info` returns for each phase. */
  function Label(p: Phase): string
  {
    match p
    case Unknown => "Unknown"
    case Menstrual => "Menstrual Phase"
    case Follicular => "Follicular Phase"
    case Ovulatory => "Ovulatory Phase"
    case Luteal => "Luteal Phase"
  }

  lemma LabelInjective(p: Phase, q: Phase)
    ensures Label(p) == Label(q) <==> p == q
  {
    if p != q {
      assert Label(p)[0] != Label(q)[0];
    }
  }

  /** `int(l * 0.5)`: half of `l`, truncated toward zero. */
  function TruncHalf(l: int): (h: int)
    ensures l >= 0 ==> 0 <= 2 * h <= l < 2 * h + 2
    ensures l < 0 ==> 2 * h - 2 < l <= 2 * h <= 0
  {
    if l >= 0 then l / 2 else -((-l) / 2)
  }

  /**
   * `get_phase_info(cycle_day, cycle_length)`: an ordered chain of range tests;
   * whatever none of the first three ranges takes, day 0, negative days and
   * days past the cycle length included, is Luteal.
   */
  function PhaseOf(cycleDay: Option<int>, cycleLength: int): (p: Phase)
    ensures p == Unknown <==> cycleDay.None?
  {
    match cycleDay
    case None => Unknown
    case Some(d) =>
      var follicularEnd := TruncHalf(cycleLength);
      var ovulatoryEnd := follicularEnd + 3;
      if 1 <= d <= 5 then Menstrual
      else if 6 <= d <= follicularEnd then Follicular
      else if follicularEnd < d <= ovulatoryEnd then Ovulatory
      else Luteal
  }

  /**
   * Once the follicular range starts after the menstrual one (cycle length at
   * least 10), each phase is exactly an interval of days.
   */
  lemma PhaseIntervals(d: int, cycleLength: int)
    requires cycleLength >= 10
    ensures var f := cycleLength / 2;
      var p := PhaseOf(Some(d), cycleLength);
      && (p == Menstrual <==> 1 <= d <= 5)
      && (p == Follicular <==> 6 <= d <= f)
      && (p == Ovulatory <==> f < d <= f + 3)
      && (p == Luteal <==> d < 1 || f + 3 < d)
  {
  }

  /** The default length of 28 gives days 1-5, 6-14, 15-17 and 18-28. */
  lemma {:induction false} DefaultPhaseTable(d: int)
    requires 1 <= d <= DEFAULT_CYCLE_LENGTH
    ensures var p := PhaseOf(Some(d), DEFAULT_CYCLE_LENGTH);
      && (p == Menstrual <==> d <= 5)
      && (p == Follicular <==> 6 <= d <= 14)
      && (p == Ovulatory <==> 15 <= d <= 17)
      && (p == Luteal <==> 18 <= d)
  {
    PhaseIntervals(d, DEFAULT_CYCLE_LENGTH);
  }

  /** Position of a phase in the order the cycle goes through them. */
  function Rank(p: Phase): nat
  {
    match p
    case Unknown => 0
    case Menstrual => 1
    case Follicular => 2
    case Ovulatory => 3
    case Luteal => 4
  }

  /** From day 1 on, a later day never has an earlier phase, whatever the cycle length. */
  lemma PhaseMonotone(d1: int, d2: int, cycleLength: int)
    requires 1 <= d1 <= d2
    ensures Rank(PhaseOf(Some(d1), cycleLength)) <= Rank(PhaseOf(Some(d2), cycleLength))
  {
  }
}
