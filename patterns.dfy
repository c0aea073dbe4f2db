/**
 * `identify_patterns`: group the log by (phase, symptom), take each group's
 * mean intensity, and name the first group, in the sorted order pandas gives
 * the group keys, whose mean exceeds 3.
 */
module Patterns {
  import opened Wrappers
  import opened Text
  import opened Cycle
  import opened SymptomLog

  datatype GroupKey = GroupKey(phase: Phase, symptom: string)

  function KeyOf(e: Entry): GroupKey
  {
    GroupKey(e.phase, e.symptom)
  }

  /**
   * The order of sorted group keys: the phase text first, then the symptom,
   * both compared as Python strings.
   */
  predicate KeyLess(j: GroupKey, k: GroupKey)
  {
    StrLess(Label(j.phase), Label(k.phase))
    || (Label(j.phase) == Label(k.phase) && StrLess(j.symptom, k.symptom))
  }

  /** The key order is a strict total order, so "the first key" is well defined. */
  lemma KeyLessStrictTotal()
    ensures forall k :: !KeyLess(k, k)
    ensures forall j, k :: KeyLess(j, k) ==> !KeyLess(k, j)
    ensures forall i, j, k :: KeyLess(i, j) && KeyLess(j, k) ==> KeyLess(i, k)
    ensures forall j, k :: j == k || KeyLess(j, k) || KeyLess(k, j)
  {
    forall k
      ensures !KeyLess(k, k)
    {
      StrLessIrreflexive(Label(k.phase));
      StrLessIrreflexive(k.symptom);
    }
    forall j, k | KeyLess(j, k)
      ensures !KeyLess(k, j)
    {
      if StrLess(Label(j.phase), Label(k.phase)) {
        StrLessAsymmetric(Label(j.phase), Label(k.phase));
        StrLessIrreflexive(Label(k.phase));
      } else {
        StrLessAsymmetric(j.symptom, k.symptom);
        StrLessIrreflexive(Label(k.phase));
      }
    }
    forall i, j, k | KeyLess(i, j) && KeyLess(j, k)
      ensures KeyLess(i, k)
    {
      if StrLess(Label(i.phase), Label(j.phase)) && StrLess(Label(j.phase), Label(k.phase)) {
        StrLessTransitive(Label(i.phase), Label(j.phase), Label(k.phase));
      } else if Label(i.phase) == Label(j.phase) && Label(j.phase) == Label(k.phase) {
        StrLessTransitive(i.symptom, j.symptom, k.symptom);
      }
    }
    forall j, k
      ensures j == k || KeyLess(j, k) || KeyLess(k, j)
    {
      StrLessTotal(Label(j.phase), Label(k.phase));
      StrLessTotal(j.symptom, k.symptom);
      LabelInjective(j.phase, k.phase);
    }
  }

  /**
   * Sorting by the phase texts puts the phases in alphabetical order:
   * Follicular, Luteal, Menstrual, Ovulatory, Unknown.
   */
  lemma PhaseTextOrder(p: Phase, q: Phase)
    ensures StrLess(Label(p), Label(q)) <==> SortPosition(p) < SortPosition(q)
  {
    InitialOrder(p);
    InitialOrder(q);
    if p == q {
      StrLessIrreflexive(Label(p));
    } else {
      assert Label(p)[0] != Label(q)[0];
    }
  }

  lemma InitialOrder(p: Phase)
    ensures |Label(p)| > 0 && Label(p)[0] == "FLMOU"[SortPosition(p)]
  {
    match p
    case Follicular =>
    case Luteal =>
    case Menstrual =>
    case Ovulatory =>
    case Unknown =>
  }

  function SortPosition(p: Phase): nat
  {
    match p
    case Follicular => 0
    case Luteal => 1
    case Menstrual => 2
    case Ovulatory => 3
    case Unknown => 4
  }

  /** Number of entries in the group `k`. */
  function GroupCount(log: seq<Entry>, k: GroupKey): nat
  {
    if |log| == 0 then 0
    else (if KeyOf(log[0]) == k then 1 else 0) + GroupCount(log[1..], k)
  }

  /** Total intensity of the entries in the group `k`. */
  function GroupSum(log: seq<Entry>, k: GroupKey): int
  {
    if |log| == 0 then 0
    else (if KeyOf(log[0]) == k then log[0].intensity else 0) + GroupSum(log[1..], k)
  }

  /** The exact mean of a group's intensities (pandas computes it in floating point). */
  ghost function MeanIntensity(log: seq<Entry>, k: GroupKey): real
    requires GroupCount(log, k) > 0
  {
    GroupSum(log, k) as real / GroupCount(log, k) as real
  }

  /** The group's mean intensity is above 3, stated without division. */
  predicate HighIntensity(log: seq<Entry>, k: GroupKey)
  {
    GroupSum(log, k) > 3 * GroupCount(log, k)
  }

  /** For a group that occurs, the integer test is exactly `mean > 3`. */
  lemma HighIntensityIsMeanAboveThree(log: seq<Entry>, k: GroupKey)
    requires GroupCount(log, k) > 0
    ensures HighIntensity(log, k) <==> MeanIntensity(log, k) > 3.0
  {
    RatioAboveThree(GroupSum(log, k), GroupCount(log, k));
  }

  lemma RatioAboveThree(s: int, c: int)
    requires c > 0
    ensures s > 3 * c <==> s as real / c as real > 3.0
  {
    var x, y := s as real, c as real;
    var m := x / y;
    DivMul(x, y);
    if m > 3.0 {
      ProductPositive(m - 3.0, y);
      Distrib(m, 3.0, y);
      assert x - 3.0 * y > 0.0;
    } else {
      ProductNonNegative(3.0 - m, y);
      Distrib(3.0, m, y);
      assert 3.0 * y - x >= 0.0;
    }
  }

  lemma ProductNonNegative(x: real, y: real)
    requires x >= 0.0 && y > 0.0
    ensures x * y >= 0.0
  {
  }

  lemma ProductPositive(x: real, y: real)
    requires x > 0.0 && y > 0.0
    ensures x * y > 0.0
  {
  }

  lemma DivMul(x: real, y: real)
    requires y > 0.0
    ensures (x / y) * y == x
  {
  }

  lemma Distrib(a: real, b: real, y: real)
    ensures (a - b) * y == a * y - b * y
  {
  }

  /** A key that labels no entry has an empty group. */
  lemma {:induction false} AbsentKeyEmptyGroup(log: seq<Entry>, k: GroupKey)
    requires forall e :: e in log ==> KeyOf(e) != k
    ensures GroupCount(log, k) == 0 && GroupSum(log, k) == 0
  {
    if |log| > 0 {
      assert log[0] in log;
      AbsentKeyEmptyGroup(log[1..], k);
    }
  }

  /** Only a group that occurs in the log can qualify. */
  lemma HighGroupOccurs(log: seq<Entry>, k: GroupKey)
    requires HighIntensity(log, k)
    ensures exists e :: e in log && KeyOf(e) == k
  {
    if forall e :: e in log ==> KeyOf(e) != k {
      AbsentKeyEmptyGroup(log, k);
    }
  }

  /**
   * Scanning the candidate entries, the least key (in sorted order) among those
   * whose group qualifies, or None when no candidate's group does.
   */
  function LeastHigh(log: seq<Entry>, candidates: seq<Entry>): (r: Option<GroupKey>)
    ensures r.None? <==> forall e :: e in candidates ==> !HighIntensity(log, KeyOf(e))
    ensures r.Some? ==> HighIntensity(log, r.value)
    ensures r.Some? ==> exists e :: e in candidates && KeyOf(e) == r.value
    ensures r.Some? ==>
      forall e :: e in candidates && HighIntensity(log, KeyOf(e)) ==> !KeyLess(KeyOf(e), r.value)
    decreases |candidates|
  {
    if |candidates| == 0 then None
    else
      var k := KeyOf(candidates[0]);
      var rest := LeastHigh(log, candidates[1..]);
      assert forall e :: e in candidates <==> e == candidates[0] || e in candidates[1..];
      KeyLessStrictTotal();
      if !HighIntensity(log, k) then rest
      else if rest.Some? && KeyLess(rest.value, k) then rest
      else Some(k)
  }

  const NOT_ENOUGH_DATA := "Not enough data to identify patterns yet."
  const STILL_ANALYZING := "Still analyzing your patterns. Keep logging your symptoms!"

  function PatternSentence(k: GroupKey): (r: string)
    ensures |r| > 0 && r[0] == 'Y'
  {
    "You tend to experience higher intensity " + (k.symptom + " during your " + Label(k.phase) + ".")
  }

  /**
   * `identify_patterns`: fewer than 3 entries give the "not enough data" text;
   * otherwise the sentence for the first qualifying group, or "still analyzing"
   * when no group's mean intensity is above 3.
   */
  function IdentifyPatterns(log: seq<Entry>): (r: string)
    ensures |log| < 3 ==> r == NOT_ENOUGH_DATA
    ensures |log| >= 3 ==>
      (r == STILL_ANALYZING <==> forall e :: e in log ==> !HighIntensity(log, KeyOf(e)))
    ensures |log| >= 3 && r != STILL_ANALYZING ==>
      exists k :: r == PatternSentence(k) && HighIntensity(log, k)
        && forall e :: e in log && HighIntensity(log, KeyOf(e)) ==> !KeyLess(KeyOf(e), k)
  {
    if |log| < 3 then NOT_ENOUGH_DATA
    else
      match LeastHigh(log, log)
      case None => STILL_ANALYZING
      case Some(k) =>
        OutcomesDistinct(k);
        PatternSentence(k)
  }

  /** The three outcomes are different texts. */
  lemma OutcomesDistinct(k: GroupKey)
    ensures PatternSentence(k) != NOT_ENOUGH_DATA
    ensures PatternSentence(k) != STILL_ANALYZING
    ensures NOT_ENOUGH_DATA != STILL_ANALYZING
  {
    assert |STILL_ANALYZING| != |NOT_ENOUGH_DATA|;
  }

  /**
   * With at least 3 entries, a qualifying group that no other qualifying group
   * precedes in sorted order is the one named.
   */
  lemma IdentifyPatternsNamesFirstGroup(log: seq<Entry>, k: GroupKey)
    requires |log| >= 3
    requires HighIntensity(log, k)
    requires forall e :: e in log && HighIntensity(log, KeyOf(e)) ==> !KeyLess(KeyOf(e), k)
    ensures IdentifyPatterns(log) == PatternSentence(k)
  {
    HighGroupOccurs(log, k);
    var r := IdentifyPatterns(log);
    assert r != STILL_ANALYZING;
    var j :| r == PatternSentence(j) && HighIntensity(log, j)
      && forall e :: e in log && HighIntensity(log, KeyOf(e)) ==> !KeyLess(KeyOf(e), j);
    HighGroupOccurs(log, j);
    var e0 :| e0 in log && KeyOf(e0) == k;
    var e1 :| e1 in log && KeyOf(e1) == j;
    KeyLessStrictTotal();
    assert j == k;
  }

  /** Count and total of a group in a three-entry log, spelled out entry by entry. */
  lemma GroupOfThree(log: seq<Entry>, k: GroupKey)
    requires |log| == 3
    ensures GroupCount(log, k) == (if KeyOf(log[0]) == k then 1 else 0)
      + (if KeyOf(log[1]) == k then 1 else 0) + (if KeyOf(log[2]) == k then 1 else 0)
    ensures GroupSum(log, k) == (if KeyOf(log[0]) == k then log[0].intensity else 0)
      + (if KeyOf(log[1]) == k then log[1].intensity else 0) + (if KeyOf(log[2]) == k then log[2].intensity else 0)
  {
    assert |log[1..]| == 2 && log[1..][0] == log[1] && log[1..][1] == log[2];
    assert |log[1..][1..]| == 1 && log[1..][1..][0] == log[2];
    var t1, t2 := log[1..], log[1..][1..];
    assert GroupCount(t2[1..], k) == 0 && GroupSum(t2[1..], k) == 0;
    assert GroupCount(t2, k) == (if KeyOf(log[2]) == k then 1 else 0);
    assert GroupSum(t2, k) == (if KeyOf(log[2]) == k then log[2].intensity else 0);
    assert GroupCount(t1, k) == (if KeyOf(log[1]) == k then 1 else 0) + GroupCount(t2, k);
    assert GroupSum(t1, k) == (if KeyOf(log[1]) == k then log[1].intensity else 0) + GroupSum(t2, k);
  }

  /** Two Luteal mood entries of 4 and 5 beside a Follicular headache of 2 name the mood swings. */
  lemma LutealMoodExample(d: int, n: string)
    ensures var log := [
        Entry(d, Some(20), Luteal, "Mood swings", 4, n),
        Entry(d, Some(21), Luteal, "Mood swings", 5, n),
        Entry(d, Some(8), Follicular, "Headache", 2, n)];
      IdentifyPatterns(log) == PatternSentence(GroupKey(Luteal, "Mood swings"))
  {
    var log := [
        Entry(d, Some(20), Luteal, "Mood swings", 4, n),
        Entry(d, Some(21), Luteal, "Mood swings", 5, n),
        Entry(d, Some(8), Follicular, "Headache", 2, n)];
    var mood := GroupKey(Luteal, "Mood swings");
    var headache := GroupKey(Follicular, "Headache");
    GroupOfThree(log, mood);
    GroupOfThree(log, headache);
    assert !HighIntensity(log, headache);
    forall e | e in log && HighIntensity(log, KeyOf(e))
      ensures !KeyLess(KeyOf(e), mood)
    {
      assert KeyOf(e) == mood;
      StrLessIrreflexive(Label(Luteal));
      StrLessIrreflexive("Mood swings");
    }
    IdentifyPatternsNamesFirstGroup(log, mood);
  }

  /** For every key, the sentence names both its symptom and its phase text. */
  lemma SentenceNamesPair(k: GroupKey)
    ensures Contains(PatternSentence(k), k.symptom) && Contains(PatternSentence(k), Label(k.phase))
  {
    InfixTwo("You tend to experience higher intensity ", k.symptom, " during your ", Label(k.phase), ".");
  }

  /** Both pieces placed into a text occur in it. */
  lemma InfixTwo(a: string, x: string, b: string, y: string, c: string)
    ensures Contains(a + (x + b + y + c), x) && Contains(a + (x + b + y + c), y)
  {
    assert a + (x + b + y + c) == a + x + (b + y + c);
    ContainsInfix(a, x, b + y + c);
    assert a + (x + b + y + c) == (a + x + b) + y + c;
    ContainsInfix(a + x + b, y, c);
  }

  /** For the Luteal mood-swings key, the sentence spelled out. */
  lemma LutealMoodSentence()
    ensures PatternSentence(GroupKey(Luteal, "Mood swings"))
      == "You tend to experience higher intensity Mood swings during your Luteal Phase."
  {
  }

  /**
   * The pair named is the first in sorted order, not the one with the highest
   * mean: a Follicular group of mean 4 is named before a Luteal group of mean 5.
   */
  lemma FirstNotHighest(d: int, n: string)
    ensures var log := [
        Entry(d, Some(20), Luteal, "Mood swings", 5, n),
        Entry(d, Some(8), Follicular, "Mood swings", 4, n),
        Entry(d, Some(2), Menstrual, "Cramps", 1, n)];
      IdentifyPatterns(log) == PatternSentence(GroupKey(Follicular, "Mood swings"))
  {
    var log := [
        Entry(d, Some(20), Luteal, "Mood swings", 5, n),
        Entry(d, Some(8), Follicular, "Mood swings", 4, n),
        Entry(d, Some(2), Menstrual, "Cramps", 1, n)];
    var follicular := GroupKey(Follicular, "Mood swings");
    GroupOfThree(log, follicular);
    forall e | e in log && HighIntensity(log, KeyOf(e))
      ensures !KeyLess(KeyOf(e), follicular)
    {
      PhaseTextOrder(e.phase, Follicular);
    }
    IdentifyPatternsNamesFirstGroup(log, follicular);
  }
}
