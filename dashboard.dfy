/**
 * The dashboard's reductions over the entries of the window: one chart point per
 * entry, the per-metric averages and the number of exercise days. Averages are exact
 * fractions; their one-decimal rendering is not modelled.
 */
module Dashboard {
  import opened Wellness

  // ---------------------------------------------------------------------------
  // Chart data
  // ---------------------------------------------------------------------------

  /** One chart point: the entry's date and its four metrics. */
  datatype ChartPoint = ChartPoint(date: Day, mood: int, energy: int, sleep: int, stress: int)

  /** `chartData`: one point per entry, in the same order. */
  function ChartData(entries: seq<DailyEntry>): (points: seq<ChartPoint>)
    ensures |points| == |entries|
    ensures forall i :: 0 <= i < |entries| ==>
              points[i] == ChartPoint(entries[i].date, entries[i].mood, entries[i].energy,
                                      entries[i].sleep, entries[i].stress)
  {
    if entries == [] then []
    else
      var e := entries[0];
      [ChartPoint(e.date, e.mood, e.energy, e.sleep, e.stress)] + ChartData(entries[1..])
  }

  // ---------------------------------------------------------------------------
  // Averages
  // ---------------------------------------------------------------------------

  /** The reduce accumulator: one running sum per metric. */
  datatype Sums = Sums(mood: int, energy: int, sleep: int, stress: int) {
    function Plus(e: DailyEntry): Sums {
      Sums(mood + e.mood, energy + e.energy, sleep + e.sleep, stress + e.stress)
    }

    function Add(other: Sums): Sums {
      Sums(mood + other.mood, energy + other.energy, sleep + other.sleep, stress + other.stress)
    }
  }

  const NoSums := Sums(0, 0, 0, 0)

  /** `entries.reduce(...)` from a zero accumulator, left to right. */
  function Total(entries: seq<DailyEntry>): Sums {
    if entries == [] then NoSums
    else Total(entries[..|entries| - 1]).Plus(entries[|entries| - 1])
  }

  /** An exact quotient `num / den`. */
  datatype Fraction = Fraction(num: int, den: int)

  datatype Averages = Averages(mood: Fraction, energy: Fraction, sleep: Fraction, stress: Fraction)

  /** `averages`: zero for no entries, otherwise each metric's sum over the entry count. */
  function ComputeAverages(entries: seq<DailyEntry>): (a: Averages)
    ensures a.mood.den >= 1 && a.energy.den >= 1 && a.sleep.den >= 1 && a.stress.den >= 1
  {
    if |entries| == 0 then
      Averages(Fraction(0, 1), Fraction(0, 1), Fraction(0, 1), Fraction(0, 1))
    else
      var sum := Total(entries);
      var n := |entries|;
      Averages(Fraction(sum.mood, n), Fraction(sum.energy, n), Fraction(sum.sleep, n), Fraction(sum.stress, n))
  }

  /** No entries: all four averages are zero. */
  lemma AveragesOfNothing()
    ensures var a := ComputeAverages([]);
            a.mood.num == 0 && a.energy.num == 0 && a.sleep.num == 0 && a.stress.num == 0
  {
  }

  /** One entry: each average is that entry's own value. */
  lemma AveragesOfOne(e: DailyEntry)
    ensures ComputeAverages([e])
            == Averages(Fraction(e.mood, 1), Fraction(e.energy, 1), Fraction(e.sleep, 1), Fraction(e.stress, 1))
  {
    assert [e][..0] == [];
    assert Total([e]) == NoSums.Plus(e);
  }

  /** Summing two lists one after the other adds their sums. */
  lemma {:induction false} TotalAppend(a: seq<DailyEntry>, b: seq<DailyEntry>)
    ensures Total(a + b) == Total(a).Add(Total(b))
  {
    if b != [] {
      var b' := b[..|b| - 1];
      assert (a + b)[..|a + b| - 1] == a + b';
      TotalAppend(a, b');
    } else {
      assert a + b == a;
    }
  }

  /** Taking one entry out of a list takes its values out of the sums. */
  lemma {:induction false} TotalRemove(s: seq<DailyEntry>, k: int)
    requires 0 <= k < |s|
    ensures Total(s) == Total(s[..k] + s[k + 1..]).Plus(s[k])
  {
    var p, last := s[..|s| - 1], s[|s| - 1];
    assert Total(s) == Total(p).Plus(last);
    if k == |s| - 1 {
      assert s[..k] + s[k + 1..] == p;
    } else {
      TotalRemove(p, k);
      RemoveBeforeLast(s, k);
      TotalSnoc(p[..k] + p[k + 1..], last);
    }
  }

  /** Removing a position before the last commutes with taking the last entry off. */
  lemma RemoveBeforeLast(s: seq<DailyEntry>, k: int)
    requires 0 <= k < |s| - 1
    ensures s[..|s| - 1][k] == s[k]
    ensures s[..k] + s[k + 1..] == (s[..|s| - 1][..k] + s[..|s| - 1][k + 1..]) + [s[|s| - 1]]
  {
    var p := s[..|s| - 1];
    assert s[..k] == p[..k];
    assert s[k + 1..] == p[k + 1..] + [s[|s| - 1]];
  }

  /** Appending one entry adds its values to the sums. */
  lemma TotalSnoc(front: seq<DailyEntry>, x: DailyEntry)
    ensures Total(front + [x]) == Total(front).Plus(x)
  {
    assert (front + [x])[..|front|] == front;
  }

  /** Taking one element out of a list takes it out of its multiset. */
  lemma MultisetRemove(s: seq<DailyEntry>, k: int)
    requires 0 <= k < |s|
    ensures multiset(s[..k] + s[k + 1..]) == multiset(s) - multiset{s[k]}
  {
    assert s == s[..k] + [s[k]] + s[k + 1..];
  }

  /** The sums do not depend on the order of the entries. */
  lemma {:induction false} TotalPermutation(s: seq<DailyEntry>, t: seq<DailyEntry>)
    requires multiset(s) == multiset(t)
    ensures Total(s) == Total(t)
    decreases |s|
  {
    if s == [] {
      assert |t| == |multiset(t)| == 0;
    } else {
      var x := s[|s| - 1];
      var s' := s[..|s| - 1];
      assert s == s' + [x];
      assert x in multiset(t);
      var k :| 0 <= k < |t| && t[k] == x;
      var t' := t[..k] + t[k + 1..];
      MultisetRemove(t, k);
      MultisetRemove(s, |s| - 1);
      assert s[..|s| - 1] + s[|s|..] == s';
      TotalPermutation(s', t');
      TotalRemove(t, k);
    }
  }

  /** The averages do not depend on the order of the entries. */
  lemma AveragesOrderIndependent(s: seq<DailyEntry>, t: seq<DailyEntry>)
    requires multiset(s) == multiset(t)
    ensures ComputeAverages(s) == ComputeAverages(t)
  {
    assert |s| == |multiset(s)| == |multiset(t)| == |t|;
    TotalPermutation(s, t);
  }

  /** Every metric of every entry is a slider value, from 1 to 10. */
  ghost predicate InSliderRange(entries: seq<DailyEntry>) {
    forall i :: 0 <= i < |entries| ==>
      && 1 <= entries[i].mood <= 10 && 1 <= entries[i].energy <= 10
      && 1 <= entries[i].sleep <= 10 && 1 <= entries[i].stress <= 10
  }

  /** With slider values, each sum lies between one and ten times the entry count. */
  lemma {:induction false} TotalInRange(entries: seq<DailyEntry>)
    requires InSliderRange(entries)
    ensures var t, n := Total(entries), |entries|;
            n <= t.mood <= 10 * n && n <= t.energy <= 10 * n
            && n <= t.sleep <= 10 * n && n <= t.stress <= 10 * n
  {
    if entries != [] {
      TotalInRange(entries[..|entries| - 1]);
    }
  }

  /** With slider values, every average of a non-empty list lies between 1 and 10. */
  lemma AveragesInRange(entries: seq<DailyEntry>)
    requires entries != [] && InSliderRange(entries)
    ensures var a := ComputeAverages(entries);
            && a.mood.den <= a.mood.num <= 10 * a.mood.den
            && a.energy.den <= a.energy.num <= 10 * a.energy.den
            && a.sleep.den <= a.sleep.num <= 10 * a.sleep.den
            && a.stress.den <= a.stress.num <= 10 * a.stress.den
  {
    TotalInRange(entries);
  }

  // ---------------------------------------------------------------------------
  // Exercise days
  // ---------------------------------------------------------------------------

  /** `filter(e => e.exercise)`. */
  function ExerciseEntries(entries: seq<DailyEntry>): (r: seq<DailyEntry>)
    ensures |r| <= |entries|
    ensures forall e :: e in r ==> e in entries && e.exercise
    ensures forall e :: multiset(r)[e] == if e.exercise then multiset(entries)[e] else 0
  {
    if entries == [] then []
    else
      assert entries == entries[..|entries| - 1] + [entries[|entries| - 1]];
      var before := ExerciseEntries(entries[..|entries| - 1]);
      var last := entries[|entries| - 1];
      if last.exercise then before + [last] else before
  }

  /** `exerciseCount`: how many entries record exercise. */
  function ExerciseCount(entries: seq<DailyEntry>): (n: nat)
    ensures n <= |entries|
  {
    |ExerciseEntries(entries)|
  }

  /** The positions of the entries that record exercise. */
  ghost function ExerciseDays(entries: seq<DailyEntry>): set<int> {
    set i | 0 <= i < |entries| && entries[i].exercise
  }

  /** The count is the number of positions whose entry records exercise. */
  lemma {:induction false} ExerciseCountIsDays(entries: seq<DailyEntry>)
    ensures ExerciseCount(entries) == |ExerciseDays(entries)|
  {
    if entries == [] {
      assert ExerciseDays(entries) == {};
    } else {
      var n := |entries| - 1;
      ExerciseCountIsDays(entries[..n]);
      ExerciseDaysStep(entries);
    }
  }

  /** The last entry adds its position to the exercise days exactly when it records exercise. */
  lemma ExerciseDaysStep(entries: seq<DailyEntry>)
    requires entries != []
    ensures var n := |entries| - 1;
            && n !in ExerciseDays(entries[..n])
            && ExerciseDays(entries)
               == ExerciseDays(entries[..n]) + (if entries[n].exercise then {n} else {})
  {
  }
}
