/**
 * The daily check page: the mood icon banding, the rule table that turns one day's
 * five answers into a diagnosis, and the entry saved on submit. The page's fixed
 * Spanish messages are modelled as the constructors of enumerations.
 */
module DailyCheck {
  import opened Wrappers
  import opened Wellness
  import Storage

  // ---------------------------------------------------------------------------
  // Mood icon
  // ---------------------------------------------------------------------------

  datatype Face = Frown | Meh | Smile

  function FaceRank(f: Face): nat {
    match f
    case Frown => 0
    case Meh => 1
    case Smile => 2
  }

  /** `getMoodIcon`: at most 3 frowns, at most 6 is neutral, higher smiles. */
  function MoodIcon(value: int): (f: Face)
    ensures f == Frown <==> value <= 3
    ensures f == Smile <==> value >= 7
  {
    if value <= 3 then Frown
    else if value <= 6 then Meh
    else Smile
  }

  /** A higher slider value never shows a sadder face. */
  lemma MoodIconMonotone(a: int, b: int)
    requires a <= b
    ensures FaceRank(MoodIcon(a)) <= FaceRank(MoodIcon(b))
  {
  }

  // ---------------------------------------------------------------------------
  // Diagnosis
  // ---------------------------------------------------------------------------

  /**
   * The band of one metric. Each metric's comment is the fixed sentence for its band:
   * Good (praise, no advice), Fair (neutral, one piece of advice) or Poor (concern,
   * two pieces of advice).
   */
  datatype Level = Good | Fair | Poor

  /** The fixed recommendation sentences, grouped by the metric that pushes them. */
  datatype Advice =
    | EnjoyHobbies | TalkToSomeone | PracticeGratitude               // mood
    | StayHydrated | ReviewEatingAndRest | TakeShortWalk             // energy
    | KeepSleepRoutine | AvoidScreensBeforeBed | CalmRestingPlace    // sleep
    | BreatheDeeply | MeditateOrYoga | ReduceStressSources           // stress
    | MoveTwentyMinutes                                              // exercise

  /** The sentences `overall` is concatenated from. */
  datatype Remark = ExercisePraise | WellbeingVeryGood | WellbeingModerate | WellbeingNeedsAttention

  datatype Diagnosis = Diagnosis(
    overall: seq<Remark>,
    mood: Level,
    energy: Level,
    sleep: Level,
    stress: Level,
    recommendations: seq<Advice>)

  /** Band of mood, energy and sleep: higher is better. */
  function RisingLevel(value: int): Level {
    if value >= 7 then Good else if value >= 5 then Fair else Poor
  }

  /** Band of stress: lower is better. */
  function StressLevel(value: int): Level {
    if value <= 3 then Good else if value <= 6 then Fair else Poor
  }

  function MoodAdvice(l: Level): seq<Advice> {
    match l
    case Good => []
    case Fair => [EnjoyHobbies]
    case Poor => [TalkToSomeone, PracticeGratitude]
  }

  function EnergyAdvice(l: Level): seq<Advice> {
    match l
    case Good => []
    case Fair => [StayHydrated]
    case Poor => [ReviewEatingAndRest, TakeShortWalk]
  }

  function SleepAdvice(l: Level): seq<Advice> {
    match l
    case Good => []
    case Fair => [KeepSleepRoutine]
    case Poor => [AvoidScreensBeforeBed, CalmRestingPlace]
  }

  function StressAdvice(l: Level): seq<Advice> {
    match l
    case Good => []
    case Fair => [BreatheDeeply]
    case Poor => [MeditateOrYoga, ReduceStressSources]
  }

  /** Every recommendation the rules produce, in the order mood, energy, sleep, stress, exercise. */
  function AllAdvice(mood: int, energy: int, sleep: int, stress: int, exercise: bool): seq<Advice> {
    MoodAdvice(RisingLevel(mood)) + EnergyAdvice(RisingLevel(energy))
    + SleepAdvice(RisingLevel(sleep)) + StressAdvice(StressLevel(stress))
    + (if exercise then [] else [MoveTwentyMinutes])
  }

  /** Four times the average score, with stress counted as 10 - stress. */
  function Score(mood: int, energy: int, sleep: int, stress: int): int {
    mood + energy + sleep + (10 - stress)
  }

  /**
   * `(mood + energy + sleep + (10 - stress)) / 4`. The page divides in floating point,
   * where a small integer over 4 is exact, so the average is exact here too. It reaches
   * 7 or 5 exactly when the score reaches 28 or 20.
   */
  function AverageScore(mood: int, energy: int, sleep: int, stress: int): (avg: real)
    ensures avg >= 7.0 <==> Score(mood, energy, sleep, stress) >= 28
    ensures avg >= 5.0 <==> Score(mood, energy, sleep, stress) >= 20
  {
    (mood + energy + sleep + (10 - stress)) as real / 4.0
  }

  /** The closing sentence: an average of at least 7 is very good, at least 5 moderate. */
  function Verdict(score: int): Remark {
    if score >= 28 then WellbeingVeryGood
    else if score >= 20 then WellbeingModerate
    else WellbeingNeedsAttention
  }

  /** `slice(0, n)`: the first `n` elements, or all of them when there are fewer. */
  function Take<T>(s: seq<T>, n: nat): (r: seq<T>)
    ensures |r| == if |s| <= n then |s| else n
    ensures r == s[..|r|]
  {
    if |s| <= n then s else s[..n]
  }

  /** The diagnosis the rule table gives for one day's answers. */
  function Diagnose(mood: int, energy: int, sleep: int, stress: int, exercise: bool): Diagnosis {
    Diagnosis(
      (if exercise then [ExercisePraise] else []) + [Verdict(Score(mood, energy, sleep, stress))],
      RisingLevel(mood),
      RisingLevel(energy),
      RisingLevel(sleep),
      StressLevel(stress),
      Take(AllAdvice(mood, energy, sleep, stress, exercise), 4))
  }

  /** The mood section of `generateDiagnosis`: its band, with the band's advice pushed. */
  method AnalyzeMood(mood: int, recommendations: seq<Advice>)
    returns (moodAnalysis: Level, pushed: seq<Advice>)
    ensures moodAnalysis == RisingLevel(mood)
    ensures pushed == recommendations + MoodAdvice(moodAnalysis)
  {
    pushed := recommendations;
    if mood >= 7 {
      moodAnalysis := Good;
    } else if mood >= 5 {
      moodAnalysis := Fair;
      pushed := pushed + [EnjoyHobbies];
    } else {
      moodAnalysis := Poor;
      pushed := pushed + [TalkToSomeone];
      pushed := pushed + [PracticeGratitude];
    }
  }

  /** The energy section of `generateDiagnosis`. */
  method AnalyzeEnergy(energy: int, recommendations: seq<Advice>)
    returns (energyAnalysis: Level, pushed: seq<Advice>)
    ensures energyAnalysis == RisingLevel(energy)
    ensures pushed == recommendations + EnergyAdvice(energyAnalysis)
  {
    pushed := recommendations;
    if energy >= 7 {
      energyAnalysis := Good;
    } else if energy >= 5 {
      energyAnalysis := Fair;
      pushed := pushed + [StayHydrated];
    } else {
      energyAnalysis := Poor;
      pushed := pushed + [ReviewEatingAndRest];
      pushed := pushed + [TakeShortWalk];
    }
  }

  /** The sleep section of `generateDiagnosis`. */
  method AnalyzeSleep(sleep: int, recommendations: seq<Advice>)
    returns (sleepAnalysis: Level, pushed: seq<Advice>)
    ensures sleepAnalysis == RisingLevel(sleep)
    ensures pushed == recommendations + SleepAdvice(sleepAnalysis)
  {
    pushed := recommendations;
    if sleep >= 7 {
      sleepAnalysis := Good;
    } else if sleep >= 5 {
      sleepAnalysis := Fair;
      pushed := pushed + [KeepSleepRoutine];
    } else {
      sleepAnalysis := Poor;
      pushed := pushed + [AvoidScreensBeforeBed];
      pushed := pushed + [CalmRestingPlace];
    }
  }

  /** The stress section of `generateDiagnosis`: the inverted band. */
  method AnalyzeStress(stress: int, recommendations: seq<Advice>)
    returns (stressAnalysis: Level, pushed: seq<Advice>)
    ensures stressAnalysis == StressLevel(stress)
    ensures pushed == recommendations + StressAdvice(stressAnalysis)
  {
    pushed := recommendations;
    if stress <= 3 {
      stressAnalysis := Good;
    } else if stress <= 6 {
      stressAnalysis := Fair;
      pushed := pushed + [BreatheDeeply];
    } else {
      stressAnalysis := Poor;
      pushed := pushed + [MeditateOrYoga];
      pushed := pushed + [ReduceStressSources];
    }
  }

  /**
   * `generateDiagnosis`: the four sections push their advice in turn, a day without
   * exercise adds one more, a day with exercise opens `overall` with praise, the
   * sentence chosen by the average score closes it, and the first four
   * recommendations are kept.
   */
  method GenerateDiagnosis(mood: int, energy: int, sleep: int, stress: int, exercise: bool)
    returns (d: Diagnosis)
    ensures d == Diagnose(mood, energy, sleep, stress, exercise)
  {
    var recommendations: seq<Advice> := [];
    var overall: seq<Remark> := [];

    var moodAnalysis, energyAnalysis, sleepAnalysis, stressAnalysis;
    moodAnalysis, recommendations := AnalyzeMood(mood, recommendations);
    energyAnalysis, recommendations := AnalyzeEnergy(energy, recommendations);
    sleepAnalysis, recommendations := AnalyzeSleep(sleep, recommendations);
    stressAnalysis, recommendations := AnalyzeStress(stress, recommendations);

    if exercise {
      overall := [ExercisePraise];
    } else {
      recommendations := recommendations + [MoveTwentyMinutes];
    }
    assert recommendations == AllAdvice(mood, energy, sleep, stress, exercise) by {
      assert [] + MoodAdvice(moodAnalysis) == MoodAdvice(RisingLevel(mood));
    }

    var avgScore := AverageScore(mood, energy, sleep, stress);
    if avgScore >= 7.0 {
      overall := overall + [WellbeingVeryGood];
    } else if avgScore >= 5.0 {
      overall := overall + [WellbeingModerate];
    } else {
      overall := overall + [WellbeingNeedsAttention];
    }
    assert overall == Diagnose(mood, energy, sleep, stress, exercise).overall;

    d := Diagnosis(overall, moodAnalysis, energyAnalysis, sleepAnalysis, stressAnalysis,
                   Take(recommendations, 4));
  }

  /** How many recommendations a rising metric contributes: 0 from 7 up, 1 for 5 and 6, 2 below 5. */
  function RisingWeight(value: int): nat {
    if value >= 7 then 0 else if value >= 5 then 1 else 2
  }

  /** How many recommendations stress contributes: 0 up to 3, 1 for 4 to 6, 2 above 6. */
  function StressWeight(value: int): nat {
    if value <= 3 then 0 else if value <= 6 then 1 else 2
  }

  function Min(a: int, b: int): int {
    if a <= b then a else b
  }

  /**
   * The recommendations are the first min(4, total) of those generated, where each
   * metric adds its weight and a day without exercise adds one.
   */
  lemma RecommendationCount(mood: int, energy: int, sleep: int, stress: int, exercise: bool)
    ensures var total := RisingWeight(mood) + RisingWeight(energy) + RisingWeight(sleep)
                         + StressWeight(stress) + (if exercise then 0 else 1);
            |AllAdvice(mood, energy, sleep, stress, exercise)| == total
            && |Diagnose(mood, energy, sleep, stress, exercise).recommendations| == Min(4, total)
  {
  }

  /** The shown recommendations are a prefix, of at most four, of those generated. */
  lemma RecommendationsArePrefix(mood: int, energy: int, sleep: int, stress: int, exercise: bool)
    ensures var r := Diagnose(mood, energy, sleep, stress, exercise).recommendations;
            |r| <= 4 && r <= AllAdvice(mood, energy, sleep, stress, exercise)
  {
  }

  /**
   * `overall` opens with the exercise praise exactly when the day had exercise, and
   * closes with the verdict on the score.
   */
  lemma OverallShape(mood: int, energy: int, sleep: int, stress: int, exercise: bool)
    ensures var o := Diagnose(mood, energy, sleep, stress, exercise).overall;
            |o| == (if exercise then 2 else 1)
            && (o[0] == ExercisePraise <==> exercise)
            && o[|o| - 1] == Verdict(Score(mood, energy, sleep, stress))
  {
  }

  /** The integer thresholds 28 and 20 on the score are the page's 7 and 5 on the average. */
  lemma ScoreThresholds(mood: int, energy: int, sleep: int, stress: int)
    ensures var avg := Score(mood, energy, sleep, stress) as real / 4.0;
            (Verdict(Score(mood, energy, sleep, stress)) == WellbeingVeryGood <==> avg >= 7.0)
            && (Verdict(Score(mood, energy, sleep, stress)) == WellbeingModerate <==> 5.0 <= avg < 7.0)
            && (Verdict(Score(mood, energy, sleep, stress)) == WellbeingNeedsAttention <==> avg < 5.0)
  {
  }

  /** Two days with the same score and the same exercise answer get the same `overall`. */
  lemma OverallDependsOnlyOnScore(
    m1: int, e1: int, s1: int, st1: int,
    m2: int, e2: int, s2: int, st2: int,
    exercise: bool)
    requires Score(m1, e1, s1, st1) == Score(m2, e2, s2, st2)
    ensures Diagnose(m1, e1, s1, st1, exercise).overall == Diagnose(m2, e2, s2, st2, exercise).overall
  {
  }

  /** A bad day: nine recommendations are generated and the two of mood and of energy are shown. */
  lemma BadDayScenario()
    ensures |AllAdvice(2, 3, 2, 9, false)| == 9
    ensures Diagnose(2, 3, 2, 9, false).recommendations
            == [TalkToSomeone, PracticeGratitude, ReviewEatingAndRest, TakeShortWalk]
    ensures Diagnose(2, 3, 2, 9, false).overall == [WellbeingNeedsAttention]
  {
  }

  /** A good day with exercise: no recommendations and praise before the very-good verdict. */
  lemma GoodDayScenario()
    ensures Diagnose(8, 8, 8, 2, true).recommendations == []
    ensures Diagnose(8, 8, 8, 2, true).overall == [ExercisePraise, WellbeingVeryGood]
  {
  }

  // ---------------------------------------------------------------------------
  // Submit
  // ---------------------------------------------------------------------------

  /** The entry built on submit: today's date as both id and date, the answers unchanged. */
  function SubmittedEntry(
    today: Day, mood: int, energy: int, sleep: int, stress: int, exercise: bool, notes: string)
    : (e: DailyEntry)
    ensures e.id == today && e.date == today
    ensures e.mood == mood && e.energy == energy && e.sleep == sleep && e.stress == stress
    ensures e.exercise == exercise && e.notes == notes
  {
    DailyEntry(today, today, mood, energy, sleep, stress, exercise, notes)
  }

  /**
   * `handleSubmit`: saves today's entry, then computes the diagnosis of the answers.
   * Reading today back gives the submitted entry; every other date reads as before.
   */
  method HandleSubmit(
    store: Storage.EntryStore,
    today: Day, mood: int, energy: int, sleep: int, stress: int, exercise: bool, notes: string)
    returns (d: Diagnosis)
    modifies store
    ensures store.slot
            == Some(Storage.Upsert(old(store.GetEntries()), SubmittedEntry(today, mood, energy, sleep, stress, exercise, notes)))
    ensures store.GetEntryByDate(today) == Some(SubmittedEntry(today, mood, energy, sleep, stress, exercise, notes))
    ensures forall day :: day != today ==> store.GetEntryByDate(day) == old(store.GetEntryByDate(day))
    ensures d == Diagnose(mood, energy, sleep, stress, exercise)
  {
    var entry := SubmittedEntry(today, mood, energy, sleep, stress, exercise, notes);
    store.SaveEntry(entry);
    d := GenerateDiagnosis(mood, energy, sleep, stress, exercise);
  }
}
