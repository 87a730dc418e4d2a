/**
  predict_cognitive_score: nine inputs are normalised into factors, the
  factors are combined as a weighted sum whose weights total 1, and the sum is
  scaled to a percentage and clamped to [0, 100]. The arithmetic is exact
  (`real`), not IEEE-754.
 */
module ScoreEngine {
  import opened UserInputs

  function Abs(x: real): (r: real)
    ensures r >= 0.0 && (r == x || r == -x)
  {
    if x < 0.0 then -x else x
  }

  function Min(a: real, b: real): real { if a <= b then a else b }

  function Max(a: real, b: real): real { if a >= b then a else b }

  // ---------------------------------------------------------------------------
  // Lookup tables

  /** The gender table: every entry is zero, and the table is never consulted. */
  function GenderFactor(g: Gender): real {
    match g
    case Male => 0.0
    case Female => 0.0
    case Other => 0.0
  }

  /** The diet table. */
  function DietFactor(d: Diet): (f: real)
    ensures 0.0 <= f <= 1.0
    ensures f == DietLevel(d) as real / 2.0
  {
    match d
    case NonVegetarian => 0.0
    case Vegetarian => 0.5
    case Vegan => 1.0
  }

  /** The exercise-frequency table. */
  function ExerciseFactor(e: Exercise): (f: real)
    ensures 0.0 <= f <= 1.0
    ensures f == ExerciseLevel(e) as real / 2.0
  {
    match e
    case Low => 0.0
    case Medium => 0.5
    case High => 1.0
  }

  // ---------------------------------------------------------------------------
  // Normalisation: each factor is 1 at the best value of its input and falls
  // towards 0 at the worst value the slider allows. None is clamped, so
  // outside the slider range a factor may leave [0, 1].

  /** Younger is better: 1 at 18, 0 at 59. */
  function AgeNorm(age: int): (f: real)
    ensures 18 <= age <= 59 ==> 0.0 <= f <= 1.0
    ensures f == 1.0 <==> age == 18
  {
    1.0 - (age - 18) as real / (59 - 18) as real
  }

  /** Eight hours is best; each hour away from it costs a quarter. */
  function SleepQuality(hours: real): (f: real)
    ensures f <= 1.0
    ensures 4.0 <= hours <= 10.0 ==> 0.0 <= f
    ensures f == 1.0 <==> hours == 8.0
  {
    1.0 - Abs(hours - 8.0) / 4.0
  }

  /** Less stress is better: 0.9 at level 1, 0 at level 10. */
  function StressImpact(level: int): (f: real)
    ensures 1 <= level <= 10 ==> 0.0 <= f <= 0.9
  {
    1.0 - level as real / 10.0
  }

  /** Less screen time is better: 0 at twelve hours. */
  function ScreenImpact(hours: real): (f: real)
    ensures 1.0 <= hours <= 12.0 ==> 0.0 <= f <= 1.0
  {
    1.0 - hours / 12.0
  }

  /** 200 mg is best; every 300 mg away from it costs the whole factor. */
  function CaffeineImpact(mg: int): (f: real)
    ensures f <= 1.0
    ensures 0 <= mg <= 500 ==> 0.0 <= f
    ensures f == 1.0 <==> mg == 200
  {
    1.0 - Abs((mg - 200) as real) / 300.0
  }

  /** Faster is better: 1 at 200 ms, 0 at 600 ms. */
  function ReactionImpact(ms: real): (f: real)
    ensures 200.0 <= ms <= 600.0 ==> 0.0 <= f <= 1.0
  {
    1.0 - (ms - 200.0) / 400.0
  }

  /** The memory test score as a fraction of 100. */
  function MemoryImpact(score: int): (f: real)
    ensures 40 <= score <= 100 ==> 0.4 <= f <= 1.0
  {
    score as real / 100.0
  }

  // ---------------------------------------------------------------------------
  // Weighted sum

  /** The nine factors of one prediction. */
  datatype Factors = Factors(
    age: real, sleep: real, stress: real, diet: real, screen: real,
    exercise: real, caffeine: real, reaction: real, memory: real)

  /** Every factor lies in [0, 1]. */
  predicate UnitFactors(f: Factors) {
    && 0.0 <= f.age <= 1.0 && 0.0 <= f.sleep <= 1.0 && 0.0 <= f.stress <= 1.0
    && 0.0 <= f.diet <= 1.0 && 0.0 <= f.screen <= 1.0 && 0.0 <= f.exercise <= 1.0
    && 0.0 <= f.caffeine <= 1.0 && 0.0 <= f.reaction <= 1.0 && 0.0 <= f.memory <= 1.0
  }

  /** The factors of a form; the gender is not among them. */
  function FactorsOf(inp: Inputs): (f: Factors)
    ensures InSliderRange(inp) ==> UnitFactors(f)
  {
    Factors(
      AgeNorm(inp.age),
      SleepQuality(inp.sleepDuration),
      StressImpact(inp.stressLevel),
      DietFactor(inp.diet),
      ScreenImpact(inp.screenTime),
      ExerciseFactor(inp.exercise),
      CaffeineImpact(inp.caffeineIntake),
      ReactionImpact(inp.reactionTime),
      MemoryImpact(inp.memoryTestScore))
  }

  /** The weighted sum of the factors, before scaling. */
  function Weighted(f: Factors): (s: real)
    ensures UnitFactors(f) ==> 0.0 <= s <= 1.0
  {
    0.10 * f.age +
    0.15 * f.sleep +
    0.15 * f.stress +
    0.05 * f.diet +
    0.10 * f.screen +
    0.15 * f.exercise +
    0.05 * f.caffeine +
    0.10 * f.reaction +
    0.15 * f.memory
  }

  /** The weights total 1: all factors at 1 give 1, all at 0 give 0. */
  lemma WeightsSumToOne()
    ensures Weighted(Factors(1.0, 1.0, 1.0, 1.0, 1.0, 1.0, 1.0, 1.0, 1.0)) == 1.0
    ensures Weighted(Factors(0.0, 0.0, 0.0, 0.0, 0.0, 0.0, 0.0, 0.0, 0.0)) == 0.0
  {
    var ones := Factors(1.0, 1.0, 1.0, 1.0, 1.0, 1.0, 1.0, 1.0, 1.0);
    assert Weighted(ones) == 0.10 + 0.15 + 0.15 + 0.05 + 0.10 + 0.15 + 0.05 + 0.10 + 0.15;
  }

  /** `max(0, min(100, x))`. */
  function Clamp(x: real): (r: real)
    ensures 0.0 <= r <= 100.0
    ensures 0.0 <= x <= 100.0 ==> r == x
    ensures x < 0.0 ==> r == 0.0
    ensures x > 100.0 ==> r == 100.0
  {
    Max(0.0, Min(100.0, x))
  }

  /** Clamping never reverses an order. */
  lemma ClampMonotone(x: real, y: real)
    requires x <= y
    ensures Clamp(x) <= Clamp(y)
  {
  }

  /**
    predict_cognitive_score. The result lies in [0, 100] for every form; for
    a form the sliders allow it is the weighted sum scaled by 100, so the
    clamp never bites there.
   */
  function PredictCognitiveScore(inp: Inputs): (score: real)
    ensures 0.0 <= score <= 100.0
    ensures InSliderRange(inp) ==> score == 100.0 * Weighted(FactorsOf(inp))
  {
    Clamp(Weighted(FactorsOf(inp)) * 100.0)
  }

  // ---------------------------------------------------------------------------
  // How the score responds to one input, all others fixed

  /** A higher memory test score never lowers the score. */
  lemma MemoryMonotone(inp: Inputs, m: int)
    requires inp.memoryTestScore <= m
    ensures PredictCognitiveScore(inp) <= PredictCognitiveScore(inp.(memoryTestScore := m))
  {
    var hi := inp.(memoryTestScore := m);
    assert Weighted(FactorsOf(inp)) <= Weighted(FactorsOf(hi));
    ClampMonotone(Weighted(FactorsOf(inp)) * 100.0, Weighted(FactorsOf(hi)) * 100.0);
  }

  /** Inside the slider range a higher memory test score strictly raises the score. */
  lemma MemoryStrictlyMonotone(inp: Inputs, m: int)
    requires InSliderRange(inp) && inp.memoryTestScore < m <= 100
    ensures PredictCognitiveScore(inp) < PredictCognitiveScore(inp.(memoryTestScore := m))
  {
  }

  /** A higher stress level never raises the score. */
  lemma StressAntitone(inp: Inputs, s: int)
    requires inp.stressLevel <= s
    ensures PredictCognitiveScore(inp.(stressLevel := s)) <= PredictCognitiveScore(inp)
  {
    var hi := inp.(stressLevel := s);
    assert Weighted(FactorsOf(hi)) <= Weighted(FactorsOf(inp));
    ClampMonotone(Weighted(FactorsOf(hi)) * 100.0, Weighted(FactorsOf(inp)) * 100.0);
  }

  /** A diet further down the selectbox (Non-Vegetarian, Vegetarian, Vegan) never lowers the score. */
  lemma DietMonotone(inp: Inputs, d: Diet)
    requires DietLevel(inp.diet) <= DietLevel(d)
    ensures PredictCognitiveScore(inp) <= PredictCognitiveScore(inp.(diet := d))
  {
    var hi := inp.(diet := d);
    assert Weighted(FactorsOf(inp)) <= Weighted(FactorsOf(hi));
    ClampMonotone(Weighted(FactorsOf(inp)) * 100.0, Weighted(FactorsOf(hi)) * 100.0);
  }

  /** More frequent exercise (Low, Medium, High) never lowers the score. */
  lemma ExerciseMonotone(inp: Inputs, e: Exercise)
    requires ExerciseLevel(inp.exercise) <= ExerciseLevel(e)
    ensures PredictCognitiveScore(inp) <= PredictCognitiveScore(inp.(exercise := e))
  {
    var hi := inp.(exercise := e);
    assert Weighted(FactorsOf(inp)) <= Weighted(FactorsOf(hi));
    ClampMonotone(Weighted(FactorsOf(inp)) * 100.0, Weighted(FactorsOf(hi)) * 100.0);
  }

  /** Changing only the gender leaves the score unchanged; its table holds only zeros. */
  lemma GenderIndependent(inp: Inputs, g: Gender)
    ensures PredictCognitiveScore(inp.(gender := g)) == PredictCognitiveScore(inp)
    ensures GenderFactor(g) == 0.0
  {
  }

  /** Eight hours of sleep gives the best score, all else fixed. */
  lemma SleepPeak(inp: Inputs)
    ensures PredictCognitiveScore(inp) <= PredictCognitiveScore(inp.(sleepDuration := 8.0))
  {
    var best := inp.(sleepDuration := 8.0);
    assert Weighted(FactorsOf(inp)) <= Weighted(FactorsOf(best));
    ClampMonotone(Weighted(FactorsOf(inp)) * 100.0, Weighted(FactorsOf(best)) * 100.0);
  }

  /** 200 mg of caffeine gives the best score, all else fixed. */
  lemma CaffeinePeak(inp: Inputs)
    ensures PredictCognitiveScore(inp) <= PredictCognitiveScore(inp.(caffeineIntake := 200))
  {
    var best := inp.(caffeineIntake := 200);
    assert Weighted(FactorsOf(inp)) <= Weighted(FactorsOf(best));
    ClampMonotone(Weighted(FactorsOf(inp)) * 100.0, Weighted(FactorsOf(best)) * 100.0);
  }

  /** The form as first shown scores 6364/123, about 51.7. */
  lemma DefaultInputsScore()
    ensures PredictCognitiveScore(DefaultInputs()) == 6364.0 / 123.0
  {
  }
}
