/**
  What a click on "Predict Cognitive Score" computes: the score, its tier,
  and the lines of the recommendation block (a list numbered from 1, or the
  optimal message alone). The gauge drawing and the page layout are not
  modelled.
 */
module Dashboard {
  import opened UserInputs
  import opened ScoreEngine
  import opened Interpretation
  import opened RecommendationRules

  // ---------------------------------------------------------------------------
  // Decimal numerals for the list numbers

  function DigitChar(d: nat): (c: char)
    requires d < 10
    ensures '0' <= c <= '9'
  {
    "0123456789"[d]
  }

  function DigitValue(c: char): nat
    requires '0' <= c <= '9'
  {
    (c - '0') as nat
  }

  predicate IsDigits(s: string) {
    forall k :: 0 <= k < |s| ==> '0' <= s[k] <= '9'
  }

  /** The decimal numeral of n, without leading zeros. */
  function Numeral(n: nat): (s: string)
    ensures |s| >= 1 && IsDigits(s)
    ensures |s| > 1 ==> s[0] != '0'
  {
    if n < 10 then [DigitChar(n)] else Numeral(n / 10) + [DigitChar(n % 10)]
  }

  /** The number a string of decimal digits denotes. */
  function NumeralValue(s: string): nat
    requires IsDigits(s)
  {
    if s == [] then 0 else 10 * NumeralValue(s[..|s| - 1]) + DigitValue(s[|s| - 1])
  }

  /** Reading a numeral back gives the number it was written from. */
  lemma {:induction false} NumeralRoundTrip(n: nat)
    ensures NumeralValue(Numeral(n)) == n
  {
    var s := Numeral(n);
    if n < 10 {
      assert s[..0] == [];
    } else {
      NumeralRoundTrip(n / 10);
      assert s[..|s| - 1] == Numeral(n / 10);
    }
  }

  // ---------------------------------------------------------------------------
  // The recommendation block as shown

  /** One line of the numbered list: the number, a full stop, a space, the message. */
  function Line(number: nat, message: string): string {
    Numeral(number) + ". " + message
  }

  /** The block's lines: the list numbered from 1, or the optimal message alone. */
  function Display(recs: seq<string>): (lines: seq<string>)
    ensures |lines| == if recs == [] then 1 else |recs|
  {
    if recs == [] then [OptimalMessage]
    else seq(|recs|, k requires 0 <= k < |recs| => Line(k + 1, recs[k]))
  }

  /**
    Line k of a non-empty block carries recommendation k under the number
    k + 1, which reads back as k + 1.
   */
  lemma DisplayNumbersFromOne(recs: seq<string>, k: int)
    requires 0 <= k < |recs|
    ensures var line := Display(recs)[k]; var num := Numeral(k + 1);
      && line == num + ". " + recs[k]
      && NumeralValue(num) == k + 1
  {
    NumeralRoundTrip(k + 1);
  }

  /** The optimal message is shown exactly when there is nothing to recommend. */
  lemma OptimalShownIffEmpty(recs: seq<string>)
    ensures OptimalMessage in Display(recs) <==> recs == []
  {
    if recs != [] && OptimalMessage in Display(recs) {
      var k :| 0 <= k < |recs| && Display(recs)[k] == OptimalMessage;
      var line := Line(k + 1, recs[k]);
      assert line[0] == Numeral(k + 1)[0];
    }
  }

  /** The loop that writes the numbered list, or the optimal message when there is none. */
  method ShowRecommendations(recs: seq<string>) returns (lines: seq<string>)
    ensures lines == Display(recs)
  {
    if |recs| == 0 {
      lines := [OptimalMessage];
    } else {
      lines := [];
      var i := 0;
      while i < |recs|
        invariant 0 <= i <= |recs|
        invariant |lines| == i
        invariant forall k :: 0 <= k < i ==> lines[k] == Line(k + 1, recs[k])
      {
        lines := lines + [Line(i + 1, recs[i])];
        i := i + 1;
      }
    }
  }

  // ---------------------------------------------------------------------------
  // The button handler

  /** Everything one click shows, apart from the gauge. */
  datatype Report = Report(score: real, tier: Tier, lines: seq<string>)

  /**
    The click: predict the score, pick its tier, build the recommendations and
    show them.
   */
  method OnPredict(inp: Inputs) returns (report: Report)
    ensures report.score == PredictCognitiveScore(inp)
    ensures 0.0 <= report.score <= 100.0
    ensures report.tier == SelectTier(report.score)
    ensures report.lines == Display(Recommendations(inp))
    ensures OptimalMessage in report.lines <==> NoneFires(inp)
  {
    var prediction := PredictCognitiveScore(inp);
    var tier := SelectTier(prediction);
    var recs, optimal := BuildRecommendations(inp);
    var lines := ShowRecommendations(recs);
    OptimalShownIffEmpty(recs);
    EmptyIffNoneFires(inp);
    report := Report(prediction, tier, lines);
  }

  /**
    The form as first shown: a moderate score of 6364/123, and a single
    recommendation, to exercise more, since the exercise selectbox starts on Low.
   */
  lemma DefaultReport()
    ensures SelectTier(PredictCognitiveScore(DefaultInputs())) == Moderate
    ensures Display(Recommendations(DefaultInputs())) == ["1. " + ExerciseAdvice]
  {
    DefaultInputsScore();
    var recs := Recommendations(DefaultInputs());
    assert recs == [ExerciseAdvice];
    assert Numeral(1) == "1";
    assert Display(recs)[0] == Line(1, ExerciseAdvice) == "1. " + ExerciseAdvice;
  }

  /**
    The same form with exercise set to Medium: the score rises by 7.5 to
    14573/246, still moderate, and no rule fires, so the optimal message is shown.
   */
  lemma MediumExerciseReport()
    ensures var inp := DefaultInputs().(exercise := Medium);
      && PredictCognitiveScore(inp) == 14573.0 / 246.0
      && SelectTier(PredictCognitiveScore(inp)) == Moderate
      && NoneFires(inp)
      && Display(Recommendations(inp)) == [OptimalMessage]
  {
    var inp := DefaultInputs().(exercise := Medium);
    DefaultInputsScore();
    EmptyIffNoneFires(inp);
  }
}
