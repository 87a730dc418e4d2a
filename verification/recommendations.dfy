/**
  The recommendation block: seven independent rules, each adding one fixed
  message when its condition holds, always in the same order; when none
  holds, the page says the lifestyle appears optimal instead.

  Three views of the same list:
  - `BuildRecommendations`, the block as written: seven conditional appends;
  - `Recommendations`, the list as a pure expression, which specifies it;
  - `Fired` over `RuleOrder`, a table of rules filtered in order, which is
    the reference the properties (membership, order, no repeats) are proved
    against.
 */
module RecommendationRules {
  import opened UserInputs

  datatype Rule =
    | SleepRule | StressRule | ScreenRule | ExerciseRule
    | CaffeineRule | ReactionRule | MemoryRule

  /** The order in which the rules are checked. */
  const RuleOrder: seq<Rule> :=
    [SleepRule, StressRule, ScreenRule, ExerciseRule, CaffeineRule, ReactionRule, MemoryRule]

  /** The index of a rule in RuleOrder. */
  function Position(r: Rule): nat {
    match r
    case SleepRule => 0
    case StressRule => 1
    case ScreenRule => 2
    case ExerciseRule => 3
    case CaffeineRule => 4
    case ReactionRule => 5
    case MemoryRule => 6
  }

  /** When a rule adds its message. */
  predicate Fires(r: Rule, inp: Inputs) {
    match r
    case SleepRule => inp.sleepDuration < 7.0 || inp.sleepDuration > 9.0
    case StressRule => inp.stressLevel > 6
    case ScreenRule => inp.screenTime > 8.0
    case ExerciseRule => inp.exercise == Low
    case CaffeineRule => inp.caffeineIntake > 400
    case ReactionRule => inp.reactionTime > 450.0
    case MemoryRule => inp.memoryTestScore < 60
  }

  /** No rule's condition holds. */
  ghost predicate NoneFires(inp: Inputs) {
    forall r: Rule :: !Fires(r, inp)
  }

  // The seven messages, word for word.
  const SleepAdvice: string := "Sleep 7\U{2013}9 hours per night."
  const StressAdvice: string := "Reduce stress with meditation or exercise."
  const ScreenAdvice: string := "Limit screen time to under 8 hours daily."
  const ExerciseAdvice: string := "Increase physical activity (e.g., 30 mins/day)."
  const CaffeineAdvice: string := "Reduce caffeine below 400 mg/day."
  const ReactionAdvice: string := "Play focus and reflex games."
  const MemoryAdvice: string := "Practice memory-enhancing activities."

  /** The message shown instead of the list when no rule fires. */
  const OptimalMessage: string := "Your lifestyle appears optimal! \U{1F389}"

  /** The message a rule adds. */
  function Message(r: Rule): string {
    match r
    case SleepRule => SleepAdvice
    case StressRule => StressAdvice
    case ScreenRule => ScreenAdvice
    case ExerciseRule => ExerciseAdvice
    case CaffeineRule => CaffeineAdvice
    case ReactionRule => ReactionAdvice
    case MemoryRule => MemoryAdvice
  }

  /** No two rules share a message. */
  lemma MessageInjective(r1: Rule, r2: Rule)
    requires Message(r1) == Message(r2)
    ensures r1 == r2
  {
  }

  /** The optimal message is not one of the rule messages. */
  lemma OptimalMessageDistinct(r: Rule)
    ensures Message(r) != OptimalMessage
  {
  }

  // ---------------------------------------------------------------------------
  // The specification: the list as a pure expression

  /** What one rule contributes: its message if it fires, nothing otherwise. */
  function Advice(r: Rule, inp: Inputs): seq<string> {
    if Fires(r, inp) then [Message(r)] else []
  }

  /** The recommendation list for a form: each rule's contribution, in rule order. */
  function Recommendations(inp: Inputs): seq<string> {
    Advice(SleepRule, inp) + Advice(StressRule, inp) + Advice(ScreenRule, inp) +
    Advice(ExerciseRule, inp) + Advice(CaffeineRule, inp) + Advice(ReactionRule, inp) +
    Advice(MemoryRule, inp)
  }

  // ---------------------------------------------------------------------------
  // The reference: a rule table filtered in order

  /** Rules in strictly increasing Position, hence without repeats. */
  ghost predicate Increasing(rules: seq<Rule>) {
    forall i, j :: 0 <= i < j < |rules| ==> Position(rules[i]) < Position(rules[j])
  }

  /** RuleOrder lists every rule once, in Position order. */
  lemma RuleOrderIsComplete()
    ensures |RuleOrder| == 7 && Increasing(RuleOrder)
    ensures forall r: Rule :: r in RuleOrder
  {
    forall r: Rule ensures r in RuleOrder {
      assert RuleOrder[Position(r)] == r;
    }
  }

  /** A rule on its own if it fires, nothing otherwise. */
  function Pick(r: Rule, inp: Inputs): seq<Rule> {
    if Fires(r, inp) then [r] else []
  }

  /**
    The rules of `rules` that fire on `inp`, in the order of `rules`: the list
    grows at its end, one rule at a time.
   */
  function Fired(rules: seq<Rule>, inp: Inputs): (fired: seq<Rule>)
    ensures |fired| <= |rules|
  {
    if rules == [] then []
    else Fired(rules[..|rules| - 1], inp) + Pick(rules[|rules| - 1], inp)
  }

  /** The messages of the given rules, in the same order. */
  function Messages(rules: seq<Rule>): (ms: seq<string>)
    ensures |ms| == |rules|
  {
    seq(|rules|, i requires 0 <= i < |rules| => Message(rules[i]))
  }

  /** Filtering keeps exactly the rules that fire. */
  lemma {:induction false} FiredMembers(rules: seq<Rule>, inp: Inputs, r: Rule)
    ensures r in Fired(rules, inp) <==> r in rules && Fires(r, inp)
  {
    if rules != [] {
      var front := rules[..|rules| - 1];
      FiredMembers(front, inp, r);
      assert rules == front + [rules[|rules| - 1]];
    }
  }

  /** In an increasing list, everything before the last rule has a smaller Position. */
  lemma BeforeLast(rules: seq<Rule>, r: Rule)
    requires Increasing(rules) && rules != []
    requires r in rules[..|rules| - 1]
    ensures Position(r) < Position(rules[|rules| - 1])
  {
    var k :| 0 <= k < |rules| - 1 && rules[..|rules| - 1][k] == r;
    assert rules[k] == r;
  }

  /** Filtering keeps the order of the rules it keeps. */
  lemma {:induction false} FiredIncreasing(rules: seq<Rule>, inp: Inputs)
    requires Increasing(rules)
    ensures Increasing(Fired(rules, inp))
  {
    if rules != [] {
      var front := rules[..|rules| - 1];
      var last := rules[|rules| - 1];
      var kept := Fired(front, inp);
      assert Increasing(front);
      FiredIncreasing(front, inp);
      forall k | 0 <= k < |kept| ensures Position(kept[k]) < Position(last) {
        assert kept[k] in kept;
        FiredMembers(front, inp, kept[k]);
        BeforeLast(rules, kept[k]);
      }
      assert Fired(rules, inp) == kept + Pick(last, inp);
    }
  }

  /** Filtering RuleOrder is taking its rules one by one. */
  lemma FiredRuleOrder(inp: Inputs)
    ensures Fired(RuleOrder, inp) ==
      Pick(SleepRule, inp) + Pick(StressRule, inp) + Pick(ScreenRule, inp) +
      Pick(ExerciseRule, inp) + Pick(CaffeineRule, inp) + Pick(ReactionRule, inp) +
      Pick(MemoryRule, inp)
  {
    var s := RuleOrder;
    var p6 := [SleepRule, StressRule, ScreenRule, ExerciseRule, CaffeineRule, ReactionRule];
    var p5 := [SleepRule, StressRule, ScreenRule, ExerciseRule, CaffeineRule];
    var p4 := [SleepRule, StressRule, ScreenRule, ExerciseRule];
    var p3 := [SleepRule, StressRule, ScreenRule];
    var p2 := [SleepRule, StressRule];
    var p1 := [SleepRule];
    assert s[..6] == p6 && p6[..5] == p5 && p5[..4] == p4 && p4[..3] == p3;
    assert p3[..2] == p2 && p2[..1] == p1 && p1[..0] == [];
    assert Fired(p1, inp) == Pick(SleepRule, inp);
    assert Fired(p2, inp) == Fired(p1, inp) + Pick(StressRule, inp);
    assert Fired(p3, inp) == Fired(p2, inp) + Pick(ScreenRule, inp);
    assert Fired(p4, inp) == Fired(p3, inp) + Pick(ExerciseRule, inp);
    assert Fired(p5, inp) == Fired(p4, inp) + Pick(CaffeineRule, inp);
    assert Fired(p6, inp) == Fired(p5, inp) + Pick(ReactionRule, inp);
    assert Fired(s, inp) == Fired(p6, inp) + Pick(MemoryRule, inp);
  }

  lemma MessagesAppend(a: seq<Rule>, b: seq<Rule>)
    ensures Messages(a + b) == Messages(a) + Messages(b)
  {
  }

  /** The list is the messages of the rules that fire, filtered from the rule table. */
  lemma RecommendationsFollowRuleTable(inp: Inputs)
    ensures Recommendations(inp) == Messages(Fired(RuleOrder, inp))
  {
    FiredRuleOrder(inp);
    var p1 := Pick(SleepRule, inp);
    var p2 := p1 + Pick(StressRule, inp);
    var p3 := p2 + Pick(ScreenRule, inp);
    var p4 := p3 + Pick(ExerciseRule, inp);
    var p5 := p4 + Pick(CaffeineRule, inp);
    var p6 := p5 + Pick(ReactionRule, inp);
    forall r ensures Advice(r, inp) == Messages(Pick(r, inp)) {
      assert Messages([r]) == [Message(r)];
    }
    MessagesAppend(p1, Pick(StressRule, inp));
    MessagesAppend(p2, Pick(ScreenRule, inp));
    MessagesAppend(p3, Pick(ExerciseRule, inp));
    MessagesAppend(p4, Pick(CaffeineRule, inp));
    MessagesAppend(p5, Pick(ReactionRule, inp));
    MessagesAppend(p6, Pick(MemoryRule, inp));
  }

  // ---------------------------------------------------------------------------
  // What the list contains, and in what order

  /** A rule's message is recommended exactly when its condition holds. */
  lemma RecommendedIff(inp: Inputs, r: Rule)
    ensures Message(r) in Recommendations(inp) <==> Fires(r, inp)
  {
    RecommendationsFollowRuleTable(inp);
    RuleOrderIsComplete();
    FiredMembers(RuleOrder, inp, r);
    var fired := Fired(RuleOrder, inp);
    if Message(r) in Recommendations(inp) {
      var i :| 0 <= i < |fired| && Recommendations(inp)[i] == Message(r);
      MessageInjective(fired[i], r);
    }
    if Fires(r, inp) {
      var i :| 0 <= i < |fired| && fired[i] == r;
      assert Recommendations(inp)[i] == Message(r);
    }
  }

  /** At most one message per rule. */
  lemma AtMostSeven(inp: Inputs)
    ensures |Recommendations(inp)| <= 7
  {
    RecommendationsFollowRuleTable(inp);
    RuleOrderIsComplete();
  }

  /**
    The messages follow the rule order (sleep, stress, screen, exercise,
    caffeine, reaction, memory): an earlier message belongs to an earlier rule.
   */
  lemma InRuleOrder(inp: Inputs, i: int, j: int)
    requires 0 <= i < j < |Recommendations(inp)|
    ensures |Fired(RuleOrder, inp)| == |Recommendations(inp)|
    ensures var fired := Fired(RuleOrder, inp);
      && Recommendations(inp)[i] == Message(fired[i])
      && Recommendations(inp)[j] == Message(fired[j])
      && Position(fired[i]) < Position(fired[j])
  {
    RecommendationsFollowRuleTable(inp);
    RuleOrderIsComplete();
    FiredIncreasing(RuleOrder, inp);
  }

  /** No message appears twice. */
  lemma NoDuplicates(inp: Inputs)
    ensures forall i, j :: 0 <= i < j < |Recommendations(inp)| ==>
      Recommendations(inp)[i] != Recommendations(inp)[j]
  {
    forall i, j | 0 <= i < j < |Recommendations(inp)|
      ensures Recommendations(inp)[i] != Recommendations(inp)[j]
    {
      InRuleOrder(inp, i, j);
      var fired := Fired(RuleOrder, inp);
      if Message(fired[i]) == Message(fired[j]) {
        MessageInjective(fired[i], fired[j]);
      }
    }
  }

  lemma PositionInjective(r1: Rule, r2: Rule)
    requires Position(r1) == Position(r2)
    ensures r1 == r2
  {
  }

  /** In an increasing list, the tail is everything but the head. */
  lemma InTail(rules: seq<Rule>, r: Rule)
    requires Increasing(rules) && rules != []
    ensures r in rules[1..] <==> r in rules && r != rules[0]
  {
    if r in rules[1..] {
      var k :| 0 <= k < |rules| - 1 && rules[1..][k] == r;
      assert rules[k + 1] == r;
    }
    if r in rules && r != rules[0] {
      var k :| 0 <= k < |rules| && rules[k] == r;
      assert rules[1..][k - 1] == r;
    }
  }

  /** The head of an increasing list has the least Position in it. */
  lemma HeadIsLeast(rules: seq<Rule>, r: Rule)
    requires Increasing(rules) && r in rules
    ensures Position(rules[0]) <= Position(r)
  {
    var k :| 0 <= k < |rules| && rules[k] == r;
    assert k == 0 || Position(rules[0]) < Position(rules[k]);
  }

  /** Two lists in increasing rule order that hold the same rules are equal. */
  lemma {:induction false} IncreasingUnique(a: seq<Rule>, b: seq<Rule>)
    requires Increasing(a) && Increasing(b)
    requires forall r :: r in a <==> r in b
    ensures a == b
  {
    assert a == [] || a[0] in a;
    assert b == [] || b[0] in b;
    if a == [] || b == [] {
      assert a == [] && b == [];
    } else {
      HeadIsLeast(b, a[0]);
      HeadIsLeast(a, b[0]);
      PositionInjective(a[0], b[0]);
      forall r ensures r in a[1..] <==> r in b[1..] {
        InTail(a, r);
        InTail(b, r);
      }
      assert Increasing(a[1..]) && Increasing(b[1..]);
      IncreasingUnique(a[1..], b[1..]);
      assert a == [a[0]] + a[1..] && b == [b[0]] + b[1..];
    }
  }

  /**
    The list is determined by which rules fire: the messages of any list of
    rules in rule order holding exactly the firing rules are the list.
   */
  lemma RecommendationsDetermined(inp: Inputs, rules: seq<Rule>)
    requires Increasing(rules)
    requires forall r :: r in rules <==> Fires(r, inp)
    ensures Recommendations(inp) == Messages(rules)
  {
    RecommendationsFollowRuleTable(inp);
    RuleOrderIsComplete();
    FiredIncreasing(RuleOrder, inp);
    forall r ensures r in rules <==> r in Fired(RuleOrder, inp) {
      FiredMembers(RuleOrder, inp, r);
    }
    IncreasingUnique(rules, Fired(RuleOrder, inp));
  }

  /** The list is empty exactly when no rule fires. */
  lemma EmptyIffNoneFires(inp: Inputs)
    ensures |Recommendations(inp)| == 0 <==> NoneFires(inp)
  {
    RecommendationsFollowRuleTable(inp);
    RuleOrderIsComplete();
    var fired := Fired(RuleOrder, inp);
    forall r ensures r in fired <==> Fires(r, inp) {
      FiredMembers(RuleOrder, inp, r);
    }
    assert fired == [] || fired[0] in fired;
  }

  // ---------------------------------------------------------------------------
  // The block as written

  /**
    Builds the list by seven conditional appends in the fixed order; the
    page then shows the numbered list, or the optimal message when the list
    is empty (`optimal`).
   */
  method BuildRecommendations(inp: Inputs) returns (recs: seq<string>, optimal: bool)
    ensures recs == Recommendations(inp)
    ensures optimal <==> NoneFires(inp)
  {
    // `before` is the list as it stood before the latest rule was checked.
    ghost var before: seq<string>;
    recs := [];
    if inp.sleepDuration < 7.0 || inp.sleepDuration > 9.0 {
      recs := recs + [SleepAdvice];
    }
    assert recs == Advice(SleepRule, inp);
    before := recs;
    if inp.stressLevel > 6 {
      recs := recs + [StressAdvice];
    }
    assert recs == before + Advice(StressRule, inp);
    before := recs;
    if inp.screenTime > 8.0 {
      recs := recs + [ScreenAdvice];
    }
    assert recs == before + Advice(ScreenRule, inp);
    before := recs;
    if inp.exercise == Low {
      recs := recs + [ExerciseAdvice];
    }
    assert recs == before + Advice(ExerciseRule, inp);
    before := recs;
    if inp.caffeineIntake > 400 {
      recs := recs + [CaffeineAdvice];
    }
    assert recs == before + Advice(CaffeineRule, inp);
    before := recs;
    if inp.reactionTime > 450.0 {
      recs := recs + [ReactionAdvice];
    }
    assert recs == before + Advice(ReactionRule, inp);
    before := recs;
    if inp.memoryTestScore < 60 {
      recs := recs + [MemoryAdvice];
    }
    assert recs == before + Advice(MemoryRule, inp);
    optimal := |recs| == 0;
    EmptyIffNoneFires(inp);
  }
}
