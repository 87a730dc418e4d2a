# Cognitive score predictor: a Dafny model

The Streamlit app `streamlit_app.py` asks for ten inputs in its sidebar: age, gender, sleep, stress, diet, screen time, exercise, caffeine, reaction time and memory test score. When the user clicks "Predict Cognitive Score", the app does three things:

- it computes a score in [0, 100] with `predict_cognitive_score`;
- it names a tier (Excellent, Good, Moderate or Low);
- it lists up to seven lifestyle recommendations, or says the lifestyle appears optimal.

This project models that engine and proves what it promises.

- `user_inputs.dfy` (module `UserInputs`): the form. Gender, diet and exercise are datatypes. `InSliderRange` holds the slider bounds. `DefaultInputs` is the form as first shown.
- `score_engine.dfy` (module `ScoreEngine`): the score function.
  - The lookup tables and the seven normalisations.
  - The weighted sum and the clamp.
  - Bounds, monotonicity, independence from gender, and the peaks at 8 hours of sleep and 200 mg of caffeine.
  - All arithmetic is exact `real` arithmetic.
- `interpretation.dfy` (module `Interpretation`): the if/elif tier chain, characterised band by band, and its monotonicity.
- `recommendations.dfy` (module `RecommendationRules`): the seven rules.
  - `BuildRecommendations` is the block as written: seven conditional appends, then the emptiness test.
  - It is proved equal to the pure `Recommendations`.
  - `Recommendations` is proved equal to filtering the rule table `RuleOrder` (`Fired`).
  - Membership, order, the bound of seven, no repeats and the optimal case are proved against that table.
- `dashboard.dfy` (module `Dashboard`): the button handler.
  - It composes score, tier and recommendations.
  - The `enumerate` loop writes the numbered list or the optimal message.
  - Two worked examples are included.

## Model

| member | source | states |
|---|---|---|
| UserInputs.DefaultInputs | streamlit_app.py:88-101 | the widget defaults (each selectbox on its first option) lie inside the slider bounds |
| ScoreEngine.DietFactor | streamlit_app.py:108 | the diet factor lies in [0, 1] and is half the diet's position in the selectbox (0, 0.5, 1) |
| ScoreEngine.ExerciseFactor | streamlit_app.py:109 | the exercise factor lies in [0, 1] and is half the frequency's position (Low 0, Medium 0.5, High 1) |
| ScoreEngine.AgeNorm | streamlit_app.py:111 | for ages 18..59 the factor lies in [0, 1]; it is 1 exactly at age 18 |
| ScoreEngine.SleepQuality | streamlit_app.py:112 | the factor never exceeds 1, is non-negative for 4..10 hours, and is 1 exactly at 8 hours |
| ScoreEngine.StressImpact | streamlit_app.py:113 | for levels 1..10 the factor lies in [0, 0.9] |
| ScoreEngine.ScreenImpact | streamlit_app.py:114 | for 1..12 hours the factor lies in [0, 1] |
| ScoreEngine.CaffeineImpact | streamlit_app.py:115 | the factor never exceeds 1, is non-negative for 0..500 mg, and is 1 exactly at 200 mg |
| ScoreEngine.ReactionImpact | streamlit_app.py:116 | for 200..600 ms the factor lies in [0, 1] |
| ScoreEngine.MemoryImpact | streamlit_app.py:117 | for scores 40..100 the factor lies in [0.4, 1] |
| ScoreEngine.FactorsOf | streamlit_app.py:111-117 | for a form inside the slider bounds every one of the nine factors lies in [0, 1] |
| ScoreEngine.Weighted | streamlit_app.py:119-129 | when every factor lies in [0, 1] the weighted sum lies in [0, 1] |
| ScoreEngine.WeightsSumToOne | streamlit_app.py:119-129 | the nine weights total exactly 1 (all factors 1 give 1, all 0 give 0) |
| ScoreEngine.Clamp | streamlit_app.py:131 | the result lies in [0, 100], equals its argument inside that range, and is 0 below it and 100 above it |
| ScoreEngine.ClampMonotone | streamlit_app.py:131 | clamping preserves order |
| ScoreEngine.PredictCognitiveScore | streamlit_app.py:104-131 | the score lies in [0, 100] for every form; inside the slider bounds it is exactly 100 times the weighted sum, so the clamp has no effect |
| ScoreEngine.MemoryMonotone | streamlit_app.py:117-128 | raising only the memory test score never lowers the score |
| ScoreEngine.MemoryStrictlyMonotone | streamlit_app.py:117-128 | inside the slider bounds, raising only the memory test score strictly raises the score |
| ScoreEngine.StressAntitone | streamlit_app.py:113-122 | raising only the stress level never raises the score |
| ScoreEngine.DietMonotone | streamlit_app.py:108-123 | moving the diet towards Vegan never lowers the score |
| ScoreEngine.ExerciseMonotone | streamlit_app.py:109-125 | moving the exercise frequency towards High never lowers the score |
| ScoreEngine.GenderIndependent | streamlit_app.py:107-129 | changing only the gender leaves the score unchanged, and every gender table entry is 0 |
| ScoreEngine.SleepPeak | streamlit_app.py:112-121 | setting sleep to 8 hours never lowers the score |
| ScoreEngine.CaffeinePeak | streamlit_app.py:115-126 | setting caffeine to 200 mg never lowers the score |
| ScoreEngine.DefaultInputsScore | streamlit_app.py:88-131 | the default form scores exactly 6364/123 (about 51.74) |
| Interpretation.SelectTier | streamlit_app.py:169-176 | Excellent iff score >= 80, Good iff 60 <= score < 80, Moderate iff 40 <= score < 60, Low iff score < 40 |
| Interpretation.TierMonotone | streamlit_app.py:169-176 | a higher score never gives a lower tier |
| Interpretation.TierBoundaries | streamlit_app.py:169-176 | each threshold 80, 60, 40 belongs to the tier above it, and a score just below it to the tier beneath |
| RecommendationRules.MessageInjective | streamlit_app.py:182-194 | the seven messages are pairwise distinct |
| RecommendationRules.OptimalMessageDistinct | streamlit_app.py:182-199 | the optimal message is none of the seven rule messages |
| RecommendationRules.RuleOrderIsComplete | streamlit_app.py:181-193 | the rule table lists all seven rules once each, in checking order |
| RecommendationRules.Fired | streamlit_app.py:181-194 | filtering a rule list never lengthens it |
| RecommendationRules.Messages | streamlit_app.py:182-194 | one message per rule |
| RecommendationRules.FiredMembers | streamlit_app.py:181-194 | a rule survives the filter iff it is in the list and its condition holds |
| RecommendationRules.FiredIncreasing | streamlit_app.py:181-194 | the filter keeps the rules in checking order |
| RecommendationRules.FiredRuleOrder | streamlit_app.py:181-194 | filtering the rule table checks the seven rules one after another |
| RecommendationRules.RecommendationsFollowRuleTable | streamlit_app.py:180-194 | the list is the messages of the firing rules of the table, in table order |
| RecommendationRules.RecommendedIff | streamlit_app.py:181-194 | each rule's message is in the list iff its condition holds |
| RecommendationRules.AtMostSeven | streamlit_app.py:180-194 | the list holds at most seven messages |
| RecommendationRules.InRuleOrder | streamlit_app.py:180-194 | of two messages in the list, the earlier belongs to the earlier rule (sleep, stress, screen, exercise, caffeine, reaction, memory) |
| RecommendationRules.NoDuplicates | streamlit_app.py:180-194 | no message appears twice |
| RecommendationRules.RecommendationsDetermined | streamlit_app.py:180-194 | any list of rules in checking order holding exactly the firing rules has the list as its messages |
| RecommendationRules.EmptyIffNoneFires | streamlit_app.py:195-199 | the list is empty iff no rule condition holds |
| RecommendationRules.BuildRecommendations | streamlit_app.py:180-199 | the seven conditional appends build exactly the specified list, and the optimal branch is taken iff no rule condition holds |
| Dashboard.DigitChar | streamlit_app.py:196-197 | a digit below 10 is written as a character between '0' and '9' |
| Dashboard.Numeral | streamlit_app.py:196-197 | a list number is written as a non-empty string of digits without a leading zero |
| Dashboard.NumeralRoundTrip | streamlit_app.py:196-197 | reading a written number back gives the number |
| Dashboard.Display | streamlit_app.py:195-199 | the block shows one line per recommendation, or a single line when there are none |
| Dashboard.DisplayNumbersFromOne | streamlit_app.py:196-197 | line k shows recommendation k after the number k + 1, a full stop and a space |
| Dashboard.OptimalShownIffEmpty | streamlit_app.py:195-199 | the optimal message is shown iff the recommendation list is empty |
| Dashboard.ShowRecommendations | streamlit_app.py:195-199 | the enumerate loop writes exactly the specified block |
| Dashboard.OnPredict | streamlit_app.py:140-199 | a click shows the predicted score (in [0, 100]), the tier of that score, the block of the specified recommendations, and the optimal message iff no rule fires |
| Dashboard.DefaultReport | streamlit_app.py:88-199 | the default form gives a Moderate tier and the single line "1. Increase physical activity (e.g., 30 mins/day)." |
| Dashboard.MediumExerciseReport | streamlit_app.py:88-199 | the default form with Medium exercise scores 14573/246, Moderate, with no rule firing and the optimal message shown |

## Left out

- Page setup, CSS, columns, the sidebar widgets and the button (streamlit_app.py:9-66, 85-101, 134-140, 201-236) are user interface. Only the slider bounds (`InSliderRange`) and the defaults (`DefaultInputs`) are kept. The click is the method `Dashboard.OnPredict`.
- The slider step of 0.1 is not modelled. The real-valued inputs range over all rationals within their bounds, which is a superset of what a user can submit.
- CSV loading with its dummy-DataFrame fallback (streamlit_app.py:69-82) and the seaborn histogram (219-225) are left out. They are file I/O and plotting and do not affect the score.
- The matplotlib polar gauge (streamlit_app.py:148-165) is chart rendering with float trigonometry. It is left out.
- IEEE-754 rounding is left out. The arithmetic is exact, so scores near a tier threshold (e.g. 79.99999 in floating point) may fall in a different tier than the app shows.
- The tier messages' text with the score formatted to one decimal (streamlit_app.py:170-176) is left out. The tier is a datatype. Markdown rendering of the lines is also left out.
- A `KeyError` on an unknown diet or exercise string cannot arise, because the datatypes are closed. The widgets offer only those options.
- Nothing else is left out. Note that `DefaultInputs` takes Low as the default exercise, because a selectbox starts on its first option. The same form with Medium is `Dashboard.MediumExerciseReport`.
