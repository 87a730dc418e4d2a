/**
  The ten inputs of the cognitive score predictor, as the sidebar widgets of
  streamlit_app.py collect them, and the ranges those widgets allow.
 */
module UserInputs {

  /** The gender selectbox options. Accepted, but never used in scoring. */
  datatype Gender = Male | Female | Other

  /** The diet selectbox options, in the order the selectbox lists them. */
  datatype Diet = NonVegetarian | Vegetarian | Vegan

  /** The exercise-frequency selectbox options, in the order the selectbox lists them. */
  datatype Exercise = Low | Medium | High

  /**
    One filled-in form. Integer sliders give `int`, the sliders with a step of
    0.1 give `real`.
   */
  datatype Inputs = Inputs(
    age: int,
    gender: Gender,
    sleepDuration: real,    // hours
    stressLevel: int,       // 1 to 10
    diet: Diet,
    screenTime: real,       // hours per day
    exercise: Exercise,
    caffeineIntake: int,    // mg per day
    reactionTime: real,     // ms
    memoryTestScore: int
  )

  /** The bounds of the sidebar sliders: every value a user can submit lies inside them. */
  predicate InSliderRange(inp: Inputs) {
    && 18 <= inp.age <= 59
    && 4.0 <= inp.sleepDuration <= 10.0
    && 1 <= inp.stressLevel <= 10
    && 1.0 <= inp.screenTime <= 12.0
    && 0 <= inp.caffeineIntake <= 500
    && 200.0 <= inp.reactionTime <= 600.0
    && 40 <= inp.memoryTestScore <= 100
  }

  /** The position of a diet in its selectbox (Non-Vegetarian first). */
  function DietLevel(d: Diet): nat {
    match d
    case NonVegetarian => 0
    case Vegetarian => 1
    case Vegan => 2
  }

  /** The position of an exercise frequency in its selectbox (Low first). */
  function ExerciseLevel(e: Exercise): nat {
    match e
    case Low => 0
    case Medium => 1
    case High => 2
  }

  /**
    The form as it is first shown: each slider at its default value, each
    selectbox on its first option.
   */
  function DefaultInputs(): (inp: Inputs)
    ensures InSliderRange(inp)
  {
    Inputs(30, Male, 7.0, 5, NonVegetarian, 6.0, Low, 150, 350.0, 70)
  }
}
