/**
 * The exercise analysis route of the server: a stub that answers with a
 * mock result of fixed shape. `Math.random()` is drawn twice; each draw is
 * given here as the integer `Math.floor(Math.random() * k)` it produces.
 */
module ExerciseAnalysis {
  import opened Wrappers
  import opened Media

  datatype AnalysisResult = AnalysisResult(exercise: Option<string>, reps: int, calories: int, feedback: string)

  const Feedback: string := "Great form! Keep it up!"

  /** `Math.floor(Math.random() * 20)`, in 0..19 */
  type RepsDraw = d: int | 0 <= d < 20
  /** `Math.floor(Math.random() * 100)`, in 0..99 */
  type CaloriesDraw = d: int | 0 <= d < 100

  /**
   * POST /analyze: the label is echoed, the reps are 5..24, the calories
   * 20..119 and the feedback is constant. The uploaded file, if any, takes
   * no part in the result.
   */
  function Analyze(exercise: Option<string>, file: Option<MediaFile>, reps: RepsDraw, calories: CaloriesDraw): (r: AnalysisResult)
    ensures r.exercise == exercise
    ensures 5 <= r.reps <= 24 && 20 <= r.calories <= 119
    ensures r.feedback == Feedback
  {
    AnalysisResult(exercise, reps + 5, calories + 20, Feedback)
  }

  /** The result is the same whatever file comes with the label. */
  lemma AnalyzeIgnoresFile(exercise: Option<string>, f: Option<MediaFile>, g: Option<MediaFile>, reps: RepsDraw, calories: CaloriesDraw)
    ensures Analyze(exercise, f, reps, calories) == Analyze(exercise, g, reps, calories)
  {
  }

  /** Every value of the two documented ranges is the answer for some draw. */
  lemma AnalyzeCoversRanges(exercise: Option<string>, reps: int, calories: int)
    requires 5 <= reps <= 24 && 20 <= calories <= 119
    ensures exists dr: RepsDraw, dc: CaloriesDraw ::
      Analyze(exercise, None, dr, dc) == AnalysisResult(exercise, reps, calories, Feedback)
  {
    var dr: RepsDraw := reps - 5;
    var dc: CaloriesDraw := calories - 20;
    assert Analyze(exercise, None, dr, dc) == AnalysisResult(exercise, reps, calories, Feedback);
  }
}
