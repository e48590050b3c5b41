/**
 * The exercise analysis screen of the client: choosing an exercise and an
 * upload type, submitting, and keeping the burned calories on the server
 * or in the local `totalCalories` slot.
 */
module ExerciseScreen {
  import opened Wrappers
  import opened LocalCache
  import opened Media
  import opened ExerciseAnalysis

  /** The exercise buttons, in the order shown. */
  const Exercises: seq<string> :=
    ["pushups", "pullups", "squarts", "russian twist", "leg rises", "planks", "lateral rise", "chest butterfly", "bicep"]

  const AnalysisFailed: string := "Failed to analyze exercise. Please try again."

  /** What the screen shows below the form: the server's result, or the error record. */
  datatype ResultView = Shown(analysis: AnalysisResult) | Failed(error: string)

  /** The multipart request to the analysis route: the label, and the file if one is attached. */
  datatype AnalyzeRequest = AnalyzeRequest(exercise: string, file: Option<MediaFile>)

  /**
   * What `handleSubmit` sends: nothing without an exercise and an upload
   * type; an uploaded file when there is one; the camera capture, or
   * nothing when the capture gave no image; otherwise the label alone.
   */
  function SubmitRequest(exercise: string, uploadType: string, file: Option<MediaFile>, capture: Option<MediaFile>): (r: Option<AnalyzeRequest>)
    ensures exercise == "" || uploadType == "" ==> r.None?
    ensures r.Some? ==> r.value.exercise == exercise
    ensures r.Some? && r.value.file.Some? ==>
      (uploadType == "upload" && r.value.file == file) || (uploadType == "camera" && r.value.file == capture)
    ensures exercise != "" && uploadType == "upload" && file.Some? ==> r == Some(AnalyzeRequest(exercise, file))
    ensures exercise != "" && uploadType == "camera" ==> r == if capture.Some? then Some(AnalyzeRequest(exercise, capture)) else None
    ensures exercise != "" && uploadType != "" && uploadType != "camera" ==> r.Some?
  {
    if exercise == "" || uploadType == "" then None
    else if uploadType == "upload" && file.Some? then Some(AnalyzeRequest(exercise, file))
    else if uploadType == "camera" then
      if capture.Some? then Some(AnalyzeRequest(exercise, capture)) else None
    else Some(AnalyzeRequest(exercise, None))
  }

  class ExerciseAI {
    var selectedExercise: string
    var uploadType: string
    var file: Option<MediaFile>
    var result: Option<ResultView>

    /** The chosen exercise, if any, is one of the nine options. */
    ghost predicate Valid()
      reads this
    {
      selectedExercise == "" || selectedExercise in Exercises
    }

    constructor ()
      ensures Valid()
      ensures selectedExercise == "" && uploadType == "" && file.None? && result.None?
    {
      selectedExercise, uploadType, file, result := "", "", None, None;
    }

    /** `handleExerciseSelect`: the exercise is set and the upload type, file and result cleared. */
    method SelectExercise(exercise: string)
      requires exercise in Exercises
      modifies this
      ensures Valid()
      ensures selectedExercise == exercise && uploadType == "" && file.None? && result.None?
    {
      selectedExercise := exercise;
      uploadType := "";
      file := None;
      result := None;
    }

    /** The back button of the upload-type step: the exercise is cleared. */
    method BackToExercises()
      requires Valid()
      modifies this`selectedExercise
      ensures Valid() && selectedExercise == ""
    {
      selectedExercise := "";
    }

    /** `handleUploadTypeSelect` */
    method SelectUploadType(t: string)
      requires Valid()
      modifies this`uploadType
      ensures Valid() && uploadType == t
    {
      uploadType := t;
    }

    /** The back button of the upload step: the upload type is cleared (and the camera stopped). */
    method BackToUploadType()
      requires Valid()
      modifies this`uploadType
      ensures Valid() && uploadType == ""
    {
      uploadType := "";
    }

    /** `handleFileChange` */
    method ChangeFile(f: Option<MediaFile>)
      requires Valid()
      modifies this`file
      ensures Valid() && file == f
    {
      file := f;
    }

    /** `handleSubmit`: build the request, and send it if there is one. */
    method Submit(ls: Storage, capture: Option<MediaFile>, analyzeReply: Reply<AnalysisResult>, caloriesReply: Reply<()>)
      returns (request: Option<AnalyzeRequest>, caloriesPosted: Option<(string, int)>)
      requires Valid()
      modifies this`result, ls`totalCalories
      ensures Valid()
      ensures request.Some? ==> request.value.exercise in Exercises
      ensures request == SubmitRequest(selectedExercise, uploadType, file, capture)
      ensures request.None? ==> result == old(result) && ls.totalCalories == old(ls.totalCalories) && caloriesPosted.None?
      ensures request.Some? ==> SentEffect(selectedExercise, old(ls.LocalTotal()), old(ls.totalCalories), ls.totalCalories,
                                           IsRealToken(ls.token), analyzeReply, caloriesReply, result, caloriesPosted)
    {
      request := SubmitRequest(selectedExercise, uploadType, file, capture);
      caloriesPosted := None;
      if request.Some? {
        caloriesPosted := SendToAI(ls, analyzeReply, caloriesReply);
      }
    }

    /**
     * `sendToAI`: show the server's result; keep nonzero calories on the
     * server with a real token (an error there replaces the result with
     * the error record), otherwise add them to the local total. A failed
     * analysis shows the error record and keeps nothing.
     */
    method SendToAI(ls: Storage, analyzeReply: Reply<AnalysisResult>, caloriesReply: Reply<()>) returns (caloriesPosted: Option<(string, int)>)
      requires Valid()
      modifies this`result, ls`totalCalories
      ensures Valid()
      ensures SentEffect(selectedExercise, old(ls.LocalTotal()), old(ls.totalCalories), ls.totalCalories,
                         IsRealToken(ls.token), analyzeReply, caloriesReply, result, caloriesPosted)
    {
      caloriesPosted := None;
      if !analyzeReply.Ok? {
        result := Some(Failed(AnalysisFailed));
        return;
      }
      var data := analyzeReply.data;
      result := Some(Shown(data));
      if data.calories != 0 {
        if IsRealToken(ls.token) {
          caloriesPosted := Some((selectedExercise, data.calories));
          if !caloriesReply.Ok? {
            result := Some(Failed(AnalysisFailed));
          }
        } else {
          ls.totalCalories := Some(ls.LocalTotal() + data.calories);
        }
      }
    }
  }

  /**
   * The effect of one analysis request on the shown result, the local
   * total (before: `localBefore` as read, `slotBefore` as stored; after:
   * `slotAfter`) and the body posted to the calorie route: the selected
   * exercise `exercise` with the calories.
   */
  predicate SentEffect(exercise: string, localBefore: int, slotBefore: Option<int>, slotAfter: Option<int>, realToken: bool,
                       analyzeReply: Reply<AnalysisResult>, caloriesReply: Reply<()>,
                       result: Option<ResultView>, caloriesPosted: Option<(string, int)>)
  {
    match analyzeReply
    case Ok(data) =>
      if data.calories == 0 then
        result == Some(Shown(data)) && slotAfter == slotBefore && caloriesPosted.None?
      else if realToken then
        && caloriesPosted == Some((exercise, data.calories))
        && slotAfter == slotBefore
        && result == (if caloriesReply.Ok? then Some(Shown(data)) else Some(Failed(AnalysisFailed)))
      else
        && caloriesPosted.None?
        && slotAfter == Some(localBefore + data.calories)
        && result == Some(Shown(data))
    case _ =>
      result == Some(Failed(AnalysisFailed)) && slotAfter == slotBefore && caloriesPosted.None?
  }

  /** Without a real token, two successful analyses add both calorie counts to the local total. */
  lemma LocalTotalsAccumulate(e: string, t0: Option<int>, t1: Option<int>, t2: Option<int>, a: AnalysisResult, b: AnalysisResult,
                              r1: Option<ResultView>, r2: Option<ResultView>, p1: Option<(string, int)>, p2: Option<(string, int)>)
    requires a.calories != 0 && b.calories != 0
    requires SentEffect(e, t0.GetOr(0), t0, t1, false, Ok(a), NotOk, r1, p1)
    requires SentEffect(e, t1.GetOr(0), t1, t2, false, Ok(b), NotOk, r2, p2)
    ensures t2 == Some(t0.GetOr(0) + a.calories + b.calories)
    ensures p1.None? && p2.None?
  {
  }
}
