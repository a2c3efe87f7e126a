/**
 * The upload page: the selection of at most six images with one preview per
 * image, the submission handler with its two ordered checks and its
 * success / failure outcome, and the three confidence classifiers used to
 * display results.
 *
 * Files and previews are opaque tokens (type parameters). Creating a preview
 * URL, fetching the model list and calling the prediction service are
 * parameters of the handlers that use them.
 */
module Upload {
  import opened Wrappers

  /** The largest selection the page accepts. */
  const MaxImages := 6

  const TooManyImages := "Maximum 6 images allowed"
  const NoModelSelected := "Please select a detection model"
  const NoImages := "Please upload at least one image"
  const PredictionFailedMessage := "Prediction failed. Please try again."
  const ModelsUnavailable := "Failed to load detection models"

  /** One result from the prediction service; `confidence` is shown as a percentage. */
  datatype Prediction = Prediction(diagnosis: string, confidence: real)

  /** What the submission sends: the chosen model and the images, in selection order. */
  datatype Request<File> = Request(model: string, images: seq<File>)

  /** The prediction call either returns results or throws. */
  datatype PredictionOutcome = Predicted(results: seq<Prediction>) | PredictionFailed

  /** `list.filter((_, i) => i !== index)`: keep every element whose position is not `index`. */
  function Without<T>(s: seq<T>, index: int): (r: seq<T>)
    ensures |r| == if 0 <= index < |s| then |s| - 1 else |s|
    ensures forall x | x in r :: x in s
    decreases |s|
  {
    if s == [] then [] else (if index == 0 then [] else [s[0]]) + Without(s[1..], index - 1)
  }

  /** The filter removes exactly the element at `index`, keeping the rest in order; any other index changes nothing. */
  lemma {:induction false} WithoutRemovesIndex<T>(s: seq<T>, index: int)
    ensures Without(s, index) == if 0 <= index < |s| then s[..index] + s[index + 1..] else s
    decreases |s|
  {
    if s != [] {
      WithoutRemovesIndex(s[1..], index - 1);
      if 0 < index < |s| {
        assert s[1..][..index - 1] == s[1..index];
        assert s[1..][index..] == s[index + 1..];
        assert [s[0]] + s[1..index] == s[..index];
      } else if index == 0 {
        assert s[1..] == s[index + 1..];
      } else {
        assert [s[0]] + s[1..] == s;
      }
    }
  }

  /**
   * The two checks of the submit handler, in order: the message of the first
   * that fails, or `None` when the request may be sent.
   */
  function SubmitBlocker(model: string, imageCount: nat): (blocker: Option<string>)
    ensures blocker == None <==> model != "" && imageCount > 0
    ensures model == "" ==> blocker == Some(NoModelSelected)
    ensures model != "" && imageCount == 0 ==> blocker == Some(NoImages)
  {
    if model == "" then Some(NoModelSelected)
    else if imageCount == 0 then Some(NoImages)
    else None
  }

  /** The risk assessment shown for a result, on the percentage scale. */
  function InterpretResult(confidence: real): (risk: string)
    ensures risk == "High Risk" <==> confidence > 80.0
    ensures risk == "Moderate Risk" <==> 50.0 < confidence <= 80.0
    ensures risk == "Low Risk" <==> confidence <= 50.0
  {
    if confidence > 80.0 then "High Risk"
    else if confidence > 50.0 then "Moderate Risk"
    else "Low Risk"
  }

  /** How severe a risk label is: Low 0, Moderate 1, High 2. */
  function RiskRank(risk: string): nat
  {
    if risk == "High Risk" then 2 else if risk == "Moderate Risk" then 1 else 0
  }

  /** A higher confidence never yields a lower risk. */
  lemma InterpretResultMonotone(c1: real, c2: real)
    requires c1 <= c2
    ensures RiskRank(InterpretResult(c1)) <= RiskRank(InterpretResult(c2))
  {
  }

  /** The colour scheme of a result card (the class strings themselves are presentation). */
  datatype Tone = Red | Yellow | Green

  /** The card colour for a result, on a zero-to-one scale. */
  function ResultColor(confidence: real): (tone: Tone)
    ensures tone == Red <==> confidence > 0.8
    ensures tone == Yellow <==> 0.5 < confidence <= 0.8
    ensures tone == Green <==> confidence <= 0.5
  {
    if confidence > 0.8 then Red
    else if confidence > 0.5 then Yellow
    else Green
  }

  /** The headline of a result card. */
  function DetectionLabel(confidence: real): (headline: string)
    ensures headline == "Leukemia Detected" <==> confidence > 10.0
    ensures headline == "No Leukemia" <==> confidence <= 10.0
  {
    if confidence > 10.0 then "Leukemia Detected" else "No Leukemia"
  }

  /**
   * The card colour uses a zero-to-one scale while the risk label uses
   * percentages: any confidence in (0.8, 50] is shown in red as "Low Risk".
   */
  lemma ClassifierScalesDisagree(confidence: real)
    requires 0.8 < confidence <= 50.0
    ensures ResultColor(confidence) == Red && InterpretResult(confidence) == "Low Risk"
  {
  }

  /**
   * The headline's threshold of 10 sits below the risk thresholds: a
   * confidence in (10, 50] is headed "Leukemia Detected" yet rated "Low Risk".
   */
  lemma DetectedYetLowRisk(confidence: real)
    requires 10.0 < confidence <= 50.0
    ensures DetectionLabel(confidence) == "Leukemia Detected"
    ensures InterpretResult(confidence) == "Low Risk" && ResultColor(confidence) == Red
  {
  }

  /** The upload page's component state. */
  class UploadPage<File, Preview> {
    var selectedModel: string
    var models: seq<string>
    var selectedFiles: seq<File>
    var previews: seq<Preview>
    var predictions: Option<seq<Prediction>>
    var isLoading: bool
    var error: Option<string>

    /** One preview per selected file, and never more than six files. */
    ghost predicate Valid()
      reads this
    {
      |selectedFiles| == |previews| <= MaxImages
    }

    constructor ()
      ensures Valid()
      ensures selectedModel == "" && models == [] && selectedFiles == [] && previews == []
      ensures predictions == None && !isLoading && error == None
    {
      selectedModel := "";
      models := [];
      selectedFiles := [];
      previews := [];
      predictions := None;
      isLoading := false;
      error := None;
    }

    /** The model list fetched on mount: `None` when the fetch threw. */
    method LoadModels(fetched: Option<seq<string>>)
      modifies this
      ensures fetched.Some? ==> models == fetched.value && error == old(error)
      ensures fetched.None? ==> models == old(models) && error == Some(ModelsUnavailable)
      ensures selectedModel == old(selectedModel) && selectedFiles == old(selectedFiles)
      ensures previews == old(previews) && predictions == old(predictions) && isLoading == old(isLoading)
    {
      if fetched.Some? {
        models := fetched.value;
      } else {
        error := Some(ModelsUnavailable);
      }
    }

    /** The model drop-down. */
    method SelectModel(model: string)
      modifies this`selectedModel
      ensures selectedModel == model
    {
      selectedModel := model;
    }

    /**
     * A new file selection: more than six files is refused with an error and
     * the old selection kept; otherwise the selection is replaced (not
     * extended), one preview is made per file and the error cleared.
     */
    method HandleFileChange(files: seq<File>, createObjectURL: File -> Preview)
      requires Valid()
      modifies this
      ensures Valid()
      ensures |files| > MaxImages ==>
        && error == Some(TooManyImages)
        && selectedFiles == old(selectedFiles) && previews == old(previews)
      ensures |files| <= MaxImages ==>
        && selectedFiles == files
        && |previews| == |files|
        && (forall i | 0 <= i < |files| :: previews[i] == createObjectURL(files[i]))
        && error == None
      ensures selectedModel == old(selectedModel) && models == old(models)
      ensures predictions == old(predictions) && isLoading == old(isLoading)
    {
      if |files| > MaxImages {
        error := Some(TooManyImages);
        return;
      }
      var filePreviews := seq(|files|, i requires 0 <= i < |files| => createObjectURL(files[i]));
      selectedFiles := files;
      previews := filePreviews;
      error := None;
    }

    /** The remove button under preview `index`: drops that file and its preview. */
    method RemoveImage(index: int)
      requires Valid()
      modifies this
      ensures Valid()
      ensures selectedFiles ==
        if 0 <= index < |old(selectedFiles)| then old(selectedFiles)[..index] + old(selectedFiles)[index + 1..]
        else old(selectedFiles)
      ensures previews ==
        if 0 <= index < |old(previews)| then old(previews)[..index] + old(previews)[index + 1..]
        else old(previews)
      ensures selectedModel == old(selectedModel) && models == old(models) && error == old(error)
      ensures predictions == old(predictions) && isLoading == old(isLoading)
    {
      WithoutRemovesIndex(selectedFiles, index);
      WithoutRemovesIndex(previews, index);
      var newFiles := Without(selectedFiles, index);
      var newPreviews := Without(previews, index);
      selectedFiles := newFiles;
      previews := newPreviews;
    }

    /**
     * The submit handler. Its checks run in order and a failed check sends
     * nothing; otherwise the request carries the model and every selected
     * image in order, and the outcome of `makePredictions` decides between
     * results and the failure message. Returns the request sent, if any.
     */
    method HandleSubmit(makePredictions: Request<File> -> PredictionOutcome) returns (sent: Option<Request<File>>)
      modifies this
      ensures SubmitBlocker(old(selectedModel), |old(selectedFiles)|).Some? ==>
        && sent == None
        && error == SubmitBlocker(old(selectedModel), |old(selectedFiles)|)
        && predictions == old(predictions) && isLoading == old(isLoading)
      ensures SubmitBlocker(old(selectedModel), |old(selectedFiles)|).None? ==>
        && sent == Some(Request(old(selectedModel), old(selectedFiles)))
        && !isLoading
        && match makePredictions(sent.value)
           case Predicted(results) => predictions == Some(results) && error == None
           case PredictionFailed => predictions == None && error == Some(PredictionFailedMessage)
      ensures selectedModel == old(selectedModel) && models == old(models)
      ensures selectedFiles == old(selectedFiles) && previews == old(previews)
    {
      if selectedModel == "" {
        error := Some(NoModelSelected);
        return None;
      }
      if |selectedFiles| == 0 {
        error := Some(NoImages);
        return None;
      }
      var images: seq<File> := [];
      for i := 0 to |selectedFiles|
        invariant images == selectedFiles[..i]
      {
        images := images + [selectedFiles[i]];
      }
      assert images == selectedFiles;
      var request := Request(selectedModel, images);
      isLoading := true;
      var outcome := makePredictions(request);
      match outcome {
        case Predicted(results) =>
          predictions := Some(results);
          error := None;
        case PredictionFailed =>
          error := Some(PredictionFailedMessage);
          predictions := None;
      }
      isLoading := false;
      sent := Some(request);
    }
  }
}
