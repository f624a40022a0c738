/** The audit page: pick an image, ask a question about it, and show the
    answer with the located items drawn over the image. */
module Audit {
  import opened Js
  import opened Types
  import opened GeminiService

  const AnalysisFailedMessage := "Failed to analyze image. Please try again."

  /** The condition under which the analysis handler returns at once and
      the submit button's `disabled` prop is true: no file, or a prompt
      that trims to nothing. */
  predicate CannotSubmit(selectedFile: Option<File>, prompt: string) {
    selectedFile.None? || Trim(prompt) == []
  }

  /** Submitting is refused exactly when there is no file or the prompt is
      white space only. */
  lemma CannotSubmitIffMissingInput(selectedFile: Option<File>, prompt: string)
    ensures CannotSubmit(selectedFile, prompt) <==> selectedFile.None? || IsBlank(prompt)
  {
    TrimEmptyIffBlank(prompt);
  }

  /** The body of the handler's `try` block: read the file into a payload,
      then analyse it; a failure of either step is the outcome. */
  function AnalysisOutcome(
    file: File, prompt: string, read: File -> Outcome<string>,
    generate: AnalysisRequest -> Reply, parseJson: string -> Outcome<AuditResponse>)
    : (r: Outcome<AuditResponse>)
    ensures read(file).Thrown? ==> r == Thrown(read(file).error)
    ensures read(file).Returned? ==>
      r == AnalyzeAuditImage(StripDataUrlPrefix(read(file).value), file.mimeType, prompt, generate, parseJson)
  {
    match FileToGenerativePart(read(file))
    case Thrown(e) => Thrown(e)
    case Returned(image) => AnalyzeAuditImage(image, file.mimeType, prompt, generate, parseJson)
  }

  /** What the image area shows. */
  datatype ImageArea = UploadPrompt | OverlayView(url: string, items: seq<BoundingBox>) | PlainPreview(url: string)

  /** The boxes are drawn only over a result that has at least one item;
      otherwise the preview is shown plain, or the upload prompt when there
      is no preview. */
  function ImageAreaFor(previewUrl: Option<string>, result: Option<AuditResponse>): (area: ImageArea)
    ensures area.UploadPrompt? <==> previewUrl.None?
    ensures area.OverlayView? <==> previewUrl.Some? && result.Some? && |result.value.items| > 0
    ensures area.OverlayView? ==> area.url == previewUrl.value && area.items == result.value.items
    ensures area.PlainPreview? ==> area.url == previewUrl.value
  {
    match previewUrl
    case None => UploadPrompt
    case Some(url) =>
      if result.Some? && |result.value.items| > 0 then OverlayView(url, result.value.items)
      else PlainPreview(url)
  }

  /** The labels listed under "Detected Items", one per item, in order. */
  function Labels(items: seq<BoundingBox>): (labels: seq<string>)
    ensures |labels| == |items|
    ensures forall i :: 0 <= i < |items| ==> labels[i] == items[i].labelText
  {
    if items == [] then [] else [items[0].labelText] + Labels(items[1..])
  }

  /** What the results panel shows. */
  datatype ResultPanel = NoPanel | ErrorPanel(message: string) | ResultView(answer: string, labels: seq<string>)

  /** An error takes precedence over a result; with neither, no panel. */
  function ResultPanelFor(result: Option<AuditResponse>, error: Option<string>): (panel: ResultPanel)
    ensures panel.NoPanel? <==> result.None? && error.None?
    ensures error.Some? ==> panel == ErrorPanel(error.value)
    ensures error.None? && result.Some? ==>
      panel == ResultView(result.value.answer, Labels(result.value.items))
  {
    if error.Some? then ErrorPanel(error.value)
    else if result.Some? then ResultView(result.value.answer, Labels(result.value.items))
    else NoPanel
  }

  class AuditPage {
    var selectedFile: Option<File>
    var previewUrl: Option<string>
    var prompt: string
    var isAnalyzing: bool
    var result: Option<AuditResponse>
    var error: Option<string>

    /** A preview exists exactly when a file is selected. */
    predicate Valid()
      reads this
    {
      previewUrl.Some? <==> selectedFile.Some?
    }

    constructor ()
      ensures Valid()
      ensures selectedFile.None? && previewUrl.None? && prompt == []
      ensures !isAnalyzing && result.None? && error.None?
    {
      selectedFile, previewUrl, prompt := None, None, [];
      isAnalyzing, result, error := false, None, None;
    }

    /** `handleFileSelect`: the first chosen file and its object URL replace
        the current ones, and the previous result and error are cleared. An
        empty selection changes nothing. */
    method HandleFileSelect(files: seq<File>, objectUrl: string)
      requires Valid()
      modifies this
      ensures Valid()
      ensures files == [] ==> unchanged(this)
      ensures files != [] ==>
        && selectedFile == Some(files[0]) && previewUrl == Some(objectUrl)
        && result.None? && error.None?
        && prompt == old(prompt) && isAnalyzing == old(isAnalyzing)
    {
      if files != [] {
        selectedFile := Some(files[0]);
        previewUrl := Some(objectUrl);
        result := None;
        error := None;
      }
    }

    /** The text area's change handler. */
    method SetPrompt(text: string)
      modifies this`prompt
      ensures prompt == text
    {
      prompt := text;
    }

    /** The guard and the first step of `handleAnalyze`: mark the analysis
        as running and clear the error; the previous result stays. */
    method StartAnalyze() returns (started: bool)
      requires Valid()
      modifies this`isAnalyzing, this`error
      ensures Valid()
      ensures started <==> !CannotSubmit(selectedFile, prompt)
      ensures !started ==> unchanged(this)
      ensures started ==> isAnalyzing && error.None?
    {
      if CannotSubmit(selectedFile, prompt) {
        return false;
      }
      isAnalyzing := true;
      error := None;
      started := true;
    }

    /** The `try`/`catch`/`finally` tail of `handleAnalyze`: a returned
        response replaces the result; a failure sets the fixed message and
        keeps the old result; either way the analysis is over. */
    method CompleteAnalyze(outcome: Outcome<AuditResponse>)
      requires Valid()
      modifies this`result, this`error, this`isAnalyzing
      ensures Valid()
      ensures !isAnalyzing
      ensures outcome.Returned? ==> result == Some(outcome.value) && error == old(error)
      ensures outcome.Thrown? ==> result == old(result) && error == Some(AnalysisFailedMessage)
    {
      match outcome {
        case Returned(response) => result := Some(response);
        case Thrown(_) => error := Some(AnalysisFailedMessage);
      }
      isAnalyzing := false;
    }

    /** `handleAnalyze`, as one step: the file and prompt are those of the
        moment of submission. */
    method HandleAnalyze(
      read: File -> Outcome<string>,
      generate: AnalysisRequest -> Reply, parseJson: string -> Outcome<AuditResponse>)
      requires Valid()
      modifies this
      ensures Valid()
      ensures CannotSubmit(old(selectedFile), old(prompt)) ==> unchanged(this)
      ensures !CannotSubmit(old(selectedFile), old(prompt)) ==>
        var outcome := AnalysisOutcome(old(selectedFile).value, old(prompt), read, generate, parseJson);
        && selectedFile == old(selectedFile) && previewUrl == old(previewUrl) && prompt == old(prompt)
        && !isAnalyzing
        && (outcome.Returned? ==> result == Some(outcome.value) && error.None?)
        && (outcome.Thrown? ==> result == old(result) && error == Some(AnalysisFailedMessage))
    {
      var started := StartAnalyze();
      if started {
        var outcome := AnalysisOutcome(selectedFile.value, prompt, read, generate, parseJson);
        CompleteAnalyze(outcome);
      }
    }

    /** The remove-image button: preview, file and result go; the prompt
        and any error stay. */
    method RemoveImage()
      requires Valid()
      modifies this`previewUrl, this`selectedFile, this`result
      ensures Valid()
      ensures previewUrl.None? && selectedFile.None? && result.None?
      ensures prompt == old(prompt) && error == old(error) && isAnalyzing == old(isAnalyzing)
    {
      previewUrl := None;
      selectedFile := None;
      result := None;
    }

    /** The image area of the page: the upload prompt exactly while no file
        is selected, the overlay exactly over a result with items. */
    function ImageArea(): (area: ImageArea)
      reads this
      requires Valid()
      ensures area.UploadPrompt? <==> selectedFile.None?
      ensures area.OverlayView? <==> selectedFile.Some? && result.Some? && |result.value.items| > 0
    {
      ImageAreaFor(previewUrl, result)
    }

    /** The submit button's `disabled` prop is true exactly when the
        handler would return without doing anything. */
    function SubmitDisabled(): (disabled: bool)
      reads this
      ensures disabled <==> selectedFile.None? || IsBlank(prompt)
    {
      CannotSubmitIffMissingInput(selectedFile, prompt);
      CannotSubmit(selectedFile, prompt)
    }
  }
}
