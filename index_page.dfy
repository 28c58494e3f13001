/** The main page (src/pages/Index.tsx): which of the three views is shown, the
    analysis on display and the label of what was scanned, and `handleAnalyze`,
    which calls the analysis function and either shows and saves the result or
    reports an error and leaves the page as it was. */
module IndexPage {
  import opened Types
  import opened Strings
  import AnalyzeHandler

  /** `AppView` */
  datatype View = Home | InputView | AnalysisScreen

  const ImageLabel := "Image scan"
  const LabelLength := 100
  const AnalysisFailed := "Analysis failed"
  const AnalyzeFallback := "Failed to analyze ingredients"

  /** `isImage ? 'Image scan' : input.slice(0, 100)` */
  function InputLabel(input: string, isImage: bool): (l: string)
    ensures isImage ==> l == ImageLabel
    ensures !isImage ==> |l| <= LabelLength && |l| <= |input| && l == input[..|l|]
    ensures !isImage && |input| <= LabelLength ==> l == input
    ensures !isImage && |input| > LabelLength ==> |l| == LabelLength
  {
    if isImage then ImageLabel else Take(input, LabelLength)
  }

  /** How the call to the analysis function ends: something is thrown (the
      `fetch` rejects, or a success body is not JSON), a non-OK status with
      the body's `error` field, or an OK body with its `error` field and the
      analysis. A field that is absent or not a string is `None`. */
  datatype AnalyzeReply =
    | Failed(error: Thrown)
    | NotOk(status: int, errorField: Option<string>)
    | Delivered(errorField: Option<string>, result: AnalysisResult)

  /** A field that JavaScript would treat as true. */
  predicate Truthy(s: Option<string>) {
    s.Some? && s.value != ""
  }

  /** What a call ends with: the analysis to show, or the text of the error toast. */
  datatype Outcome = Analyzed(result: AnalysisResult) | ErrorToast(message: string)

  function AnalyzeOutcome(reply: AnalyzeReply): (o: Outcome)
    ensures o.Analyzed? <==> reply.Delivered? && !Truthy(reply.errorField)
    ensures o.Analyzed? ==> o.result == reply.result
    ensures reply.NotOk? && !Truthy(reply.errorField) ==> o == ErrorToast(AnalysisFailed)
    ensures !reply.Failed? && Truthy(reply.errorField) ==> o == ErrorToast(reply.errorField.value)
    ensures reply.Failed? ==> o == ErrorToast(MessageOr(reply.error, AnalyzeFallback))
  {
    match reply
    case Failed(e) => ErrorToast(MessageOr(e, AnalyzeFallback))
    case NotOk(_, field) => ErrorToast(if Truthy(field) then field.value else AnalysisFailed)
    case Delivered(field, result) => if Truthy(field) then ErrorToast(field.value) else Analyzed(result)
  }

  /** The analysis view is drawn only in the analysis view with a result. */
  predicate ShowsAnalysis(view: View, result: Option<AnalysisResult>) {
    view == AnalysisScreen && result.Some?
  }

  class Page {
    var view: View
    var analysisResult: Option<AnalysisResult>
    var originalInput: string
    var isAnalyzing: bool
    var isProfileOpen: bool

    constructor ()
      ensures view == Home && analysisResult == None && originalInput == ""
      ensures !isAnalyzing && !isProfileOpen
    {
      view := Home;
      analysisResult := None;
      originalInput := "";
      isAnalyzing := false;
      isProfileOpen := false;
    }

    /** The hero's scan button. */
    method ScanClick()
      modifies this
      ensures view == InputView
      ensures analysisResult == old(analysisResult) && originalInput == old(originalInput)
      ensures isAnalyzing == old(isAnalyzing) && isProfileOpen == old(isProfileOpen)
    {
      view := InputView;
    }

    /** The input card's close button. */
    method CloseInput()
      modifies this
      ensures view == Home
      ensures analysisResult == old(analysisResult) && originalInput == old(originalInput)
      ensures isAnalyzing == old(isAnalyzing) && isProfileOpen == old(isProfileOpen)
    {
      view := Home;
    }

    /** The analysis view's back button. */
    method Back()
      modifies this
      ensures view == Home
      ensures analysisResult == old(analysisResult) && originalInput == old(originalInput)
      ensures isAnalyzing == old(isAnalyzing) && isProfileOpen == old(isProfileOpen)
    {
      view := Home;
    }

    /** The analysis view's new-scan button: the result is dropped. */
    method NewScan()
      modifies this
      ensures view == InputView && analysisResult == None && !ShowsAnalysis(view, analysisResult)
      ensures originalInput == old(originalInput)
      ensures isAnalyzing == old(isAnalyzing) && isProfileOpen == old(isProfileOpen)
    {
      analysisResult := None;
      view := InputView;
    }

    /** `handleSelectFromHistory(result, inputLabel)` */
    method SelectFromHistory(result: AnalysisResult, inputLabel: string)
      modifies this
      ensures view == AnalysisScreen && analysisResult == Some(result) && originalInput == inputLabel
      ensures ShowsAnalysis(view, analysisResult)
      ensures isAnalyzing == old(isAnalyzing) && isProfileOpen == old(isProfileOpen)
    {
      analysisResult := Some(result);
      originalInput := inputLabel;
      view := AnalysisScreen;
    }

    method SetProfileOpen(open: bool)
      modifies this
      ensures isProfileOpen == open
      ensures view == old(view) && analysisResult == old(analysisResult)
      ensures originalInput == old(originalInput) && isAnalyzing == old(isAnalyzing)
    {
      isProfileOpen := open;
    }

    /** `handleAnalyze(input, isImage, imageBase64)` with the current
        `profile`: returns the request body posted, the arguments of the
        `addScan` call if one is made, and the error toast if one is shown. */
    method HandleAnalyze(input: string, isImage: bool, imageBase64: Option<string>, profile: UserProfile,
                         reply: AnalyzeReply)
      returns (request: AnalyzeHandler.AnalyzeRequest, saved: Option<(string, AnalysisResult)>, toast: Option<string>)
      modifies this
      ensures request == AnalyzeHandler.AnalyzeRequest(input, if isImage then imageBase64 else None, Some(AsPartial(profile)))
      ensures originalInput == InputLabel(input, isImage) && !isAnalyzing
      ensures isProfileOpen == old(isProfileOpen)
      ensures var o := AnalyzeOutcome(reply);
        (o.Analyzed? ==>
           view == AnalysisScreen && analysisResult == Some(o.result) && ShowsAnalysis(view, analysisResult)
           && saved == Some((InputLabel(input, isImage), o.result)) && toast == None)
        && (o.ErrorToast? ==>
              view == old(view) && analysisResult == old(analysisResult)
              && saved == None && toast == Some(o.message))
    {
      isAnalyzing := true;
      var inputLabel := if isImage then ImageLabel else Take(input, LabelLength);
      originalInput := inputLabel;
      request := AnalyzeHandler.AnalyzeRequest(input, if isImage then imageBase64 else None, Some(AsPartial(profile)));
      saved, toast := None, None;
      match reply {
        case Failed(e) =>
          toast := Some(MessageOr(e, AnalyzeFallback));
        case NotOk(_, field) =>
          toast := Some(if Truthy(field) then field.value else AnalysisFailed);
        case Delivered(field, result) =>
          if Truthy(field) {
            toast := Some(field.value);
          } else {
            analysisResult := Some(result);
            originalInput := inputLabel;
            view := AnalysisScreen;
            saved := Some((inputLabel, result));
          }
      }
      isAnalyzing := false;
    }
  }
}
