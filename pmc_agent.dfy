/**
 * The schedule-analysis screen (components/PMCAgent.js): when an analysis
 * may start, which input it sends, what loading a file or typing does to
 * the inputs, the risk badge colour, and copying the contractor note.
 */
module PMCAgent {
  import opened Wrappers
  import opened Text
  import opened Browser
  import opened Js
  import Constants
  import GeminiService

  /** The three badge styles of `getRiskColor`. */
  datatype RiskColor = Red | Yellow | Teal {
    /** The CSS classes of the badge. */
    function Classes(): string {
      match this
      case Red => "text-red-600 bg-red-100 border-red-200"
      case Yellow => "text-yellow-600 bg-yellow-100 border-yellow-200"
      case Teal => "text-teal-600 bg-teal-100 border-teal-200"
    }
  }

  /** `getRiskColor(level)` on a string level or a missing one (`None`). */
  function GetRiskColor(level: Option<string>): (c: RiskColor)
    ensures c == Red <==> level.Some? && ToLowerAscii(level.value) == "high"
    ensures c == Yellow <==> level.Some? && ToLowerAscii(level.value) == "medium"
    ensures level.None? ==> c == Teal
  {
    if level.None? then Teal
    else
      var l := ToLowerAscii(level.value);
      if l == "high" then Red else if l == "medium" then Yellow else Teal
  }

  /** Lower-casing an upper-cased character gives its lower case. */
  lemma LowerOfUpper(c: char)
    ensures LowerAscii(UpperAscii(c)) == LowerAscii(c)
  {
  }

  /** The badge ignores letter case: an upper-cased level gets the same colour. */
  lemma RiskColorIgnoresCase(s: string)
    ensures GetRiskColor(Some(ToUpperAscii(s))) == GetRiskColor(Some(s))
  {
    forall i | 0 <= i < |s| ensures ToLowerAscii(ToUpperAscii(s))[i] == ToLowerAscii(s)[i] {
      LowerOfUpper(s[i]);
    }
    assert ToLowerAscii(ToUpperAscii(s)) == ToLowerAscii(s);
  }

  /**
   * The standard named in the printed header: the English name of the
   * standard with the selected id, or "General" when no standard has it.
   */
  function PrintedStandardName(selectedStandard: string): (r: string)
    ensures forall k | 0 <= k < |Constants.PlanningStandards| ::
      Constants.PlanningStandards[k].id == selectedStandard ==> r == Constants.PlanningStandards[k].name.en
    ensures (forall k | 0 <= k < |Constants.PlanningStandards| :: Constants.PlanningStandards[k].id != selectedStandard) ==>
      r == "General"
    ensures r != ""
  {
    Constants.PlanningStandardsWellFormed();
    var found := GeminiService.FindStandard(Constants.PlanningStandards, selectedStandard);
    if found.Some? && found.value.name.en != "" then
      assert found.value in Constants.PlanningStandards;
      found.value.name.en
    else "General"
  }

  /** The input an analysis sends: the loaded file's content if truthy, else the typed text. */
  function AnalysisInput(filePreview: Option<string>, textInput: string): (r: string)
    ensures Filled(filePreview) ==> r == filePreview.value
    ensures !Filled(filePreview) ==> r == textInput
  {
    if Filled(filePreview) then filePreview.value else textInput
  }

  /** A file handed to `processFile`: its MIME type and what the reader produced. */
  datatype FileData = FileData(mimeType: string, content: string)

  /** The arguments of an analysis that has been started and not yet answered. */
  datatype AnalysisCall = AnalysisCall(inputData: string, isImage: bool, standardId: string, language: string)

  /** The screen's state. */
  class Agent {
    var textInput: string
    var selectedStandard: string
    /** `result`: the last report, `null` (here `None`) before one arrives. */
    var result: Option<Value>
    var isLoading: bool
    var copiedNote: bool
    /** `filePreview`: the loaded file's content, a data URL for images. */
    var filePreview: Option<string>
    var isImage: bool
    /** The analysis awaiting its answer, if any. */
    var pending: Option<AnalysisCall>
    /** The texts written to the clipboard, oldest first. */
    var clipboard: seq<Value>
    /** How many times the error alert has been shown. */
    var alerts: nat

    /** A request is awaited exactly while the screen is loading. */
    predicate Valid()
      reads this
    {
      pending.Some? <==> isLoading
    }

    /** The first render: nothing typed or loaded, the `general` standard. */
    constructor ()
      ensures Valid()
      ensures textInput == "" && selectedStandard == "general" && result.None? && !isLoading
      ensures !copiedNote && filePreview.None? && !isImage && pending.None? && clipboard == [] && alerts == 0
    {
      textInput := "";
      selectedStandard := "general";
      result := None;
      isLoading := false;
      copiedNote := false;
      filePreview := None;
      isImage := false;
      pending := None;
      clipboard := [];
      alerts := 0;
    }

    /** The analyze button is disabled while loading or when there is nothing to send. */
    predicate AnalyzeDisabled()
      reads this
    {
      isLoading || (Trim(textInput) == "" && !Filled(filePreview))
    }

    /** The guard of `handleAnalyze`, which is exactly the button being enabled. */
    predicate CanAnalyze()
      reads this
      ensures CanAnalyze() <==> !AnalyzeDisabled()
      ensures CanAnalyze() <==> !isLoading && (!IsBlank(textInput) || Filled(filePreview))
    {
      TrimEmptyIffBlank(textInput);
      !((Trim(textInput) == "" && !Filled(filePreview)) || isLoading)
    }

    /**
     * The synchronous start of `handleAnalyze`: unless the guard fails, the
     * screen starts loading, clears the last report and sends the file
     * content (or else the text) with the chosen standard.
     */
    method BeginAnalyze(language: string)
      requires Valid()
      modifies this
      ensures Valid()
      ensures !old(CanAnalyze()) ==>
        && isLoading == old(isLoading) && result == old(result) && pending == old(pending)
      ensures old(CanAnalyze()) ==>
        && isLoading && result.None?
        && pending == Some(AnalysisCall(AnalysisInput(filePreview, textInput), isImage, selectedStandard, language))
      ensures textInput == old(textInput) && selectedStandard == old(selectedStandard)
      ensures filePreview == old(filePreview) && isImage == old(isImage)
      ensures copiedNote == old(copiedNote) && clipboard == old(clipboard) && alerts == old(alerts)
    {
      if !CanAnalyze() {
        return;
      }
      isLoading := true;
      result := None;
      pending := Some(AnalysisCall(AnalysisInput(filePreview, textInput), isImage, selectedStandard, language));
    }

    /**
     * The rest of `handleAnalyze`, once the service answers: a report becomes
     * the result, a failure shows the alert, and loading ends either way.
     */
    method FinishAnalyze(
      service: GeminiService.Service,
      generate: (GeminiService.GeminiClient, GeminiService.GenerateRequest) -> Result<Option<string>, string>,
      parse: string -> Option<Value>)
      requires Valid() && pending.Some?
      modifies this
      ensures Valid() && !isLoading && pending.None?
      ensures var call := old(pending).value;
        var answer := GeminiService.AnalyzeSchedule(service, call.inputData, call.isImage, call.standardId, call.language, generate, parse);
        && (answer.Success? ==> result == Some(answer.value) && alerts == old(alerts))
        && (answer.Failure? ==> result == old(result) && alerts == old(alerts) + 1)
      ensures textInput == old(textInput) && selectedStandard == old(selectedStandard)
      ensures filePreview == old(filePreview) && isImage == old(isImage)
      ensures copiedNote == old(copiedNote) && clipboard == old(clipboard)
    {
      var call := pending.value;
      var answer := GeminiService.AnalyzeSchedule(service, call.inputData, call.isImage, call.standardId, call.language, generate, parse);
      if answer.Success? {
        result := Some(answer.value);
      } else {
        alerts := alerts + 1;
      }
      isLoading := false;
      pending := None;
    }

    /**
     * `processFile` once the reader has loaded the file: an `image/` type
     * becomes the image input and clears the text; any other file becomes
     * the file input and fills the text area. No file changes nothing.
     */
    method ProcessFile(file: Option<FileData>)
      modifies this
      ensures file.None? ==> textInput == old(textInput) && filePreview == old(filePreview) && isImage == old(isImage)
      ensures file.Some? ==>
        && filePreview == Some(file.value.content)
        && isImage == StartsWith(file.value.mimeType, "image/")
        && textInput == (if isImage then "" else file.value.content)
      ensures selectedStandard == old(selectedStandard) && result == old(result) && isLoading == old(isLoading)
      ensures pending == old(pending) && copiedNote == old(copiedNote) && clipboard == old(clipboard) && alerts == old(alerts)
    {
      if file.None? {
        return;
      }
      if StartsWith(file.value.mimeType, "image/") {
        filePreview := Some(file.value.content);
        isImage := true;
        textInput := "";
      } else {
        filePreview := Some(file.value.content);
        isImage := false;
        textInput := file.value.content;
      }
    }

    /**
     * Typing in the text area: the text changes, and an image is dropped.
     * A loaded text file is kept, and stays the analysis input.
     */
    method TextChange(value: string)
      modifies this
      ensures textInput == value
      ensures old(isImage) ==> filePreview.None? && !isImage
      ensures !old(isImage) ==> filePreview == old(filePreview) && !isImage
      ensures selectedStandard == old(selectedStandard) && result == old(result) && isLoading == old(isLoading)
      ensures pending == old(pending) && copiedNote == old(copiedNote) && clipboard == old(clipboard) && alerts == old(alerts)
    {
      textInput := value;
      if isImage {
        filePreview := None;
        isImage := false;
      }
    }

    /** The remove button on the image preview. */
    method ClearImage()
      requires isImage && Filled(filePreview)
      modifies this
      ensures filePreview.None? && !isImage
      ensures textInput == old(textInput) && selectedStandard == old(selectedStandard) && result == old(result)
      ensures isLoading == old(isLoading) && pending == old(pending) && copiedNote == old(copiedNote)
      ensures clipboard == old(clipboard) && alerts == old(alerts)
    {
      filePreview := None;
      isImage := false;
    }

    /** Choosing one of the planning standards. */
    method SelectStandard(k: nat)
      requires k < |Constants.PlanningStandards|
      modifies this
      ensures selectedStandard == Constants.PlanningStandards[k].id
      ensures textInput == old(textInput) && result == old(result) && isLoading == old(isLoading)
      ensures filePreview == old(filePreview) && isImage == old(isImage) && pending == old(pending)
      ensures copiedNote == old(copiedNote) && clipboard == old(clipboard) && alerts == old(alerts)
    {
      selectedStandard := Constants.PlanningStandards[k].id;
    }

    /** `handleCopyNote`: only a truthy contractor note is copied and acknowledged. */
    method CopyNote()
      modifies this
      ensures var note := GetOpt(old(result), "contractorNote");
        && (Truthy(note) ==> clipboard == old(clipboard) + [note.value] && copiedNote)
        && (!Truthy(note) ==> clipboard == old(clipboard) && copiedNote == old(copiedNote))
      ensures textInput == old(textInput) && selectedStandard == old(selectedStandard) && result == old(result)
      ensures isLoading == old(isLoading) && filePreview == old(filePreview) && isImage == old(isImage)
      ensures pending == old(pending) && alerts == old(alerts)
    {
      var note := GetOpt(result, "contractorNote");
      if Truthy(note) {
        clipboard := clipboard + [note.value];
        copiedNote := true;
      }
    }

    /** The two-second timer after a copy. */
    method CopiedTimerElapsed()
      modifies this
      ensures !copiedNote
      ensures textInput == old(textInput) && selectedStandard == old(selectedStandard) && result == old(result)
      ensures isLoading == old(isLoading) && filePreview == old(filePreview) && isImage == old(isImage)
      ensures pending == old(pending) && clipboard == old(clipboard) && alerts == old(alerts)
    {
      copiedNote := false;
    }
  }

  /**
   * After a text file is loaded, typing changes the text area but not the
   * input an analysis sends: a non-empty file's content keeps priority.
   * The observation rests on three contracts together: `Agent.ProcessFile`
   * stores a text file's content as `filePreview`, `Agent.TextChange` keeps
   * `filePreview` when it is not an image, and `Agent.BeginAnalyze` sends
   * `AnalysisInput(filePreview, textInput)`; this lemma is the last step.
   */
  lemma TypedEditsAfterTextFileIgnored(content: string, typed: string)
    requires content != ""
    ensures AnalysisInput(Some(content), typed) == content
  {
  }
}
