/** The state of the React front end (`App`): the uploaded image, the selected
    preset id, the results and loading flags, the loading text and the last
    result, with the handlers that set them. Each `useState` setter is modelled
    as an assignment to its field; the DOM reads of `generateMockResults` enter
    as values. Presence is JavaScript truthiness here, so an empty string counts
    as absent. */
module ReactApp {
  import opened Wrappers
  import opened JsValues
  import opened Catalog
  import opened BrowserInput
  import opened MockAnalysis

  const DefaultTimeframe := "M1"
  const NoAILabel := "N/A"

  /** A `string | null` state value as a JavaScript value. */
  function Nullable(s: Option<string>): JSValue {
    match s
    case Some(v) => Str(v)
    case None => Null
  }

  /** `(checked radio)?.value || "M1"`: the checked timeframe, or M1 when no radio
      is checked or its value is empty. */
  function TimeframeOrDefault(checked: Option<string>): (t: string)
    ensures t != ""
    ensures checked.Some? && checked.value != "" ==> t == checked.value
    ensures checked.None? || checked.value == "" ==> t == DefaultTimeframe
  {
    match checked
    case Some(v) => if v != "" then v else DefaultTimeframe
    case None => DefaultTimeframe
  }

  /** `isAutomatic ? label : aiOptions.find(ai => ai.id === selectedAI)?.name ||
      "N/A"`. */
  function AiUsedLabel(isAutomatic: bool, selectedAI: Option<string>): (name: string)
    ensures isAutomatic ==> name == AutomaticLabel
    ensures name != ""
  {
    if isAutomatic then AutomaticLabel
    else
      var found := if selectedAI.Some? then FindById(AIOptions, selectedAI.value) else None;
      match found
      case Some(option) => if option.name != "" then option.name else NoAILabel
      case None => NoAILabel
  }

  /** A manual analysis names the selected preset. */
  lemma AiUsedLabelOfPreset(i: nat)
    requires i < |AIOptions|
    ensures AiUsedLabel(false, Some(AIOptions[i].id)) == AIOptions[i].name
  {
    FindByIdFindsPreset(i);
    NamesNonEmpty();
  }

  /** A manual analysis without a preset, or with an id no preset has, shows N/A. */
  lemma AiUsedLabelWithoutPreset(selectedAI: Option<string>)
    requires selectedAI.Some? ==> forall i :: 0 <= i < |AIOptions| ==> AIOptions[i].id != selectedAI.value
    ensures AiUsedLabel(false, selectedAI) == "N/A"
  {
  }

  /** The simulated result; unlike the plain-JavaScript one it never throws. The
      asset selector may be missing (`None`), which reads as an empty value. */
  function GenerateMockResults(isAutomatic: bool, selectedAI: Option<string>,
                               checkedTimeframe: Option<string>, assetSelect: Option<string>,
                               now: int, r: Randomness): (m: MockResult)
    requires ValidRandomness(r)
    ensures m.aiUsed == AiUsedLabel(isAutomatic, selectedAI)
    ensures m.timeframe == TimeframeOrDefault(checkedTimeframe)
    ensures MinConfidence <= m.confidence <= MaxConfidence
    ensures assetSelect.Some? && assetSelect.value != "" ==> m.asset == assetSelect.value
    ensures assetSelect.None? || assetSelect.value == "" ==> m.asset in Assets
    ensures m.analysisTime == now
    ensures m.entryTime in {now + 120000, now + 180000, now + 240000}
    ensures m.direction == MockTemplates[r.template].direction
    ensures m.reasoning == MockTemplates[r.template].reasoning && m.pattern == MockTemplates[r.template].pattern
  {
    EntryTimesAreTwoToFourMinutes(now, r.delay);
    BuildResult(MockTemplates[r.template], TimeframeOrDefault(checkedTimeframe),
                AssetOrRandom(assetSelect.GetOr(""), r.asset), now,
                AiUsedLabel(isAutomatic, selectedAI), r)
  }

  class AppState {
    var uploadedImage: Option<string>
    var selectedAI: Option<string>
    var showResults: bool
    var isLoading: bool
    var loadingText: string
    var analysisResult: Option<MockResult>
    /** Every value `setLoadingText` has been given, in order. */
    ghost var shownTexts: seq<string>

    /** The initial state of every `useState`. */
    constructor()
      ensures uploadedImage == None && selectedAI == None
      ensures !showResults && !isLoading && analysisResult == None
      ensures loadingText == LoadingMessages[0] && shownTexts == []
    {
      uploadedImage := None;
      selectedAI := None;
      showResults := false;
      isLoading := false;
      loadingText := LoadingMessages[0];
      analysisResult := None;
      shownTexts := [];
    }

    /** `disabled={!uploadedImage || !selectedAI}`. */
    function AnalyzeDisabled(): (d: bool)
      reads this
      ensures !d <==> uploadedImage.Some? && uploadedImage.value != "" && selectedAI.Some? && selectedAI.value != ""
    {
      !Truthy(Nullable(uploadedImage)) || !Truthy(Nullable(selectedAI))
    }

    /** `disabled={!uploadedImage}`. */
    function AutoDisabled(): (d: bool)
      reads this
      ensures !d <==> uploadedImage.Some? && uploadedImage.value != ""
    {
      !Truthy(Nullable(uploadedImage))
    }

    /** The upload filter: only a file whose type starts with "image/" is read,
        anything else gets an alert; no state changes (no `modifies` clause). */
    method HandleFileSelect(file: Option<FileInfo>) returns (outcome: FileOutcome)
      ensures outcome == ReadStarted <==> IsImageFile(file)
      ensures outcome != Ignored
    {
      if !IsImageFile(file) {
        return Alerted;
      }
      return ReadStarted;
    }

    /** The reader's `onload` stores the data URL. */
    method OnReaderLoad(dataUrl: string)
      modifies this
      ensures uploadedImage == Some(dataUrl)
      ensures selectedAI == old(selectedAI) && showResults == old(showResults) && isLoading == old(isLoading)
      ensures loadingText == old(loadingText) && analysisResult == old(analysisResult) && shownTexts == old(shownTexts)
    {
      uploadedImage := Some(dataUrl);
    }

    method RemoveImage()
      modifies this
      ensures uploadedImage == None && AnalyzeDisabled() && AutoDisabled()
      ensures selectedAI == old(selectedAI) && showResults == old(showResults) && isLoading == old(isLoading)
      ensures loadingText == old(loadingText) && analysisResult == old(analysisResult) && shownTexts == old(shownTexts)
    {
      uploadedImage := None;
    }

    method SelectAI(aiId: string)
      modifies this
      ensures selectedAI == Some(aiId)
      ensures uploadedImage == old(uploadedImage) && showResults == old(showResults) && isLoading == old(isLoading)
      ensures loadingText == old(loadingText) && analysisResult == old(analysisResult) && shownTexts == old(shownTexts)
    {
      selectedAI := Some(aiId);
    }

    /** The paste listener hands on at most one item: the first whose type is an
        image type and that yields a file; an image item without a file is
        skipped. A paste without clipboard data does nothing. */
    method OnPaste(clipboard: Option<seq<ClipboardItem>>) returns (handed: Option<nat>, outcome: FileOutcome)
      ensures handed.None? ==> outcome == Ignored
      ensures handed.Some? ==> clipboard.Some? && handed.value < |clipboard.value|
      ensures clipboard.Some? ==> var items := clipboard.value;
        && (handed.None? <==> forall j :: 0 <= j < |items| ==> !(IsImageType(items[j].itemType) && items[j].file.Some?))
        && (handed.Some? ==>
              && IsImageType(items[handed.value].itemType) && items[handed.value].file.Some?
              && (forall j :: 0 <= j < handed.value ==> !(IsImageType(items[j].itemType) && items[j].file.Some?))
              && (outcome == ReadStarted <==> IsImageType(items[handed.value].file.value.mimeType)))
    {
      handed := None;
      outcome := Ignored;
      if clipboard.None? {
        return;
      }
      var items := clipboard.value;
      for i := 0 to |items|
        invariant forall j :: 0 <= j < i ==> !(IsImageType(items[j].itemType) && items[j].file.Some?)
      {
        if IsImageType(items[i].itemType) {
          var file := items[i].file;
          if file.Some? {
            handed := Some(i);
            outcome := HandleFileSelect(file);
            return;
          }
        }
      }
    }

    /** What `performAnalysis` does before it awaits: show the overlay, hide the
        previous results and reset the loading text. */
    method BeginAnalysis()
      modifies this
      ensures isLoading && !showResults && loadingText == LoadingMessages[0]
      ensures shownTexts == old(shownTexts) + [LoadingMessages[0]]
      ensures uploadedImage == old(uploadedImage) && selectedAI == old(selectedAI)
      ensures analysisResult == old(analysisResult)
    {
      isLoading := true;
      showResults := false;
      loadingText := LoadingMessages[0];
      shownTexts := shownTexts + [LoadingMessages[0]];
    }

    /** `simulateAnalysis`: each loading message in turn (the 800 ms pauses are not
        modelled), touching nothing else. */
    method SimulateAnalysis()
      modifies this
      ensures shownTexts == old(shownTexts) + LoadingMessages
      ensures loadingText == LoadingMessages[|LoadingMessages| - 1]
      ensures uploadedImage == old(uploadedImage) && selectedAI == old(selectedAI)
      ensures isLoading == old(isLoading) && showResults == old(showResults)
      ensures analysisResult == old(analysisResult)
    {
      var messages := LoadingMessages;
      for i := 0 to |messages|
        invariant shownTexts == old(shownTexts) + messages[..i]
        invariant i > 0 ==> loadingText == messages[i - 1]
        invariant uploadedImage == old(uploadedImage) && selectedAI == old(selectedAI)
        invariant isLoading == old(isLoading) && showResults == old(showResults)
        invariant analysisResult == old(analysisResult)
      {
        loadingText := messages[i];
        shownTexts := shownTexts + [messages[i]];
      }
      assert messages[..|messages|] == messages;
    }

    /** What `performAnalysis` does after the wait: store the result, hide the
        overlay and show the results. */
    method FinishAnalysis(results: MockResult)
      modifies this
      ensures analysisResult == Some(results) && !isLoading && showResults
      ensures uploadedImage == old(uploadedImage) && selectedAI == old(selectedAI)
      ensures loadingText == old(loadingText) && shownTexts == old(shownTexts)
    {
      analysisResult := Some(results);
      isLoading := false;
      showResults := true;
    }

    /** `performAnalysis`: the overlay shows and the old results hide before the
        wait, every loading message is shown during it, and the run ends with the
        new result stored, the overlay hidden and the results shown. The
        generator reads the preset selected when the analysis started. */
    method PerformAnalysis(isAutomatic: bool, checkedTimeframe: Option<string>,
                           assetSelect: Option<string>, now: int, r: Randomness)
      requires ValidRandomness(r)
      modifies this
      ensures analysisResult == Some(GenerateMockResults(isAutomatic, old(selectedAI), checkedTimeframe, assetSelect, now, r))
      ensures !isLoading && showResults
      ensures shownTexts == old(shownTexts) + [LoadingMessages[0]] + LoadingMessages
      ensures loadingText == LoadingMessages[|LoadingMessages| - 1]
      ensures uploadedImage == old(uploadedImage) && selectedAI == old(selectedAI)
    {
      var selected := selectedAI;
      BeginAnalysis();
      SimulateAnalysis();
      var results := GenerateMockResults(isAutomatic, selected, checkedTimeframe, assetSelect, now, r);
      FinishAnalysis(results);
    }
  }

  /** The automatic button is enabled whenever the analyze button is. */
  lemma AutoEnabledWhenAnalyzeEnabled(s: AppState)
    ensures !s.AnalyzeDisabled() ==> !s.AutoDisabled()
  {
  }
}
