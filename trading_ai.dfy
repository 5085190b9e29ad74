/** The `TradingAI` controller of the plain-JavaScript front end: the selected
    preset and the uploaded image, the two analysis buttons recomputed from them,
    the upload filters (picker, drop, paste) and the simulated result. The DOM
    enters only as values: the button states the markup starts with, the checked
    timeframe radio and the asset selector's value. */
module TradingAIApp {
  import opened Wrappers
  import opened JsValues
  import opened Catalog
  import opened BrowserInput
  import opened MockAnalysis

  class TradingAI {
    /** `null` until a preset is clicked. */
    var selectedAI: Option<AIOption>
    /** The data URL read from the last accepted file; `null` after removal. */
    var uploadedImage: Option<string>
    /** The `disabled` flags of the analyze and automatic-analyze buttons. */
    var analyzeDisabled: bool
    var autoDisabled: bool

    /** The buttons show what `updateAnalysisButtons` computes from the fields:
        the analyze button needs an image and a preset, the automatic one an
        image. Presence is `!== null`, so an empty data URL counts. */
    predicate ButtonsCurrent()
      reads this
    {
      && analyzeDisabled == (uploadedImage.None? || selectedAI.None?)
      && autoDisabled == uploadedImage.None?
    }

    /** The constructor sets both fields to `null` and leaves the buttons as the
        markup made them. */
    constructor(analyzeInitiallyDisabled: bool, autoInitiallyDisabled: bool)
      ensures selectedAI == None && uploadedImage == None
      ensures analyzeDisabled == analyzeInitiallyDisabled && autoDisabled == autoInitiallyDisabled
    {
      selectedAI := None;
      uploadedImage := None;
      analyzeDisabled := analyzeInitiallyDisabled;
      autoDisabled := autoInitiallyDisabled;
    }

    method UpdateAnalysisButtons()
      modifies this
      ensures selectedAI == old(selectedAI) && uploadedImage == old(uploadedImage)
      ensures ButtonsCurrent()
    {
      var hasImage := uploadedImage.Some?;
      var hasSelectedAI := selectedAI.Some?;
      analyzeDisabled := !hasImage || !hasSelectedAI;
      autoDisabled := !hasImage;
    }

    /** Clicking a preset selects it and refreshes the buttons. */
    method SelectAI(ai: AIOption)
      modifies this
      ensures selectedAI == Some(ai) && uploadedImage == old(uploadedImage)
      ensures ButtonsCurrent() && (uploadedImage.Some? ==> !analyzeDisabled)
    {
      selectedAI := Some(ai);
      UpdateAnalysisButtons();
    }

    /** The upload filter: only a file whose type starts with "image/" is read;
        anything else, or no file, gets an alert. It changes no field either way
        (it has no `modifies` clause): the image arrives later, in
        `OnReaderLoad`. */
    method HandleFileSelect(file: Option<FileInfo>) returns (outcome: FileOutcome)
      ensures outcome == ReadStarted <==> IsImageFile(file)
      ensures outcome != Ignored
    {
      if file.None? || !IsImageType(file.value.mimeType) {
        return Alerted;
      }
      return ReadStarted;
    }

    /** The reader's `onload`: the data URL becomes the image and the buttons are
        refreshed. */
    method OnReaderLoad(dataUrl: string)
      modifies this
      ensures uploadedImage == Some(dataUrl) && selectedAI == old(selectedAI)
      ensures ButtonsCurrent() && !autoDisabled
    {
      uploadedImage := Some(dataUrl);
      UpdateAnalysisButtons();
    }

    /** Removing the image keeps the selected preset and disables both buttons. */
    method RemoveImage()
      modifies this
      ensures uploadedImage == None && selectedAI == old(selectedAI)
      ensures ButtonsCurrent() && analyzeDisabled && autoDisabled
    {
      uploadedImage := None;
      UpdateAnalysisButtons();
    }

    /** The file picker's `change` event hands on its first file, or `undefined`. */
    method OnFileInputChange(files: seq<FileInfo>) returns (outcome: FileOutcome)
      ensures outcome == ReadStarted <==> |files| > 0 && IsImageType(files[0].mimeType)
      ensures outcome != Ignored
    {
      outcome := HandleFileSelect(FirstFile(files));
    }

    /** A drop filters its first file before handing it on, so a non-image is
        ignored without an alert. */
    method OnDrop(files: seq<FileInfo>) returns (outcome: FileOutcome)
      ensures outcome == ReadStarted <==> |files| > 0 && IsImageType(files[0].mimeType)
      ensures outcome != Alerted
    {
      var file := FirstFile(files);
      if IsImageFile(file) {
        outcome := HandleFileSelect(file);
      } else {
        outcome := Ignored;
      }
    }

    /** A paste hands on at most one item, the first whose type is an image type,
        even when that item yields no file (which then gets an alert). */
    method OnPaste(items: seq<ClipboardItem>) returns (handed: Option<nat>, outcome: FileOutcome)
      ensures handed.None? ==> outcome == Ignored
      ensures handed.None? <==> forall j :: 0 <= j < |items| ==> !IsImageType(items[j].itemType)
      ensures handed.Some? ==>
        && handed.value < |items| && IsImageType(items[handed.value].itemType)
        && (forall j :: 0 <= j < handed.value ==> !IsImageType(items[j].itemType))
        && (outcome == ReadStarted <==> IsImageFile(items[handed.value].file))
        && outcome != Ignored
    {
      var i := 0;
      while i < |items|
        invariant 0 <= i <= |items|
        invariant forall j :: 0 <= j < i ==> !IsImageType(items[j].itemType)
      {
        if IsImageType(items[i].itemType) {
          handed := Some(i);
          outcome := HandleFileSelect(items[i].file);
          return;
        }
        i := i + 1;
      }
      handed := None;
      outcome := Ignored;
    }

    /** The simulated result. Reading `.value` of the checked timeframe radio
        throws when none is checked, and so does reading the name of a preset
        that was never selected, unless the analysis is automatic. */
    function GenerateMockResults(isAutomatic: bool, checkedTimeframe: Option<string>,
                                 selectedAsset: string, now: int, r: Randomness): (c: Completion<MockResult>)
      reads this
      requires ValidRandomness(r)
      ensures c.Normal? <==> checkedTimeframe.Some? && (isAutomatic || selectedAI.Some?)
      ensures c.Normal? ==>
        && c.value.aiUsed == (if isAutomatic then AutomaticLabel else selectedAI.value.name)
        && c.value.timeframe == checkedTimeframe.value
        && MinConfidence <= c.value.confidence <= MaxConfidence
        && (selectedAsset != "" ==> c.value.asset == selectedAsset)
        && (selectedAsset == "" ==> c.value.asset in Assets)
        && c.value.analysisTime == now
        && c.value.entryTime in {now + 120000, now + 180000, now + 240000}
        && c.value.direction == MockTemplates[r.template].direction
        && c.value.reasoning == MockTemplates[r.template].reasoning
        && c.value.pattern == MockTemplates[r.template].pattern
    {
      if checkedTimeframe.None? then Throw
      else if !isAutomatic && selectedAI.None? then Throw
      else
        var aiUsed := if isAutomatic then AutomaticLabel else selectedAI.value.name;
        EntryTimesAreTwoToFourMinutes(now, r.delay);
        Normal(BuildResult(MockTemplates[r.template], checkedTimeframe.value,
                           AssetOrRandom(selectedAsset, r.asset), now, aiUsed, r))
    }
  }

  /** Whenever the buttons are current, an enabled analyze button means a preset
      is selected, so generating a manual result does not throw once a
      timeframe is checked; and the automatic button is enabled whenever the
      analyze button is. */
  lemma EnabledButtonsCanGenerate(t: TradingAI, timeframe: string, asset: string, now: int, r: Randomness)
    requires t.ButtonsCurrent() && ValidRandomness(r)
    ensures !t.analyzeDisabled ==> t.GenerateMockResults(false, Some(timeframe), asset, now, r).Normal?
    ensures !t.analyzeDisabled ==> !t.autoDisabled
  {
  }
}
