/** The meal-analysis session of the main screen: the selected photo and its
    preview, the analysis in progress and its result or error, and the day's
    diary. Each handler is a function from the current state to the next one;
    the asynchronous analysis is split into a start step, which issues the
    request, and a settle step, applied whenever the request settles. */
module AnalysisSession {
  import opened Types
  import DailySummary

  /** An opaque handle on a file chosen by the user. */
  datatype FileHandle = FileHandle(token: nat)

  datatype AppState = AppState(
    imageFile: Option<FileHandle>,
    previewUrl: Option<string>,
    analysisResult: Option<NutritionInfo>,
    isLoading: bool,
    error: Option<string>,
    dailyDiary: seq<DiaryEntry>)

  /** Error text for a rejection that is not an `Error` object. */
  const UnknownError: string := "An unknown error occurred."

  /** No photo, no preview, no result, no error, nothing loading. */
  predicate Cleared(s: AppState)
  {
    && s.imageFile.None?
    && s.previewUrl.None?
    && s.analysisResult.None?
    && !s.isLoading
    && s.error.None?
  }

  function Initial(): (s: AppState)
    ensures Cleared(s) && s.dailyDiary == []
  {
    AppState(None, None, None, false, None, [])
  }

  /** `handleImageSelect`: `url` is the fresh object URL created for `file`.
      Any earlier result and error are discarded; the loading flag and the
      diary are left as they were. */
  function SelectImage(s: AppState, file: FileHandle, url: string): (t: AppState)
    ensures t.imageFile == Some(file) && t.previewUrl == Some(url)
    ensures t.analysisResult.None? && t.error.None?
    ensures t.isLoading == s.isLoading && t.dailyDiary == s.dailyDiary
  {
    s.(imageFile := Some(file), previewUrl := Some(url), analysisResult := None, error := None)
  }

  /** The state after the synchronous part of `handleAnalyzeClick`, and the
      file sent for analysis, if any. */
  datatype Started = Started(state: AppState, request: Option<FileHandle>)

  /** The start of `handleAnalyzeClick`. Without a photo nothing happens and
      nothing is sent; otherwise the selected photo is sent, the loading flag
      is raised, the error and result are cleared, and the photo, preview and
      diary are kept. The handler does not look at the loading flag. */
  function StartAnalysis(s: AppState): (o: Started)
    ensures s.imageFile.None? ==> o == Started(s, None)
    ensures s.imageFile.Some? ==>
      && o.request == s.imageFile
      && o.state.isLoading
      && o.state.error.None? && o.state.analysisResult.None?
      && o.state.imageFile == s.imageFile && o.state.previewUrl == s.previewUrl
      && o.state.dailyDiary == s.dailyDiary
  {
    match s.imageFile
    case None => Started(s, None)
    case Some(file) =>
      Started(s.(isLoading := true, error := None, analysisResult := None), Some(file))
  }

  /** The rest of `handleAnalyzeClick`, applied to the state current when the
      analysis settles: a result is stored, or a rejection's message (or the
      unknown-error text) is stored; the loading flag drops either way. */
  function FinishAnalysis(s: AppState, outcome: Settled<NutritionInfo>): (t: AppState)
    ensures !t.isLoading
    ensures outcome.Resolved? ==> t.analysisResult == Some(outcome.value) && t.error == s.error
    ensures outcome.Rejected? ==>
      && t.analysisResult == s.analysisResult
      && t.error == Some(CaughtMessage(outcome.reason, UnknownError))
    ensures t.imageFile == s.imageFile && t.previewUrl == s.previewUrl
    ensures t.dailyDiary == s.dailyDiary
  {
    match outcome
    case Resolved(info) => s.(analysisResult := Some(info), isLoading := false)
    case Rejected(reason) => s.(error := Some(CaughtMessage(reason, UnknownError)), isLoading := false)
  }

  /** `resetState`: clears everything but the diary. */
  function Reset(s: AppState): (t: AppState)
    ensures Cleared(t)
    ensures t.dailyDiary == s.dailyDiary
  {
    s.(imageFile := None, previewUrl := None, analysisResult := None, isLoading := false, error := None)
  }

  /** Whether "Add to Daily Diary" does anything: there must be a result and
      a truthy preview URL. */
  predicate CanAddToDiary(s: AppState)
    ensures CanAddToDiary(s) <==>
      s.analysisResult.Some? && s.previewUrl.Some? && s.previewUrl.value != ""
    ensures CanAddToDiary(s) ==> ViewOf(s).card
  {
    s.analysisResult.Some? && Truthy(s.previewUrl)
  }

  /** `handleAddToDiary`, with `id` the timestamp string it creates. Without a
      result and a preview nothing changes. Otherwise the diary grows by one
      entry at the end, carrying the result and the preview URL, the earlier
      entries are kept, and the rest of the state is reset. */
  function AddToDiary(s: AppState, id: string): (t: AppState)
    ensures !CanAddToDiary(s) ==> t == s
    ensures CanAddToDiary(s) ==>
      && Cleared(t)
      && |t.dailyDiary| == |s.dailyDiary| + 1
      && t.dailyDiary[..|s.dailyDiary|] == s.dailyDiary
      && t.dailyDiary[|s.dailyDiary|] == DiaryEntry(s.analysisResult.value, id, s.previewUrl.value)
  {
    if CanAddToDiary(s) then
      var entry := DiaryEntry(s.analysisResult.value, id, s.previewUrl.value);
      Reset(s.(dailyDiary := s.dailyDiary + [entry]))
    else
      s
  }

  /** Committing a meal raises the day's totals by exactly that meal's values. */
  lemma AddToDiaryRaisesTotals(s: AppState, id: string)
    requires CanAddToDiary(s)
    ensures DailySummary.DailyTotals(AddToDiary(s, id).dailyDiary)
         == DailySummary.AddEntry(DailySummary.DailyTotals(s.dailyDiary),
                                  DiaryEntry(s.analysisResult.value, id, s.previewUrl.value))
  {
    var entry := DiaryEntry(s.analysisResult.value, id, s.previewUrl.value);
    assert AddToDiary(s, id).dailyDiary == s.dailyDiary + [entry];
    DailySummary.DailyTotalsAppend(s.dailyDiary, entry);
  }

  /** Which parts of the main screen are rendered. */
  datatype View = View(
    uploader: bool,     // the photo picker
    preview: bool,      // the preview image
    spinner: bool,      // the "Analyzing your meal..." spinner
    actions: bool,      // the "Change Photo" and "Analyze" buttons
    errorBanner: bool,  // the "Analysis Failed" banner
    card: bool,         // the nutrition card
    diary: bool)        // the daily summary and the diary list

  /** The rendering conditions of the main screen. The photo picker shows
      exactly when no photo is held and the diary section exactly when the
      diary is non-empty; the preview shows exactly when a truthy preview URL
      is held and no result yet, with the spinner under it while loading and
      the buttons otherwise, so the preview never shows beside the card. */
  function ViewOf(s: AppState): (v: View)
    ensures v.uploader <==> s.imageFile.None?
    ensures v.diary <==> |s.dailyDiary| > 0
    ensures v.card <==> s.analysisResult.Some?
    ensures v.errorBanner <==> Truthy(s.error)
    ensures v.preview <==> Truthy(s.previewUrl) && s.analysisResult.None?
    ensures !(v.spinner && v.actions)
    ensures (v.spinner || v.actions) <==> v.preview
    ensures v.preview ==> !v.card
    ensures v.spinner <==> v.preview && s.isLoading
  {
    var preview := Truthy(s.previewUrl) && s.analysisResult.None?;
    View(
      s.imageFile.None?,
      preview,
      preview && s.isLoading,
      preview && !s.isLoading,
      Truthy(s.error),
      s.analysisResult.Some?,
      |s.dailyDiary| > 0)
  }

  /** After a reset only the photo picker is shown, with the diary section
      exactly when the diary is non-empty. */
  lemma ViewAfterReset(s: AppState)
    ensures var v := ViewOf(Reset(s));
      && v.uploader && !v.preview && !v.spinner && !v.actions && !v.errorBanner && !v.card
      && (v.diary <==> |s.dailyDiary| > 0)
  {
  }

  /** After a photo is picked the picker is hidden and neither a card nor an
      error banner is shown; with a non-empty URL the preview is shown. */
  lemma ViewAfterSelect(s: AppState, file: FileHandle, url: string)
    ensures var v := ViewOf(SelectImage(s, file, url));
      && !v.uploader && !v.card && !v.errorBanner
      && (v.preview <==> url != "")
  {
  }

  /** Starting an analysis of a previewed photo shows the spinner in place of
      the buttons, and no card or error banner. */
  lemma ViewWhileAnalyzing(s: AppState)
    requires s.imageFile.Some? && Truthy(s.previewUrl)
    ensures var v := ViewOf(StartAnalysis(s).state);
      && v.preview && v.spinner && !v.actions && !v.card && !v.errorBanner
  {
  }

  /** A successful analysis of a started request shows the card, no error and
      no spinner, and a commit is then possible. */
  lemma SuccessAfterStart(s: AppState, info: NutritionInfo)
    requires s.imageFile.Some? && Truthy(s.previewUrl)
    ensures var t := FinishAnalysis(StartAnalysis(s).state, Resolved(info));
      && t.analysisResult == Some(info) && t.error.None? && !t.isLoading
      && CanAddToDiary(t)
      && ViewOf(t).card && !ViewOf(t).spinner && !ViewOf(t).errorBanner
  {
  }

  /** A failed analysis of a started request stores the message with no
      result, and picking a new photo afterwards clears the error. */
  lemma FailureAfterStart(s: AppState, reason: Thrown, file: FileHandle, url: string)
    requires s.imageFile.Some?
    ensures var t := FinishAnalysis(StartAnalysis(s).state, Rejected(reason));
      && t.analysisResult.None? && !t.isLoading
      && t.error == Some(CaughtMessage(reason, UnknownError))
      && !CanAddToDiary(t)
      && SelectImage(t, file, url).error.None?
  {
  }

  /** User actions and async settlements, as they reach the handlers. */
  datatype Event =
    | PickImage(file: FileHandle, url: string)
    | ClickAnalyze
    | AnalysisSettles(outcome: Settled<NutritionInfo>)
    | ClickAddToDiary(id: string)
    | ClickReset

  /** The state plus the number of analysis requests not yet settled. */
  datatype Session = Session(state: AppState, inFlight: nat)

  /** One event. A settlement needs an outstanding request; it is applied to
      whatever the state is at that moment. */
  function Step(ss: Session, ev: Event): Session
  {
    match ev
    case PickImage(file, url) => ss.(state := SelectImage(ss.state, file, url))
    case ClickAnalyze =>
      var o := StartAnalysis(ss.state);
      Session(o.state, if o.request.Some? then ss.inFlight + 1 else ss.inFlight)
    case AnalysisSettles(outcome) =>
      if ss.inFlight == 0 then ss
      else Session(FinishAnalysis(ss.state, outcome), ss.inFlight - 1)
    case ClickAddToDiary(id) => ss.(state := AddToDiary(ss.state, id))
    case ClickReset => ss.(state := Reset(ss.state))
  }

  function Run(ss: Session, evs: seq<Event>): Session
    decreases |evs|
  {
    if evs == [] then ss else Run(Step(ss, evs[0]), evs[1..])
  }

  function CountAdds(evs: seq<Event>): nat
  {
    if evs == [] then 0 else (if evs[0].ClickAddToDiary? then 1 else 0) + CountAdds(evs[1..])
  }

  /** No event removes or reorders a diary entry; only a commit adds one, and
      then exactly one. */
  lemma StepKeepsDiary(ss: Session, ev: Event)
    ensures var d := ss.state.dailyDiary; var d' := Step(ss, ev).state.dailyDiary;
      && d <= d'
      && |d'| <= |d| + (if ev.ClickAddToDiary? then 1 else 0)
  {
  }

  /** Over any sequence of events the diary only grows at the end, by at most
      one entry per commit. */
  lemma {:induction false} RunKeepsDiary(ss: Session, evs: seq<Event>)
    ensures var d := ss.state.dailyDiary; var d' := Run(ss, evs).state.dailyDiary;
      && d <= d'
      && |d'| <= |d| + CountAdds(evs)
    decreases |evs|
  {
    if evs != [] {
      var next := Step(ss, evs[0]);
      StepKeepsDiary(ss, evs[0]);
      RunKeepsDiary(next, evs[1..]);
    }
  }

  lemma RunFour(ss: Session, evs: seq<Event>)
    requires |evs| == 4
    ensures Run(ss, evs) == Step(Step(Step(Step(ss, evs[0]), evs[1]), evs[2]), evs[3])
  {
    var s1 := Step(ss, evs[0]);
    var s2 := Step(s1, evs[1]);
    var s3 := Step(s2, evs[2]);
    var s4 := Step(s3, evs[3]);
    assert Run(s4, evs[1..][1..][1..][1..]) == s4;
    assert Run(s3, evs[1..][1..][1..]) == s4;
    assert Run(s2, evs[1..][1..]) == s4;
    assert Run(s1, evs[1..]) == s4;
  }

  /** The handler itself does not refuse a second click while loading: two
      clicks send two requests. */
  lemma TwoClicksTwoRequests(s: AppState)
    requires s.imageFile.Some?
    ensures Run(Session(s, 0), [ClickAnalyze, ClickAnalyze]).inFlight == 2
  {
    assert [ClickAnalyze, ClickAnalyze][1..] == [ClickAnalyze];
  }

  /** A request that settles after a reset still stores its result: the card
      is then shown beside the photo picker, and committing does nothing since
      the preview is gone. */
  lemma LateResultAfterReset(s: AppState, file: FileHandle, url: string, info: NutritionInfo, id: string)
    ensures var t := Run(Session(s, 0), [PickImage(file, url), ClickAnalyze, ClickReset, AnalysisSettles(Resolved(info))]).state;
      && t.analysisResult == Some(info)
      && ViewOf(t).uploader && ViewOf(t).card
      && AddToDiary(t, id) == t
  {
    var evs := [PickImage(file, url), ClickAnalyze, ClickReset, AnalysisSettles(Resolved(info))];
    RunFour(Session(s, 0), evs);
  }

  /** One meal from photo to diary: the diary gains that meal and the screen
      returns to the photo picker. */
  lemma PhotoToDiary(file: FileHandle, url: string, info: NutritionInfo, id: string)
    requires url != ""
    ensures var t := Run(Session(Initial(), 0),
                         [PickImage(file, url), ClickAnalyze, AnalysisSettles(Resolved(info)), ClickAddToDiary(id)]);
      && t.state.dailyDiary == [DiaryEntry(info, id, url)]
      && Cleared(t.state) && t.inFlight == 0
  {
    var evs := [PickImage(file, url), ClickAnalyze, AnalysisSettles(Resolved(info)), ClickAddToDiary(id)];
    RunFour(Session(Initial(), 0), evs);
  }
}
