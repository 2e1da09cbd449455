/** The top-level component (src/App.tsx): which screen is shown, the
    analysis on display and the session counter that picks the prompt. */
module App {
  import opened Types
  import MockData
  import InputView

  /** The three state cells. */
  datatype Session = Session(view: ViewState, analysis: Option<EmotionAnalysis>, sessionCount: nat)

  /** What the component renders; `Blank` is its final `return null`. */
  datatype Screen =
    | DevNoticeScreen
    | InputScreen(questionText: Option<string>)
    | AnalyzingScreen
    | ResultsScreen(analysis: EmotionAnalysis)
    | Blank

  /** The state at mount: the notice first when demo notices are enabled. */
  function Initial(showDemoNotices: bool): (r: Session)
    ensures Valid(r) && r.analysis == None && r.sessionCount == 0
    ensures r.view == DevNotice <==> showDemoNotices
    ensures r.view == DevNotice || r.view == Input
  {
    Session(if showDemoNotices then DevNotice else Input, None, 0)
  }

  /** `Math.min(sessionCount, QUESTION_TEXTS.length - 1)`; it is -1 for an
      empty list. */
  function PromptIndex(sessionCount: nat, count: nat): (i: int)
    ensures count > 0 ==> 0 <= i < count && i <= sessionCount
    ensures count == 0 ==> i == -1
    ensures i == sessionCount || i == count - 1
  {
    if sessionCount < count - 1 then sessionCount else count - 1
  }

  /** The prompt for a session: entry `sessionCount` while there is one, the
      last entry from then on, and nothing (`undefined`) for an empty list. */
  function PromptFor(texts: seq<string>, sessionCount: nat): (q: Option<string>)
    ensures q.Some? <==> texts != []
    ensures sessionCount < |texts| ==> q == Some(texts[sessionCount])
    ensures texts != [] && sessionCount >= |texts| ==> q == Some(texts[|texts| - 1])
  {
    var i := PromptIndex(sessionCount, |texts|);
    if 0 <= i < |texts| then Some(texts[i]) else None
  }

  /** The clamped index never moves backwards as the counter grows, and it
      stops moving once it reaches the last entry. */
  lemma PromptIndexMonotone(sessionCount: nat, later: nat, count: nat)
    requires sessionCount <= later
    ensures PromptIndex(sessionCount, count) <= PromptIndex(later, count)
    ensures PromptIndex(sessionCount, count) == count - 1 ==> PromptIndex(later, count) == count - 1
  {
  }

  /** Once the counter reaches the last entry the prompt stays there, however
      often the counter is incremented. */
  lemma PromptFixedBeyondBound(texts: seq<string>, sessionCount: nat, k: nat)
    requires texts != [] && sessionCount >= |texts| - 1
    ensures PromptFor(texts, sessionCount + k) == PromptFor(texts, sessionCount)
                                              == Some(texts[|texts| - 1])
  {
  }

  // ---------------------------------------------------------------------------
  // The handlers, as functions of the session
  // ---------------------------------------------------------------------------

  /** `handleProceedFromDevNotice`. */
  function ProceedFromDevNotice(s: Session): (r: Session)
    ensures r.view == Input && r.sessionCount == s.sessionCount
    ensures Valid(s) && s.view == DevNotice ==> Valid(r) && r.analysis == None
  {
    s.(view := Input)
  }

  /** `handleInputProceed`: the submitted text itself is not kept. */
  function InputProceed(s: Session): (r: Session)
    ensures r.view == Analyzing && r.sessionCount == s.sessionCount
    ensures Valid(s) && s.view == Input ==> Valid(r) && r.analysis == None
  {
    s.(view := Analyzing)
  }

  /** `handleAnalysisComplete`, with the value `Math.random()` returned. */
  function AnalysisComplete(s: Session, r: MockData.Random): (s': Session)
    ensures Valid(s') && s'.view == Results && s'.sessionCount == s.sessionCount
    ensures s'.analysis.Some? && s'.analysis.value in MockData.Emotions
  {
    s.(view := Results, analysis := Some(MockData.GenerateMockAnalysis(r)))
  }

  /** `handleStartOver`. */
  function StartOver(s: Session): (r: Session)
    ensures Valid(r) && r.view == Input && r.analysis == None
    ensures r.sessionCount == s.sessionCount + 1
  {
    Session(Input, None, s.sessionCount + 1)
  }

  /** `handleClose`. */
  function Close(s: Session): (r: Session)
    ensures Valid(r) && r.view == Input && r.analysis == None && r.sessionCount == 0
    ensures r == Initial(false)
  {
    Session(Input, None, 0)
  }

  /** The intents the screens emit. Each handler is given only to the screen
      that emits it: the notice's Proceed, the input screen's Continue (with
      the typed text), the analyzing timeout (with the random value), and the
      results screen's Start over and Close. */
  datatype Event =
    | NoticeProceed
    | InputSubmitted(text: string)
    | AnalysisTimerFired(r: MockData.Random)
    | StartOverClicked
    | CloseClicked

  /** Whether the screen rendered for `s` can emit `e`; the input screen
      emits only when its gate is open. */
  predicate Wired(s: Session, e: Event)
    ensures Wired(s, e) && Valid(s) ==> Valid(Handle(s, e))
    ensures e.InputSubmitted? && Wired(s, e) ==> InputView.CanProceed(e.text)
  {
    match e
    case NoticeProceed => s.view == DevNotice
    case InputSubmitted(text) => s.view == Input && InputView.CanProceed(text)
    case AnalysisTimerFired(_) => s.view == Analyzing
    case StartOverClicked => s.view == Results && s.analysis.Some?
    case CloseClicked => s.view == Results && s.analysis.Some?
  }

  /** The handler an intent runs. */
  function Handle(s: Session, e: Event): Session {
    match e
    case NoticeProceed => ProceedFromDevNotice(s)
    case InputSubmitted(_) => InputProceed(s)
    case AnalysisTimerFired(r) => AnalysisComplete(s, r)
    case StartOverClicked => StartOver(s)
    case CloseClicked => Close(s)
  }

  /** An intent that no rendered screen can emit changes nothing. */
  function Step(s: Session, e: Event): Session {
    if Wired(s, e) then Handle(s, e) else s
  }

  function Run(s: Session, es: seq<Event>): Session
    decreases |es|
  {
    if es == [] then s else Run(Step(s, es[0]), es[1..])
  }

  /** The render function (src/App.tsx:43-65). */
  function Render(s: Session, texts: seq<string>): (sc: Screen)
    ensures sc == DevNoticeScreen <==> s.view.DevNotice?
    ensures sc == AnalyzingScreen <==> s.view.Analyzing?
    ensures sc.ResultsScreen? <==> s.view.Results? && s.analysis.Some?
    ensures sc == Blank <==> s.view.Results? && s.analysis.None?
    ensures sc.InputScreen? <==> s.view == Input
    ensures sc.InputScreen? ==> sc.questionText == PromptFor(texts, s.sessionCount)
    ensures sc.ResultsScreen? ==> s.view.Results? && s.analysis == Some(sc.analysis)
  {
    if s.view == DevNotice then DevNoticeScreen
    else if s.view == Input then InputScreen(PromptFor(texts, s.sessionCount))
    else if s.view == Analyzing then AnalyzingScreen
    else if s.analysis.Some? then ResultsScreen(s.analysis.value)
    else Blank
  }

  /** Each intent is wired only while the screen that emits it is the one
      rendered. */
  lemma WiredOnlyFromItsScreen(s: Session, e: Event, texts: seq<string>)
    requires Wired(s, e)
    ensures e.NoticeProceed? ==> Render(s, texts) == DevNoticeScreen
    ensures e.InputSubmitted? ==> Render(s, texts).InputScreen?
    ensures e.AnalysisTimerFired? ==> Render(s, texts) == AnalyzingScreen
    ensures e.StartOverClicked? || e.CloseClicked? ==> Render(s, texts).ResultsScreen?
  {
  }

  /** The session invariant: an analysis is present exactly on the results
      screen, and it is a record of the pool. */
  predicate Valid(s: Session) {
    (s.analysis.Some? <==> s.view == Results)
    && (s.analysis.Some? ==> s.analysis.value in MockData.Emotions)
  }

  /** On a valid session the component never falls through to `null`. */
  lemma ValidNeverBlank(s: Session, texts: seq<string>)
    requires Valid(s)
    ensures Render(s, texts) != Blank
  {
  }

  /** The first screen at mount: the notice when demo notices are on, and
      otherwise the input screen with the first prompt. */
  lemma InitialScreen(showDemoNotices: bool, texts: seq<string>)
    ensures Render(Initial(showDemoNotices), texts)
            == if showDemoNotices then DevNoticeScreen else InputScreen(PromptFor(texts, 0))
    ensures !showDemoNotices && texts != [] ==> Render(Initial(false), texts) == InputScreen(Some(texts[0]))
  {
  }

  /** Every intent a rendered screen can emit keeps the invariant. */
  lemma StepPreservesValid(s: Session, e: Event)
    requires Valid(s)
    ensures Valid(Step(s, e))
  {
  }

  /** Every session reachable from mount is valid, so it renders a screen. */
  lemma {:induction false} RunPreservesValid(s: Session, es: seq<Event>)
    requires Valid(s)
    ensures Valid(Run(s, es))
    decreases |es|
  {
    if es != [] {
      StepPreservesValid(s, es[0]);
      RunPreservesValid(Step(s, es[0]), es[1..]);
    }
  }

  lemma ReachableRendersScreen(showDemoNotices: bool, texts: seq<string>, es: seq<Event>)
    ensures Valid(Run(Initial(showDemoNotices), es))
    ensures Render(Run(Initial(showDemoNotices), es), texts) != Blank
  {
    RunPreservesValid(Initial(showDemoNotices), es);
  }

  /** Continue moves the input screen to analyzing exactly when the trimmed
      text is longer than ten UTF-16 code units; otherwise nothing changes. */
  lemma SubmitGate(s: Session, text: string)
    requires s.view == Input
    ensures Step(s, InputSubmitted(text)).view == Analyzing <==> InputView.CanProceed(text)
    ensures !InputView.CanProceed(text) ==> Step(s, InputSubmitted(text)) == s
    ensures Step(s, InputSubmitted(text)).analysis == s.analysis
    ensures Step(s, InputSubmitted(text)).sessionCount == s.sessionCount
  {
  }

  /** Close resets the counter whatever it was: start over then close ends at
      zero, and closing twice is closing once. */
  lemma CloseResets(s: Session)
    ensures Close(StartOver(s)) == Session(Input, None, 0)
    ensures Close(Close(s)) == Close(s)
  {
  }

  /** The counter changes only by start over (one up) and close (back to 0). */
  lemma CounterEvolution(s: Session, e: Event)
    ensures Step(s, e).sessionCount == s.sessionCount
            || (e.StartOverClicked? && Step(s, e).sessionCount == s.sessionCount + 1)
            || (e.CloseClicked? && Step(s, e).sessionCount == 0)
  {
  }

  /** The walk through the demo with notices on: Proceed, a feeling that
      passes the gate, the analysis timeout; the results screen then shows a
      pool record, and Close returns to the input screen with the counter at
      0. */
  lemma Walkthrough(text: string, r: MockData.Random)
    requires InputView.CanProceed(text)
    ensures var s := Run(Initial(true), [NoticeProceed, InputSubmitted(text), AnalysisTimerFired(r)]);
            s.view == Results && s.analysis.Some? && s.analysis.value in MockData.Emotions
    ensures Run(Initial(true), [NoticeProceed, InputSubmitted(text), AnalysisTimerFired(r), CloseClicked])
            == Session(Input, None, 0)
  {
    var s0 := Initial(true);
    var s1 := Session(Input, None, 0);
    var s2 := Session(Analyzing, None, 0);
    var s3 := Session(Results, Some(MockData.GenerateMockAnalysis(r)), 0);
    assert Step(s0, NoticeProceed) == s1;
    assert Step(s1, InputSubmitted(text)) == s2;
    assert Step(s2, AnalysisTimerFired(r)) == s3;
    assert Step(s3, CloseClicked) == s1;
    RunCons(s2, AnalysisTimerFired(r), []);
    RunCons(s1, InputSubmitted(text), [AnalysisTimerFired(r)]);
    RunCons(s0, NoticeProceed, [InputSubmitted(text), AnalysisTimerFired(r)]);
    RunCons(s3, CloseClicked, []);
    RunCons(s2, AnalysisTimerFired(r), [CloseClicked]);
    RunCons(s1, InputSubmitted(text), [AnalysisTimerFired(r), CloseClicked]);
    RunCons(s0, NoticeProceed, [InputSubmitted(text), AnalysisTimerFired(r), CloseClicked]);
  }

  /** The same walk with a concrete 25-character feeling. */
  lemma DemoWalkthrough(r: MockData.Random)
    ensures var s := Run(Initial(true), [NoticeProceed, InputSubmitted("I feel kind of lost today"),
                                         AnalysisTimerFired(r)]);
            s.view == Results && s.analysis.Some? && s.analysis.value in MockData.Emotions
    ensures Run(Initial(true), [NoticeProceed, InputSubmitted("I feel kind of lost today"),
                               AnalysisTimerFired(r), CloseClicked]) == Session(Input, None, 0)
  {
    InputView.LongFeelingPasses();
    Walkthrough("I feel kind of lost today", r);
  }

  /** Running a sequence runs its first intent, then the rest. */
  lemma RunCons(s: Session, e: Event, es: seq<Event>)
    ensures Run(s, [e] + es) == Run(Step(s, e), es)
  {
    assert ([e] + es)[1..] == es;
  }

  // ---------------------------------------------------------------------------
  // The component's state cells
  // ---------------------------------------------------------------------------

  /** The mounted component. `SHOW_DEMO_NOTICES` and `QUESTION_TEXTS` come
      from a configuration module and are fixed for its lifetime. */
  class App {
    const showDemoNotices: bool
    const questionTexts: seq<string>
    var viewState: ViewState
    var analysis: Option<EmotionAnalysis>
    var sessionCount: nat

    function State(): Session
      reads this
    {
      Session(viewState, analysis, sessionCount)
    }

    constructor (showDemoNotices: bool, questionTexts: seq<string>)
      ensures this.showDemoNotices == showDemoNotices && this.questionTexts == questionTexts
      ensures viewState == (if showDemoNotices then DevNotice else Input)
      ensures analysis == None && sessionCount == 0
      ensures State() == Initial(showDemoNotices) && Valid(State())
    {
      this.showDemoNotices := showDemoNotices;
      this.questionTexts := questionTexts;
      viewState := if showDemoNotices then DevNotice else Input;
      analysis := None;
      sessionCount := 0;
    }

    /** The prompt handed to the input screen. */
    function QuestionText(): (q: Option<string>)
      reads this
      ensures q.Some? <==> questionTexts != []
      ensures q.Some? ==> q.value in questionTexts
    {
      PromptFor(questionTexts, sessionCount)
    }

    method HandleProceedFromDevNotice()
      modifies this
      ensures viewState == Input && analysis == old(analysis) && sessionCount == old(sessionCount)
      ensures State() == ProceedFromDevNotice(old(State()))
      ensures old(Valid(State())) && old(viewState) == DevNotice ==> Valid(State())
    {
      viewState := Input;
    }

    method HandleInputProceed()
      modifies this
      ensures viewState == Analyzing && analysis == old(analysis) && sessionCount == old(sessionCount)
      ensures State() == InputProceed(old(State()))
      ensures old(Valid(State())) && old(viewState) == Input ==> Valid(State())
    {
      viewState := Analyzing;
    }

    method HandleAnalysisComplete(r: MockData.Random)
      modifies this
      ensures viewState == Results && sessionCount == old(sessionCount)
      ensures analysis.Some? && analysis.value in MockData.Emotions
      ensures analysis == Some(MockData.GenerateMockAnalysis(r))
      ensures State() == AnalysisComplete(old(State()), r) && Valid(State())
    {
      var mockAnalysis := MockData.GenerateMockAnalysis(r);
      analysis := Some(mockAnalysis);
      viewState := Results;
    }

    method HandleStartOver()
      modifies this
      ensures viewState == Input && analysis == None && sessionCount == old(sessionCount) + 1
      ensures State() == StartOver(old(State())) && Valid(State())
    {
      viewState := Input;
      analysis := None;
      sessionCount := sessionCount + 1;
    }

    method HandleClose()
      modifies this
      ensures viewState == Input && analysis == None && sessionCount == 0
      ensures State() == Close(old(State())) && Valid(State())
    {
      viewState := Input;
      analysis := None;
      sessionCount := 0;
    }
  }
}
