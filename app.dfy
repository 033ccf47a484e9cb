/** The top-level state of App.tsx: the input fields, the analysis result,
    the loading flag and the error, with the two actions that start an
    analysis and the choice of what the page shows. The services are
    parameters: `extract` stands for `extractArticleFromUrl` and `analyze`
    for `analyzeArticle` (their behaviour is modelled in GeminiService). */
module App {
  import opened Wrappers
  import opened JsText
  import opened Types

  datatype Page = ToolPage | AboutPage
  datatype InputMode = UrlInput | TextInput

  datatype AppState = AppState(
    view: Page,
    articleText: string,
    articleSource: string,
    selectedSentenceId: Option<string>,
    analysisData: Option<Analysis>,
    isLoading: bool,
    error: Option<string>)

  const Initial := AppState(ToolPage, "", "", None, None, false, None)

  const EXAMPLE_ARTICLE := "Die Regierung wurde für ihre heldenhafte Entscheidung gefeiert. Doch Kritiker warnen vor einer Katastrophe, die das Land in den Abgrund stürzen könnte. Man muss sich fragen, ob die einfachen Bürger wieder die Zeche für die Fehler der Eliten zahlen müssen. Die Zukunft unserer Kinder steht auf dem Spiel! Es ist ein Skandal, der seinesgleichen sucht."
  const EXAMPLE_SOURCE := "https://www.beispiel-zeitung.de/politik/artikel-123"
  const ANALYZE_FALLBACK := "Ein unerwarteter Fehler ist aufgetreten."
  const EXAMPLE_FALLBACK := "Fehler beim Laden des Beispiels."

  /** The message shown for a caught exception. */
  function MessageOf(t: Thrown, fallback: string): string {
    match t
    case Error(m) => m
    case NonError => fallback
  }

  // ------------------------------------------------------------------ handleAnalyze

  /** The guard at the top of `handleAnalyze`. */
  predicate Blank(st: AppState, mode: InputMode) {
    (mode == UrlInput && |Trim(st.articleSource)| == 0) ||
    (mode == TextInput && |Trim(st.articleText)| == 0)
  }

  /** The writes before the first `await`. */
  function Begin(st: AppState): AppState {
    st.(isLoading := true, error := None, analysisData := None, selectedSentenceId := None, view := ToolPage)
  }

  /** The `try`/`catch`/`finally` around one service call. */
  function Settle(st: AppState, r: Result<Analysis>, fallback: string): AppState {
    match r
    case Ok(a) => st.(analysisData := Some(a), isLoading := false)
    case Err(t) => st.(error := Some(MessageOf(t, fallback)), isLoading := false)
  }

  function Analyzed(st: AppState, mode: InputMode,
                    extract: string -> Result<string>, analyze: (string, string) -> Result<Analysis>): AppState
  {
    if Blank(st, mode) then st
    else
      var b := Begin(st);
      var src := Trim(st.articleSource);
      match mode
      case TextInput => Settle(b, analyze(Trim(st.articleText), ""), ANALYZE_FALLBACK)
      case UrlInput =>
        match extract(src)
        case Err(t) => Settle(b, Err(t), ANALYZE_FALLBACK)
        case Ok(text) => Settle(b.(articleText := text), analyze(text, src), ANALYZE_FALLBACK)
  }

  // ------------------------------------------------------------------ handleUseExample

  function ExampleRun(st: AppState, analyze: (string, string) -> Result<Analysis>): AppState {
    var b := st.(articleText := EXAMPLE_ARTICLE, articleSource := EXAMPLE_SOURCE,
                 isLoading := true, error := None, analysisData := None);
    Settle(b, analyze(EXAMPLE_ARTICLE, EXAMPLE_SOURCE), EXAMPLE_FALLBACK)
  }

  // ------------------------------------------------------------------ what is shown

  predicate ShowHero(st: AppState) {
    st.view == ToolPage && st.analysisData.None? && !st.isLoading && !Truthy(st.error)
  }

  datatype Screen = AboutScreen | HeroScreen | ResultsScreen

  function ScreenOf(st: AppState): Screen {
    if st.view == AboutPage then AboutScreen
    else if ShowHero(st) then HeroScreen
    else ResultsScreen
  }

  /** The disabled state of Hero's two buttons. */
  predicate UrlButtonDisabled(isLoading: bool, source: string) {
    isLoading || |Trim(source)| == 0
  }

  predicate TextButtonDisabled(isLoading: bool, text: string) {
    isLoading || |text| < 100
  }

  // ------------------------------------------------------------------ the component

  class AppComponent {
    var view: Page
    var articleText: string
    var articleSource: string
    var selectedSentenceId: Option<string>
    var analysisData: Option<Analysis>
    var isLoading: bool
    var error: Option<string>

    function State(): AppState
      reads this
    {
      AppState(view, articleText, articleSource, selectedSentenceId, analysisData, isLoading, error)
    }

    constructor ()
      ensures State() == Initial
    {
      view := ToolPage;
      articleText := "";
      articleSource := "";
      selectedSentenceId := None;
      analysisData := None;
      isLoading := false;
      error := None;
    }

    method SetView(v: Page)
      modifies this
      ensures State() == old(State()).(view := v)
    {
      view := v;
    }

    method SetSelectedSentenceId(id: Option<string>)
      modifies this
      ensures State() == old(State()).(selectedSentenceId := id)
    {
      selectedSentenceId := id;
    }

    /** The writes before the first `await`. */
    method StartLoading()
      modifies this
      ensures State() == Begin(old(State()))
    {
      isLoading := true;
      error := None;
      analysisData := None;
      selectedSentenceId := None;
      view := ToolPage;
    }

    /** The `catch` and `finally` branches after a service call. */
    method Finish(r: Result<Analysis>, fallback: string)
      modifies this
      ensures State() == Settle(old(State()), r, fallback)
    {
      if r.Ok? {
        analysisData := Some(r.value);
      } else {
        error := Some(MessageOf(r.thrown, fallback));
      }
      isLoading := false;
    }

    method HandleAnalyze(mode: InputMode, extract: string -> Result<string>,
                         analyze: (string, string) -> Result<Analysis>)
      modifies this
      ensures State() == Analyzed(old(State()), mode, extract, analyze)
    {
      ghost var st := State();
      var textToAnalyze := Trim(articleText);
      var sourceToUse := Trim(articleSource);
      if mode == UrlInput && |sourceToUse| == 0 {
        return;
      }
      if mode == TextInput && |textToAnalyze| == 0 {
        return;
      }
      StartLoading();
      if mode == UrlInput {
        var extracted := extract(sourceToUse);
        if extracted.Err? {
          assert Analyzed(st, mode, extract, analyze) == Settle(Begin(st), Err(extracted.thrown), ANALYZE_FALLBACK);
          Finish(Err(extracted.thrown), ANALYZE_FALLBACK);
        } else {
          articleText := extracted.value;
          assert State() == Begin(st).(articleText := extracted.value);
          assert Analyzed(st, mode, extract, analyze) ==
            Settle(Begin(st).(articleText := extracted.value), analyze(extracted.value, sourceToUse), ANALYZE_FALLBACK);
          Finish(analyze(extracted.value, sourceToUse), ANALYZE_FALLBACK);
        }
      } else {
        assert Analyzed(st, mode, extract, analyze) == Settle(Begin(st), analyze(textToAnalyze, ""), ANALYZE_FALLBACK);
        Finish(analyze(textToAnalyze, ""), ANALYZE_FALLBACK);
      }
    }

    method HandleUseExample(analyze: (string, string) -> Result<Analysis>)
      modifies this
      ensures State() == ExampleRun(old(State()), analyze)
    {
      articleText := EXAMPLE_ARTICLE;
      articleSource := EXAMPLE_SOURCE;
      isLoading := true;
      error := None;
      analysisData := None;
      Finish(analyze(EXAMPLE_ARTICLE, EXAMPLE_SOURCE), EXAMPLE_FALLBACK);
    }
  }

  // ------------------------------------------------------------------ properties

  /** A blank input leaves everything as it was; otherwise the earlier
      result, error and sentence selection are gone, the tool page is shown
      and the loading flag is down again, and exactly one of result and
      error is set. */
  lemma AnalyzedSpec(st: AppState, mode: InputMode,
                     extract: string -> Result<string>, analyze: (string, string) -> Result<Analysis>)
    ensures var r := Analyzed(st, mode, extract, analyze);
      (Blank(st, mode) ==> r == st) &&
      (!Blank(st, mode) ==> (r.view == ToolPage && r.selectedSentenceId == None && !r.isLoading &&
        r.articleSource == st.articleSource && (r.analysisData.Some? <==> r.error.None?)))
  {
    if !Blank(st, mode) {
      var src := Trim(st.articleSource);
      if mode == TextInput {
        SettleSpec(Begin(st), analyze(Trim(st.articleText), ""), ANALYZE_FALLBACK);
      } else if extract(src).Err? {
        SettleSpec(Begin(st), Err(extract(src).thrown), ANALYZE_FALLBACK);
      } else {
        SettleSpec(Begin(st).(articleText := extract(src).value), analyze(extract(src).value, src), ANALYZE_FALLBACK);
      }
    }
  }

  /** Settling a cleared state sets exactly one of result and error and
      changes nothing else but the loading flag. */
  lemma SettleSpec(b: AppState, r: Result<Analysis>, fallback: string)
    requires b.analysisData == None && b.error == None
    ensures var s := Settle(b, r, fallback);
      !s.isLoading && (s.analysisData.Some? <==> s.error.None?) &&
      s.(analysisData := None, error := None, isLoading := b.isLoading) == b &&
      (r.Ok? ==> s.analysisData == Some(r.value)) &&
      (r.Err? ==> s.error == Some(MessageOf(r.thrown, fallback)))
  {
  }

  /** Which arguments the analyser gets and what the article text becomes. */
  lemma AnalyzedCalls(st: AppState, mode: InputMode,
                      extract: string -> Result<string>, analyze: (string, string) -> Result<Analysis>)
    requires !Blank(st, mode)
    ensures var r := Analyzed(st, mode, extract, analyze);
      var src := Trim(st.articleSource);
      (mode == TextInput ==> (r.articleText == st.articleText &&
        (r.analysisData.Some? ==> analyze(Trim(st.articleText), "") == Ok(r.analysisData.value)))) &&
      (mode == UrlInput && extract(src).Ok? ==> (r.articleText == extract(src).value &&
        (r.analysisData.Some? ==> analyze(extract(src).value, src) == Ok(r.analysisData.value)))) &&
      (mode == UrlInput && extract(src).Err? ==> (r.articleText == st.articleText && r.analysisData == None &&
        r.error == Some(MessageOf(extract(src).thrown, ANALYZE_FALLBACK))))
  {
    if mode == TextInput {
      AnalyzedText(st, extract, analyze);
    } else {
      AnalyzedUrl(st, extract, analyze);
    }
  }

  lemma AnalyzedText(st: AppState, extract: string -> Result<string>, analyze: (string, string) -> Result<Analysis>)
    requires !Blank(st, TextInput)
    ensures var r := Analyzed(st, TextInput, extract, analyze);
      r.articleText == st.articleText &&
      (r.analysisData.Some? ==> analyze(Trim(st.articleText), "") == Ok(r.analysisData.value))
  {
    var a := analyze(Trim(st.articleText), "");
    assert Analyzed(st, TextInput, extract, analyze) == Settle(Begin(st), a, ANALYZE_FALLBACK);
  }

  lemma AnalyzedUrl(st: AppState, extract: string -> Result<string>, analyze: (string, string) -> Result<Analysis>)
    requires !Blank(st, UrlInput)
    ensures var r := Analyzed(st, UrlInput, extract, analyze);
      var src := Trim(st.articleSource);
      (extract(src).Ok? ==> (r.articleText == extract(src).value &&
        (r.analysisData.Some? ==> analyze(extract(src).value, src) == Ok(r.analysisData.value)))) &&
      (extract(src).Err? ==> (r.articleText == st.articleText && r.analysisData == None &&
        r.error == Some(MessageOf(extract(src).thrown, ANALYZE_FALLBACK))))
  {
    var src := Trim(st.articleSource);
    var e := extract(src);
    if e.Err? {
      assert Analyzed(st, UrlInput, extract, analyze) == Settle(Begin(st), Err(e.thrown), ANALYZE_FALLBACK);
    } else {
      var a := analyze(e.value, src);
      assert Analyzed(st, UrlInput, extract, analyze) == Settle(Begin(st).(articleText := e.value), a, ANALYZE_FALLBACK);
    }
  }

  /** While the services are being awaited the page shows the results area
      (with its loading state), never the hero. */
  lemma BeginShowsResults(st: AppState)
    ensures ScreenOf(Begin(st)) == ResultsScreen
    ensures Begin(st).analysisData == None && Begin(st).selectedSentenceId == None
  {
  }

  /** The example sets the fixed text and source, keeps the page and the
      sentence selection, and ends with exactly one of result and error. */
  lemma ExampleRunSpec(st: AppState, analyze: (string, string) -> Result<Analysis>)
    ensures var r := ExampleRun(st, analyze);
      r.articleText == EXAMPLE_ARTICLE && r.articleSource == EXAMPLE_SOURCE &&
      r.view == st.view && r.selectedSentenceId == st.selectedSentenceId && !r.isLoading &&
      (r.analysisData.Some? <==> r.error.None?) &&
      (r.analysisData.Some? ==> analyze(EXAMPLE_ARTICLE, EXAMPLE_SOURCE) == Ok(r.analysisData.value))
  {
  }

  /** The about page wins; on the tool page the hero is shown exactly when
      there is no result, nothing loads and no error is set. */
  lemma ScreenSpec(st: AppState)
    ensures ScreenOf(st) == AboutScreen <==> st.view == AboutPage
    ensures ScreenOf(st) == HeroScreen <==>
      (st.view == ToolPage && st.analysisData.None? && !st.isLoading && !Truthy(st.error))
  {
  }

  /** A successful analysis always leaves the hero for the results. */
  lemma SuccessShowsResults(st: AppState, mode: InputMode,
                            extract: string -> Result<string>, analyze: (string, string) -> Result<Analysis>)
    requires !Blank(st, mode) && Analyzed(st, mode, extract, analyze).analysisData.Some?
    ensures ScreenOf(Analyzed(st, mode, extract, analyze)) == ResultsScreen
  {
  }

  /** An enabled URL button always starts an analysis. The text button's
      length test does not imply a non-blank text: a text of 100 spaces
      enables it, and the click then does nothing. */
  lemma ButtonGuards(st: AppState)
    ensures !UrlButtonDisabled(st.isLoading, st.articleSource) ==> !Blank(st, UrlInput)
    ensures var spaces := seq(100, _ => ' ');
      !TextButtonDisabled(false, spaces) && Blank(st.(articleText := spaces), TextInput)
  {
    var w := seq(100, _ => ' ');
    assert AllSpace(w);
    TrimStartSkipsSpace(w, "");
    assert w + "" == w;
  }
}
