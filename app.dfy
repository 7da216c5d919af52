/**
 * The application shell (App.tsx): choosing the input (a PDF file or pasted
 * text), entering the dashboard, generating each study module once and
 * keeping the result, and starting a new session.
 *
 * generateModule is asynchronous: it starts a request and later stores its
 * result or reports its failure.  Here it is split into BeginGenerate and
 * CompleteGenerate / FailGenerate, and `pending` holds the requests started
 * and not yet settled.  The requests themselves go to the generation service,
 * which is not part of this model: a result is an argument of CompleteGenerate.
 */
module App {
  import opened Wrappers
  import opened Text
  import opened StudyTypes

  const PdfMimeType: string := "application/pdf"
  const NotPdfMessage: string := "Please upload a PDF file."

  datatype InputType = FileInput | TextInput

  /** `data` is `split(',')[1]` of the data URL; None stands for JavaScript's undefined. */
  datatype SelectedFile = SelectedFile(name: string, data: Option<string>, mimeType: string)

  /** A generated module, as the generation service returns it for its tab. */
  datatype ModuleResult =
    | SummaryResult(items: seq<string>)
    | FlashcardsResult(cards: seq<Flashcard>)
    | QuizResult(questions: seq<QuizQuestion>)

  function ResultTab(r: ModuleResult): Tab {
    match r
    case SummaryResult(_) => SummaryTab
    case FlashcardsResult(_) => FlashcardsTab
    case QuizResult(_) => QuizTab
  }

  /** `data[tab]`: what is cached for a tab.  StudyData has no `audio` key, so nothing is ever cached for it. */
  function Cached(d: StudyData, t: Tab): (r: Option<ModuleResult>)
    ensures t == AudioTab ==> r.None?
    ensures r.Some? ==> ResultTab(r.value) == t
  {
    match t
    case SummaryTab => if d.summary.Some? then Some(SummaryResult(d.summary.value)) else None
    case FlashcardsTab => if d.flashcards.Some? then Some(FlashcardsResult(d.flashcards.value)) else None
    case QuizTab => if d.quiz.Some? then Some(QuizResult(d.quiz.value)) else None
    case AudioTab => None
  }

  /** `{ ...prev, [tab]: result }` (line 56): the result under its own key, every other entry as before. */
  function Store(d: StudyData, r: ModuleResult): (d': StudyData)
    ensures Cached(d', ResultTab(r)) == Some(r)
    ensures forall t :: t != ResultTab(r) ==> Cached(d', t) == Cached(d, t)
    ensures d'.audioScript == d.audioScript
  {
    match r
    case SummaryResult(items) => d.(summary := Some(items))
    case FlashcardsResult(cards) => d.(flashcards := Some(cards))
    case QuizResult(questions) => d.(quiz := Some(questions))
  }

  /** `reader.result.split(',')[1]` (line 29): the second comma-separated field, if there is one. */
  function DataUrlPayload(url: string): (payload: Option<string>)
    ensures payload.Some? ==> ',' !in payload.value
    ensures payload.None? <==> ',' !in url
  {
    var fields := Split(url, ',');
    if ',' in url then
      assert |fields| > 1 by {
        if |fields| == 1 {
          JoinSplit(url, ',');
        }
      }
      Some(fields[1])
    else
      None
  }

  /**
   * A data URL is a header, a comma and the base64 text, and base64 has no
   * comma: the stored payload is exactly the base64 text.
   */
  lemma DataUrlPayloadIsBase64(header: string, base64: string)
    requires ',' !in header && ',' !in base64
    ensures DataUrlPayload(header + "," + base64) == Some(base64)
  {
    SplitJoin([header, base64], ',');
    assert Join([header, base64], ',') == header + "," + base64;
  }

  /** The message of line 59. */
  function FailureMessage(t: Tab): string {
    "Failed to process " + TabName(t) + ". Please try again."
  }

  /** Different tabs give different messages: the message tells which module failed. */
  lemma FailureMessageIdentifiesTab(t: Tab, u: Tab)
    ensures FailureMessage(t) == FailureMessage(u) <==> t == u
  {
    if FailureMessage(t) == FailureMessage(u) {
      assert |TabName(t)| == |TabName(u)|;
    }
  }

  /** Whether the pasted text has anything but white space in it. */
  lemma TrimmedNonEmpty(content: string)
    ensures Trim(content) != "" <==> exists i :: 0 <= i < |content| && !IsJsWhitespace(content[i])
  {
    TrimEmpty(content);
  }

  class App {
    var appState: AppState
    var inputType: InputType
    var content: string
    var selectedFile: Option<SelectedFile>
    var data: StudyData
    var activeTab: Tab
    var loadingTab: Option<Tab>
    var error: Option<string>
    /** The generateModule calls whose request has not settled yet. */
    ghost var pending: multiset<Tab>

    ghost predicate Valid()
      reads this
    {
      && AudioTab !in pending
      && (loadingTab.Some? ==> loadingTab.value in pending)
      && data.audioScript.None?
    }

    constructor ()
      ensures Valid()
      ensures appState == Input && inputType == FileInput && content == "" && selectedFile.None?
      ensures data == EmptyData && activeTab == SummaryTab && loadingTab.None? && error.None?
      ensures pending == multiset{}
    {
      appState := Input;
      inputType := FileInput;
      content := "";
      selectedFile := None;
      data := EmptyData;
      activeTab := SummaryTab;
      loadingTab := None;
      error := None;
      pending := multiset{};
    }

    /**
     * processFile together with its reader's onload (lines 21-33): anything
     * but a PDF sets the error and keeps the selected file; a PDF clears the
     * error and becomes the selected file, with the base64 part of its data URL.
     */
    method ProcessFile(name: string, mimeType: string, dataUrl: string)
      requires Valid()
      modifies this`error, this`selectedFile
      ensures Valid()
      ensures mimeType != PdfMimeType ==> error == Some(NotPdfMessage) && selectedFile == old(selectedFile)
      ensures mimeType == PdfMimeType ==>
        error.None? && selectedFile == Some(SelectedFile(name, DataUrlPayload(dataUrl), mimeType))
    {
      if mimeType != PdfMimeType {
        error := Some(NotPdfMessage);
        return;
      }
      error := None;
      selectedFile := Some(SelectedFile(name, DataUrlPayload(dataUrl), mimeType));
    }

    /** The "PDF File" and "Text Paste" switches (lines 132-133). */
    method SetInputType(t: InputType)
      requires Valid()
      modifies this`inputType
      ensures Valid() && inputType == t
    {
      inputType := t;
    }

    /** Typing into the text area (line 165). */
    method SetContent(c: string)
      requires Valid()
      modifies this`content
      ensures Valid() && content == c
    {
      content := c;
    }

    /** The condition of line 36 (and of the button's `disabled` at line 175), negated. */
    predicate CanStart()
      reads this
    {
      if inputType == FileInput then selectedFile.Some? else Trim(content) != ""
    }

    /** The guards of generateModule (lines 42-43) let a request for `tab` through. */
    predicate WouldStart(tab: Tab)
      reads this
    {
      tab != AudioTab && Cached(data, tab).None? && loadingTab != Some(tab)
    }

    /**
     * generateModule's guards and start (lines 40-47): never for the audio
     * tab, and not when the tab's data is cached or that same tab is loading;
     * otherwise the tab is marked loading, the error cleared and a request sent.
     * "Try Again" (line 221) calls it directly for the active tab.
     */
    method BeginGenerate(tab: Tab) returns (started: bool)
      requires Valid()
      modifies this`loadingTab, this`error, this`pending
      ensures Valid()
      ensures started <==> old(WouldStart(tab))
      ensures started ==> loadingTab == Some(tab) && error.None? && pending == old(pending) + multiset{tab}
      ensures !started ==> loadingTab == old(loadingTab) && error == old(error) && pending == old(pending)
    {
      if tab == AudioTab {
        return false;
      }
      if Cached(data, tab).Some? || loadingTab == Some(tab) {
        return false;
      }
      loadingTab := Some(tab);
      error := None;
      pending := pending + multiset{tab};
      started := true;
    }

    /** A request for `tab` succeeds (lines 56, 61): its result is cached and loading ends. */
    method CompleteGenerate(tab: Tab, result: ModuleResult)
      requires Valid()
      requires tab in pending && ResultTab(result) == tab
      modifies this`data, this`loadingTab, this`pending
      ensures Valid()
      ensures data == Store(old(data), result)
      ensures Cached(data, tab) == Some(result)
      ensures forall t :: t != tab ==> Cached(data, t) == Cached(old(data), t)
      ensures loadingTab.None? && pending == old(pending) - multiset{tab}
    {
      data := Store(data, result);
      loadingTab := None;
      pending := pending - multiset{tab};
    }

    /** A request for `tab` fails (lines 57-61): the error names the tab and loading ends. */
    method FailGenerate(tab: Tab)
      requires Valid()
      requires tab in pending
      modifies this`error, this`loadingTab, this`pending
      ensures Valid()
      ensures error == Some(FailureMessage(tab))
      ensures loadingTab.None? && pending == old(pending) - multiset{tab}
    {
      error := Some(FailureMessage(tab));
      loadingTab := None;
      pending := pending - multiset{tab};
    }

    /**
     * startLearning (lines 35-38): the dashboard opens only with a selected
     * file in file mode, or text that is not all white space in text mode.
     * Entering it runs the effect of lines 65-69 for the active tab.
     */
    method StartLearning()
      requires Valid()
      modifies this
      ensures Valid()
      ensures !old(CanStart()) ==> unchanged(this)
      ensures old(CanStart()) ==> appState == Dashboard
      ensures data == old(data) && activeTab == old(activeTab) && selectedFile == old(selectedFile)
      ensures content == old(content) && inputType == old(inputType)
      ensures old(CanStart() && appState == Input && WouldStart(activeTab)) ==>
        loadingTab == Some(activeTab) && error.None? && pending == old(pending) + multiset{activeTab}
      ensures !old(CanStart() && appState == Input && WouldStart(activeTab)) ==>
        loadingTab == old(loadingTab) && error == old(error) && pending == old(pending)
    {
      if !CanStart() {
        return;
      }
      var entering := appState == Input;
      appState := Dashboard;
      if entering {
        var _ := BeginGenerate(activeTab);
      }
    }

    /** A sidebar button (line 105) and the effect it triggers on the dashboard (lines 65-69). */
    method SelectTab(tab: Tab)
      requires Valid()
      modifies this`activeTab, this`loadingTab, this`error, this`pending
      ensures Valid()
      ensures activeTab == tab
      ensures old(tab != activeTab && appState == Dashboard && WouldStart(tab)) ==>
        loadingTab == Some(tab) && error.None? && pending == old(pending) + multiset{tab}
      ensures !old(tab != activeTab && appState == Dashboard && WouldStart(tab)) ==>
        loadingTab == old(loadingTab) && error == old(error) && pending == old(pending)
    {
      var changed := tab != activeTab;
      activeTab := tab;
      if changed && appState == Dashboard {
        var _ := BeginGenerate(tab);
      }
    }

    /**
     * "New Session" (line 89): back to the input screen with no data, no file,
     * no text and the summary tab.  Loading state, error, input type and the
     * requests in flight are left as they are.
     */
    method NewSession()
      requires Valid()
      modifies this`appState, this`data, this`selectedFile, this`content, this`activeTab
      ensures Valid()
      ensures appState == Input && data == EmptyData && selectedFile.None? && content == "" && activeTab == SummaryTab
      ensures forall t :: Cached(data, t).None?
    {
      appState := Input;
      data := EmptyData;
      selectedFile := None;
      content := "";
      activeTab := SummaryTab;
    }
  }

  /**
   * The in-flight guard compares with the one loading tab only: after a
   * switch to another tab and back, the summary is requested a second time
   * while the first request is still out.
   */
  method DuplicateRequestScenario(dataUrl: string) {
    var app := new App();
    app.ProcessFile("notes.pdf", PdfMimeType, dataUrl);
    assert app.CanStart() && app.appState == Input && app.WouldStart(app.activeTab);
    app.StartLearning();
    assert app.loadingTab == Some(SummaryTab) && app.pending[SummaryTab] == 1;
    assert app.activeTab != FlashcardsTab && app.appState == Dashboard && app.WouldStart(FlashcardsTab);
    app.SelectTab(FlashcardsTab);
    assert app.loadingTab == Some(FlashcardsTab) && app.pending[SummaryTab] == 1;
    assert app.activeTab != SummaryTab && app.appState == Dashboard && app.WouldStart(SummaryTab);
    app.SelectTab(SummaryTab);
    assert app.pending[SummaryTab] == 2;
  }

  /**
   * A request still out when "New Session" is pressed lands in the new
   * session's data once it succeeds.
   */
  method StaleResultScenario(dataUrl: string, items: seq<string>) {
    var app := new App();
    app.ProcessFile("notes.pdf", PdfMimeType, dataUrl);
    assert app.CanStart() && app.appState == Input && app.WouldStart(app.activeTab);
    app.StartLearning();
    assert app.pending[SummaryTab] == 1;
    app.NewSession();
    assert SummaryTab in app.pending;
    app.CompleteGenerate(SummaryTab, SummaryResult(items));
    assert app.appState == Input && Cached(app.data, SummaryTab) == Some(SummaryResult(items));
  }
}
