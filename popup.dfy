/**
 * The decision logic of src/popup/popup.js: the page extractor it injects
 * and the coercion of its result, the request building and reply reading
 * of getGeminiSummary, and the guard sequence of summarizeContent. The tab
 * query, key storage, script injection and fetch are inputs.
 */
module Popup {
  import opened Wrappers
  import opened Text
  import opened Browser
  import Utils

  // ---------------------------------------------------------------------
  // getArticleContent
  // ---------------------------------------------------------------------

  /** The error getArticleContent throws when the injection fails. */
  const ExtractionFailure: string := "Could not extract content from the page"

  /**
   * The function injected into the page: the article's text, else the
   * paragraph texts separated by blank lines, else the body's text. It has
   * no catch: a failing query or a missing body escapes as an exception.
   */
  function InPageExtract(page: Page): (o: Outcome)
    ensures o.Threw? <==> page.queryFails || (page.article.None? && page.paragraphs == [] && page.body.None?)
    ensures !page.queryFails && page.article.Some? ==> o.text == page.article.value
    ensures !page.queryFails && page.article.None? && |page.paragraphs| > 0 ==>
              o.text == Join(page.paragraphs, "\n\n")
    ensures !page.queryFails && page.article.None? && page.paragraphs == [] && page.body.Some? ==>
              o.text == page.body.value
  {
    if page.queryFails then Threw
    else if page.article.Some? then Returned(page.article.value)
    else if |page.paragraphs| > 0 then Returned(Join(page.paragraphs, "\n\n"))
    else if page.body.Some? then Returned(page.body.value)
    else Threw
  }

  /**
   * How chrome.scripting.executeScript settles: it rejects, or it resolves
   * with one result per frame, holding the value the injected function
   * returned (None when that value is null or undefined).
   */
  datatype ScriptRun = Rejected | Resolved(frames: seq<Option<string>>)

  /**
   * getArticleContent given the settlement: the first frame's value, with
   * a missing frame, a null or undefined value (and "") read as ""
   * through `|| ""`; a rejection becomes the extraction error.
   */
  function ArticleContent(run: ScriptRun): (r: Result<string, string>)
    ensures r.Err? <==> run.Rejected?
    ensures r.Err? ==> r.error == ExtractionFailure
    ensures run.Resolved? && |run.frames| > 0 && run.frames[0].Some? ==> r == Ok(run.frames[0].value)
    ensures run.Resolved? && (|run.frames| == 0 || run.frames[0].None?) ==> r == Ok("")
  {
    match run
    case Rejected => Err(ExtractionFailure)
    case Resolved(frames) =>
      if |frames| == 0 then Ok("")
      else match frames[0]
        case None => Ok("")
        case Some(t) => if t != "" then Ok(t) else Ok("")
  }

  // ---------------------------------------------------------------------
  // getGeminiSummary: the request
  // ---------------------------------------------------------------------

  /** The error for absent or blank input; it is thrown before the try block, so it carries no prefix. */
  const NoTextError: string := "No text to summarize"

  const BriefPrefix: string := "Summarize the following text in 2-3 sentences:"
  const DetailedPrefix: string := "Give a detailed summary of the following text:"
  const BulletsPrefix: string := "Create a list of key points from the following text:"

  /** What each template puts between its instruction and the text: a space, then two newlines. */
  const TemplateGlue: string := " \n\n"

  /** The keys promptMap owns. */
  const OwnKeys: set<string> := {"brief", "detailed", "bullets"}

  /**
   * The text actually sent: the input itself up to the cap, else its first
   * 20000 characters and the marker. The popup writes this cap out itself;
   * it is the same number as truncateText's default.
   */
  function BoundedText(rawText: string): (r: string)
    ensures r == Utils.TruncateText(rawText, Utils.DefaultMaxLength)
  {
    if |rawText| > Utils.DefaultMaxLength then rawText[..Utils.DefaultMaxLength] + Utils.Ellipsis else rawText
  }

  /** The instruction of an own key of promptMap, None for every other name. */
  function TemplatePrefix(style: string): (p: Option<string>)
    ensures p.Some? <==> style in OwnKeys
  {
    if style == "brief" then Some(BriefPrefix)
    else if style == "detailed" then Some(DetailedPrefix)
    else if style == "bullets" then Some(BulletsPrefix)
    else None
  }

  /**
   * The prompt for a style: the style's instruction, a space, two newlines,
   * then the text; any name promptMap does not own gets brief's instruction.
   */
  function PromptFor(style: string, text: string): (prompt: string)
    ensures var prefix := if style in OwnKeys then TemplatePrefix(style).value else BriefPrefix;
      && StartsWith(prompt, prefix)
      && EndsWith(prompt, TemplateGlue + text)
      && |prompt| == |prefix| + |TemplateGlue| + |text|
  {
    var prefix := match TemplatePrefix(style) case Some(p) => p case None => BriefPrefix;
    assert prefix + TemplateGlue + text == prefix + (TemplateGlue + text);
    prefix + TemplateGlue + text
  }

  /** An unrecognised style gives exactly the brief prompt. */
  lemma UnknownStyleIsBrief(style: string, text: string)
    requires style !in OwnKeys
    ensures PromptFor(style, text) == PromptFor("brief", text)
  {
  }

  /** The sent text can be read back off the end of the prompt. */
  lemma PromptEndsWithText(style: string, text: string)
    ensures var prompt := PromptFor(style, text);
      |text| <= |prompt| && prompt[|prompt| - |text|..] == text
  {
    var prompt := PromptFor(style, text);
    assert prompt[|prompt| - |TemplateGlue + text|..] == TemplateGlue + text;
    assert prompt[|prompt| - |text|..] == (TemplateGlue + text)[|TemplateGlue|..];
  }

  /**
   * Names an object literal inherits from Object.prototype. Looking one of
   * them up on promptMap finds a function or an object, not undefined.
   */
  const InheritedNames: set<string> := {
    "constructor", "hasOwnProperty", "isPrototypeOf", "propertyIsEnumerable",
    "toLocaleString", "toString", "valueOf", "__proto__",
    "__defineGetter__", "__defineSetter__", "__lookupGetter__", "__lookupSetter__"
  }

  /** What `promptMap[type] || promptMap.brief` evaluates to. */
  datatype PromptValue = Template(text: string) | InheritedMember(name: string)

  /**
   * The lookup as written: an inherited member is truthy, so `||` does not
   * replace it by the brief prompt, and the request's text part is a
   * function or object rather than a prompt.
   */
  function PromptLookupAsWritten(style: string, text: string): (v: PromptValue)
    ensures style in OwnKeys ==> v == Template(PromptFor(style, text))
    ensures style in InheritedNames ==> v == InheritedMember(style)
    ensures style !in OwnKeys && style !in InheritedNames ==> v == Template(PromptFor("brief", text))
  {
    match TemplatePrefix(style)
    case Some(prefix) => Template(prefix + TemplateGlue + text)
    case None =>
      if style in InheritedNames then InheritedMember(style) else Template(BriefPrefix + TemplateGlue + text)
  }

  /** The style "toString" does not fall back to the brief prompt as written. */
  lemma InheritedStyleEscapesFallback(text: string)
    ensures PromptLookupAsWritten("toString", text) != Template(PromptFor("brief", text))
    ensures PromptFor("toString", text) == PromptFor("brief", text)
  {
  }

  /** The request getGeminiSummary sends: its prompt and the key put in the URL. */
  datatype Request = Request(prompt: string, apiKey: string)

  /**
   * The part of getGeminiSummary before fetch: absent, empty or
   * all-whitespace input fails; otherwise the text is bounded and the
   * style's prompt built.
   */
  function BuildRequest(rawText: Option<string>, style: string, apiKey: string): (r: Result<Request, string>)
    ensures r.Err? <==> rawText.None? || IsBlank(rawText.value)
    ensures r.Err? ==> r.error == NoTextError
    ensures r.Ok? ==> r.value == Request(PromptFor(style, Utils.TruncateText(rawText.value, Utils.DefaultMaxLength)), apiKey)
  {
    if rawText.None? || rawText.value == "" || Trim(rawText.value) == "" then
      Err(NoTextError)
    else
      Ok(Request(PromptFor(style, BoundedText(rawText.value)), apiKey))
  }

  // ---------------------------------------------------------------------
  // getGeminiSummary: the reply
  // ---------------------------------------------------------------------

  /** The fallback when the reply carries no text. */
  const NoSummary: string := "No summary generated."

  /** The start of the message synthesized for an error reply without one. */
  const ApiErrorLabel: string := "API error: "

  /** The prefix of every error rethrown by getGeminiSummary's catch. */
  const GeminiErrorPrefix: string := "Gemini API error: "

  /** The fields of the reply's JSON body that the popup reads; None is a missing or null field. */
  datatype Part = Part(text: Option<string>)
  datatype Content = Content(parts: Option<seq<Part>>)
  datatype Candidate = Candidate(content: Option<Content>)
  datatype ApiError = ApiError(message: Option<string>)
  datatype ReplyJson = ReplyJson(candidates: Option<seq<Candidate>>, error: Option<ApiError>)

  /** What response.json() gives: the parsed body, or the message of the error it rejects with. */
  datatype Body = Parsed(json: ReplyJson) | Unparsable(message: string)

  /** How fetch ends: a response with its status and body, or a rejection with its message. */
  datatype HttpOutcome = Response(status: nat, body: Body) | FetchFailed(message: string)

  /** response.ok. */
  predicate IsOkStatus(status: nat) {
    200 <= status <= 299
  }

  /** data.candidates?.[0]?.content?.parts?.[0]?.text: None wherever the chain meets a missing field or an empty list. */
  function FirstPartText(json: ReplyJson): (r: Option<string>)
    ensures r.Some? <==>
      && json.candidates.Some? && |json.candidates.value| > 0
      && json.candidates.value[0].content.Some?
      && json.candidates.value[0].content.value.parts.Some?
      && |json.candidates.value[0].content.value.parts.value| > 0
      && json.candidates.value[0].content.value.parts.value[0].text.Some?
    ensures r.Some? ==> r.value == json.candidates.value[0].content.value.parts.value[0].text.value
  {
    match json.candidates
    case None => None
    case Some(cs) =>
      if |cs| == 0 then None
      else match cs[0].content
        case None => None
        case Some(c) =>
          match c.parts
          case None => None
          case Some(ps) => if |ps| == 0 then None else ps[0].text
  }

  /** The summary of a successful reply: the first part's text, kept even when empty (`??`), else the fallback. */
  function SummaryText(json: ReplyJson): (summary: string)
    ensures FirstPartText(json).Some? ==> summary == FirstPartText(json).value
    ensures FirstPartText(json).None? ==> summary == NoSummary
  {
    match FirstPartText(json)
    case Some(t) => t
    case None => NoSummary
  }

  /**
   * The message of an error reply: error.message if it is a non-empty
   * string (`||`), else one naming the status.
   */
  function ApiErrorMessage(status: nat, json: ReplyJson): (m: string)
    ensures json.error.Some? && json.error.value.message.Some? && json.error.value.message.value != "" ==>
              m == json.error.value.message.value
    ensures !(json.error.Some? && json.error.value.message.Some? && json.error.value.message.value != "") ==>
              m == ApiErrorLabel + NatToString(status)
  {
    match json.error
    case Some(ApiError(Some(message))) =>
      if message != "" then message else ApiErrorLabel + NatToString(status)
    case _ => ApiErrorLabel + NatToString(status)
  }

  /** The synthesized message ends with the decimal form of the status. */
  lemma SynthesizedMessageNamesStatus(status: nat)
    ensures var m := ApiErrorMessage(status, ReplyJson(None, None));
      StartsWith(m, ApiErrorLabel) && IsDigits(m[|ApiErrorLabel|..]) && DecimalValue(m[|ApiErrorLabel|..]) == status
  {
    var m := ApiErrorMessage(status, ReplyJson(None, None));
    assert m[|ApiErrorLabel|..] == NatToString(status);
    NatToStringRoundTrip(status);
  }

  /** The try block of getGeminiSummary after fetch: the summary, or the message of the error raised in it. */
  function ReadReply(reply: HttpOutcome): (r: Result<string, string>)
    ensures r.Ok? <==> reply.Response? && reply.body.Parsed? && IsOkStatus(reply.status)
    ensures r.Ok? ==> r.value == SummaryText(reply.body.json)
    ensures reply.FetchFailed? ==> r == Err(reply.message)
    ensures reply.Response? && reply.body.Unparsable? ==> r == Err(reply.body.message)
    ensures reply.Response? && reply.body.Parsed? && !IsOkStatus(reply.status) ==>
              r == Err(ApiErrorMessage(reply.status, reply.body.json))
  {
    match reply
    case FetchFailed(message) => Err(message)
    case Response(_, Unparsable(message)) => Err(message)
    case Response(status, Parsed(json)) =>
      if !IsOkStatus(status) then Err(ApiErrorMessage(status, json)) else Ok(SummaryText(json))
  }

  /** One call of getGeminiSummary: the request it sends, if any, and its value or the message it throws. */
  datatype SummaryCall = SummaryCall(request: Option<Request>, result: Result<string, string>)

  /**
   * getGeminiSummary with the network abstracted to the reply it gets: no
   * request for blank input; otherwise every failure is reported with the
   * "Gemini API error: " prefix.
   */
  function GeminiSummary(rawText: Option<string>, style: string, apiKey: string, reply: HttpOutcome): (call: SummaryCall)
    ensures call.request.None? <==> rawText.None? || IsBlank(rawText.value)
    ensures call.request.None? ==> call.result == Err(NoTextError)
    ensures call.request.Some? ==>
              call.request.value == Request(PromptFor(style, Utils.TruncateText(rawText.value, Utils.DefaultMaxLength)), apiKey)
    ensures call.request.Some? && call.result.Err? ==> StartsWith(call.result.error, GeminiErrorPrefix)
    ensures call.request.Some? && reply.FetchFailed? ==> call.result == Err(GeminiErrorPrefix + reply.message)
    ensures call.request.Some? && reply.Response? && reply.body.Unparsable? ==>
              call.result == Err(GeminiErrorPrefix + reply.body.message)
    ensures call.request.Some? && reply.Response? && reply.body.Parsed? && !IsOkStatus(reply.status) ==>
              call.result == Err(GeminiErrorPrefix + ApiErrorMessage(reply.status, reply.body.json))
    ensures call.request.Some? && reply.Response? && reply.body.Parsed? && IsOkStatus(reply.status) ==>
              call.result == Ok(SummaryText(reply.body.json))
  {
    match BuildRequest(rawText, style, apiKey)
    case Err(e) => SummaryCall(None, Err(e))
    case Ok(request) =>
      match ReadReply(reply)
      case Ok(summary) => SummaryCall(Some(request), Ok(summary))
      case Err(message) => SummaryCall(Some(request), Err(GeminiErrorPrefix + message))
  }

  /** An HTTP 403 whose body says "invalid key" is reported with that message. */
  lemma ForbiddenReplyScenario(rawText: string, style: string, apiKey: string)
    requires !IsBlank(rawText)
    ensures GeminiSummary(Some(rawText), style, apiKey,
              Response(403, Parsed(ReplyJson(None, Some(ApiError(Some("invalid key"))))))).result
            == Err(GeminiErrorPrefix + "invalid key")
  {
    var json := ReplyJson(None, Some(ApiError(Some("invalid key"))));
    assert ApiErrorMessage(403, json) == "invalid key";
  }

  /** A successful reply without candidates, or whose text is "", is not an error. */
  lemma SuccessScenarios(rawText: string, style: string, apiKey: string)
    requires !IsBlank(rawText)
    ensures GeminiSummary(Some(rawText), style, apiKey, Response(200, Parsed(ReplyJson(None, None)))).result
            == Ok(NoSummary)
    ensures GeminiSummary(Some(rawText), style, apiKey,
              Response(200, Parsed(ReplyJson(Some([Candidate(Some(Content(Some([Part(Some(""))]))))]), None)))).result
            == Ok("")
  {
  }

  // ---------------------------------------------------------------------
  // summarizeContent
  // ---------------------------------------------------------------------

  const InitialMessage: string := "Select a summary type and click Summarize to analyze the current page."
  const AnalyzingMessage: string := "Analyzing page content..."
  const GeneratingMessage: string := "Generating summary..."
  const NoTabMessage: string := "No active tab found"
  const UnsupportedPageMessage: string := "Cannot run on this page. Only works on regular web pages."
  const NoKeyMessage: string := "No API key found. Please enter one in the options page."
  const NoContentMessage: string := "No content found on this page"

  /** The prefix of every error the outer catch displays. */
  const ErrorPrefix: string := "Error: "

  /** The active tab, as far as the popup reads it. */
  datatype Tab = Tab(url: string)

  /**
   * The page check as written: chrome:// and chrome-extension:// pages, and
   * every URL not starting with "http". The first two tests add nothing: a
   * URL is rejected exactly when it does not start with "http".
   */
  predicate PageRejected(url: string)
    ensures PageRejected(url) <==> !StartsWith(url, "http")
  {
    assert StartsWith(url, "chrome://") ==> url[0] == 'c';
    assert StartsWith(url, "chrome-extension://") ==> url[0] == 'c';
    assert StartsWith(url, "http") ==> url[0] == 'h';
    StartsWith(url, "chrome://") || StartsWith(url, "chrome-extension://") || !StartsWith(url, "http")
  }

  /** The arguments summarizeContent passes to getGeminiSummary. */
  datatype SummaryArgs = SummaryArgs(rawText: string, style: string, apiKey: string)

  /**
   * One run of summarizeContent: the text finally shown, the arguments of
   * the getGeminiSummary call if it was reached, and the request sent.
   */
  datatype Run = Run(text: string, summary: Option<SummaryArgs>, request: Option<Request>)

  /** What the result element shows for a getGeminiSummary outcome. */
  function Displayed(result: Result<string, string>): string {
    match result
    case Ok(summary) => summary
    case Err(message) => ErrorPrefix + message
  }

  /**
   * summarizeContent given the active tab, the stored key, the selected
   * style, how the extractor's injection settles and how fetch ends.
   */
  function Summarize(tab: Option<Tab>, storedKey: Option<string>, style: string, run: ScriptRun, reply: HttpOutcome): (r: Run)
    ensures r.summary.Some? ==> tab.Some? && storedKey == Some(r.summary.value.apiKey) && r.summary.value.apiKey != ""
    ensures r.summary.Some? ==> ArticleContent(run) == Ok(r.summary.value.rawText) && r.summary.value.rawText != ""
                                && r.summary.value.style == style
    ensures r.request.Some? ==> r.summary.Some? && r.request.value.apiKey == r.summary.value.apiKey
    ensures r.summary.None? ==> r.request.None?
  {
    if tab.None? then Run(NoTabMessage, None, None)
    else if PageRejected(tab.value.url) then Run(UnsupportedPageMessage, None, None)
    else if storedKey.None? || storedKey.value == "" then Run(NoKeyMessage, None, None)
    else match ArticleContent(run)
      case Err(message) => Run(ErrorPrefix + message, None, None)
      case Ok(content) =>
        if content == "" then Run(NoContentMessage, None, None)
        else
          var call := GeminiSummary(Some(content), style, storedKey.value, reply);
          Run(Displayed(call.result), Some(SummaryArgs(content, style, storedKey.value)), call.request)
  }

  /** The checks that stop summarizeContent early, each with its own message. */
  datatype Guard = NoTab | UnsupportedPage | NoApiKey | ExtractionFailed | NoContent

  /** The order in which the checks run. */
  const GuardOrder: seq<Guard> := [NoTab, UnsupportedPage, NoApiKey, ExtractionFailed, NoContent]

  /** When a check stops the run, stated on its own. */
  predicate Fires(g: Guard, tab: Option<Tab>, storedKey: Option<string>, run: ScriptRun) {
    match g
    case NoTab => tab.None?
    case UnsupportedPage => tab.Some? && !StartsWith(tab.value.url, "http")
    case NoApiKey => storedKey.None? || storedKey.value == ""
    case ExtractionFailed => run.Rejected?
    case NoContent => run.Resolved? && ArticleContent(run) == Ok("")
  }

  /** The first check of gs that fires. */
  function FirstFiring(gs: seq<Guard>, tab: Option<Tab>, storedKey: Option<string>, run: ScriptRun): (g: Option<Guard>)
    ensures g.Some? ==> g.value in gs && Fires(g.value, tab, storedKey, run)
    ensures g.Some? ==> exists i :: 0 <= i < |gs| && gs[i] == g.value &&
                                    forall j :: 0 <= j < i ==> !Fires(gs[j], tab, storedKey, run)
    ensures g.None? <==> forall i :: 0 <= i < |gs| ==> !Fires(gs[i], tab, storedKey, run)
  {
    if gs == [] then None
    else if Fires(gs[0], tab, storedKey, run) then Some(gs[0])
    else FirstFiring(gs[1..], tab, storedKey, run)
  }

  /** The text each check leaves on show. */
  function GuardMessage(g: Guard): string {
    match g
    case NoTab => NoTabMessage
    case UnsupportedPage => UnsupportedPageMessage
    case NoApiKey => NoKeyMessage
    case ExtractionFailed => ErrorPrefix + ExtractionFailure
    case NoContent => NoContentMessage
  }

  /**
   * summarizeContent runs the checks in the order of GuardOrder: the first
   * that fires decides the text and getGeminiSummary is not called; when
   * none fires, the extracted content is summarized with the stored key.
   */
  lemma SummarizeFollowsGuardOrder(tab: Option<Tab>, storedKey: Option<string>, style: string, run: ScriptRun, reply: HttpOutcome)
    ensures var r := Summarize(tab, storedKey, style, run, reply);
      var g := FirstFiring(GuardOrder, tab, storedKey, run);
      && (g.Some? ==> r.text == GuardMessage(g.value) && r.summary.None? && r.request.None?)
      && (g.None? ==>
            && tab.Some? && storedKey.Some? && ArticleContent(run).Ok? && ArticleContent(run).value != ""
            && r.summary == Some(SummaryArgs(ArticleContent(run).value, style, storedKey.value))
            && r.request == GeminiSummary(Some(ArticleContent(run).value), style, storedKey.value, reply).request
            && r.text == Displayed(GeminiSummary(Some(ArticleContent(run).value), style, storedKey.value, reply).result))
  {
    var g := FirstFiring(GuardOrder, tab, storedKey, run);
    var rest1 := [UnsupportedPage, NoApiKey, ExtractionFailed, NoContent];
    var rest2 := [NoApiKey, ExtractionFailed, NoContent];
    var rest3 := [ExtractionFailed, NoContent];
    assert GuardOrder[1..] == rest1 && rest1[1..] == rest2 && rest2[1..] == rest3 && rest3[1..] == [NoContent];
    if tab.None? {
      assert g == Some(NoTab);
    } else {
      assert g == FirstFiring(rest1, tab, storedKey, run);
      if PageRejected(tab.value.url) {
        assert g == Some(UnsupportedPage);
      } else {
        assert g == FirstFiring(rest2, tab, storedKey, run);
        if storedKey.None? || storedKey.value == "" {
          assert g == Some(NoApiKey);
        } else {
          assert g == FirstFiring(rest3, tab, storedKey, run);
          if run.Rejected? {
            assert g == Some(ExtractionFailed);
          } else {
            assert g == FirstFiring([NoContent], tab, storedKey, run);
            if ArticleContent(run) == Ok("") {
              assert g == Some(NoContent);
            } else {
              assert FirstFiring([NoContent][1..], tab, storedKey, run) == None;
              assert g == None;
            }
          }
        }
      }
    }
  }

  /** A request goes out only after every check has passed, with the stored key, for non-blank content. */
  lemma RequestOnlyAfterGuards(tab: Option<Tab>, storedKey: Option<string>, style: string, run: ScriptRun, reply: HttpOutcome)
    ensures var r := Summarize(tab, storedKey, style, run, reply);
      r.request.Some? ==>
        && tab.Some? && StartsWith(tab.value.url, "http")
        && storedKey.Some? && storedKey.value != "" && r.request.value.apiKey == storedKey.value
        && ArticleContent(run).Ok? && !IsBlank(ArticleContent(run).value)
  {
  }

  /**
   * The text the injected extractor returns in the main frame is what the
   * popup summarizes: once the tab, URL and key checks pass, a non-empty
   * text is handed to getGeminiSummary with the style and the stored key,
   * and an empty one ends the run with the no-content message.
   */
  lemma ExtractedTextReachesPopup(page: Page, url: string, apiKey: string, style: string, reply: HttpOutcome)
    requires StartsWith(url, "http") && apiKey != ""
    requires InPageExtract(page).Returned?
    ensures var text := InPageExtract(page).text;
      var r := Summarize(Some(Tab(url)), Some(apiKey), style, Resolved([Some(text)]), reply);
      && (text != "" ==> r.summary == Some(SummaryArgs(text, style, apiKey))
                         && r.request == GeminiSummary(Some(text), style, apiKey, reply).request)
      && (text == "" ==> r == Run(NoContentMessage, None, None))
  {
  }

  /** Content made only of whitespace passes the popup's check but is refused by getGeminiSummary, before any request. */
  lemma WhitespaceContentScenario(url: string, apiKey: string, style: string, reply: HttpOutcome)
    requires StartsWith(url, "http") && apiKey != ""
    ensures Summarize(Some(Tab(url)), Some(apiKey), style, Resolved([Some("  \n ")]), reply)
            == Run(ErrorPrefix + NoTextError, Some(SummaryArgs("  \n ", style, apiKey)), None)
  {
    var s := "  \n ";
    assert s[0] == ' ' && s[1] == ' ' && s[2] == '\n' && s[3] == ' ';
    assert IsBlank(s);
    assert ArticleContent(Resolved([Some(s)])) == Ok(s);
    var call := GeminiSummary(Some(s), style, apiKey, reply);
    assert call == SummaryCall(None, Err(NoTextError));
  }

  /** The popup's result panel, its loading overlay, and the requests it has sent. */
  class PopupView {
    var resultText: string
    var loadingActive: bool
    var sent: seq<Request>

    /** The panel once the popup's DOM has loaded. */
    constructor ()
      ensures resultText == InitialMessage && !loadingActive && sent == []
    {
      resultText := InitialMessage;
      loadingActive := false;
      sent := [];
    }

    /**
     * summarizeContent: writes the panel step by step and returns early at
     * the first failing check; the overlay is hidden on every path, and a
     * request is sent at most once.
     */
    method SummarizeContent(tab: Option<Tab>, storedKey: Option<string>, style: string, run: ScriptRun, reply: HttpOutcome)
      modifies this
      ensures resultText == Summarize(tab, storedKey, style, run, reply).text
      ensures !loadingActive
      ensures sent == old(sent) + match Summarize(tab, storedKey, style, run, reply).request
                                  case Some(q) => [q]
                                  case None => []
    {
      loadingActive := true;
      resultText := AnalyzingMessage;
      if tab.None? {
        resultText := NoTabMessage;
        loadingActive := false;
        return;
      }
      if PageRejected(tab.value.url) {
        resultText := UnsupportedPageMessage;
        loadingActive := false;
        return;
      }
      if storedKey.None? || storedKey.value == "" {
        resultText := NoKeyMessage;
        loadingActive := false;
        return;
      }
      var content := ArticleContent(run);
      if content.Err? {
        resultText := ErrorPrefix + content.error;
        loadingActive := false;
        return;
      }
      if content.value == "" {
        resultText := NoContentMessage;
        loadingActive := false;
        return;
      }
      resultText := GeneratingMessage;
      var call := GeminiSummary(Some(content.value), style, storedKey.value, reply);
      if call.request.Some? {
        sent := sent + [call.request.value];
      }
      resultText := Displayed(call.result);
      loadingActive := false;
    }
  }
}
