# AI Article Summarizer: a Dafny model of its decision logic

The extension takes the readable text of the active web page and asks
Gemini for a summary, which the popup shows. Under the Chrome-API and DOM
glue sits a thin layer of deterministic logic, and that layer is modelled
here:

- `Utils` (src/shared/utils.js): `validateApiKey`, the tiered
  `extractContent` with its catch, and `truncateText`.
- `ContentScript` (src/content/content.js): its `getArticleContent`, which
  joins paragraphs with a single newline and has no body fallback, and the
  `runtime.onMessage` listener that answers only `GET_ARTICLE_CONTENT`.
- `Popup` (src/popup/popup.js): the extractor the popup injects, the
  coercion of its result, the request building and reply reading of
  `getGeminiSummary` (blank-input check, the 20000-character cap, the
  style-to-template lookup, `candidates[0].content.parts[0].text ?? ...`,
  the error messages), the guard sequence of `summarizeContent` as a
  function `Summarize`, and the class `PopupView`, whose method
  `SummarizeContent` updates the result panel, the loading flag and the log
  of sent requests step by step as the source does.
- `Variants`: lemmas setting the three copies of the extractor side by side.
- `Text`, `Browser`, `Wrappers`: `trim`, `startsWith`, `join` and the
  decimal form of a status code; the abstract page and JavaScript values;
  Option and Result.

A page is a record: the rendered text of the first `<article>` (if any),
the paragraph texts in document order, the body text (None when the
document has no body, so that reading it throws), and a flag saying that
the query methods throw. The browser's answers are inputs. These are the
active tab, the stored key, the selected style, how
`chrome.scripting.executeScript` settles (`ScriptRun`), and how `fetch`
ends (`HttpOutcome`: a status with a parsed or unparsable JSON body, or a
rejection with its message).

The model follows the code in these details:
- The URL check runs before the key check (src/popup/popup.js:144 and :153).
- An upstream error is a message only; no status code is kept beside it.
- The popup's own extraction does not swallow errors. A failed injection
  becomes "Could not extract content from the page".
- The content script joins paragraphs with "\n", not a blank line, and has
  no body fallback.
- Content made only of whitespace passes the popup's emptiness check. It
  then fails inside `getGeminiSummary` with "No text to summarize", which
  is shown as "Error: No text to summarize" (`WhitespaceContentScenario`).

One place departs from the code on purpose: the request is built with the
corrected style lookup described under "## Findings", and the lookup as
written is modelled beside it.

## Model

| member | source | states |
|---|---|---|
| `Text.TrimStart` | src/popup/popup.js:85 | the result is a suffix of the input, everything dropped is whitespace, and it does not start with whitespace |
| `Text.TrimEnd` | src/popup/popup.js:85 | the result is a prefix of the input, everything dropped is whitespace, and it does not end with whitespace |
| `Text.Trim` | src/popup/popup.js:85 | the result is the stretch of the input left after cutting whitespace on both sides: everything cut is whitespace, and a non-empty result starts and ends with a non-whitespace character |
| `Text.TrimEmptyIffBlank` | src/popup/popup.js:85 | `trim()` gives "" exactly when every character is whitespace |
| `Text.Join` | src/shared/utils.js:46 | `join` gives "" for no parts, the part itself for one, and otherwise starts with the first part followed by the separator |
| `Text.JoinSnoc` | src/shared/utils.js:46 | a join keeps the parts in order: a part added last ends the result after a single separator |
| `Text.JoinLongerSeparator` | src/popup/popup.js:62 | a separator one character longer makes a join of n parts exactly n - 1 characters longer |
| `Text.NatToString` | src/popup/popup.js:114 | the decimal form of a status is non-empty, all digits, "0" only for 0, and has no leading zero |
| `Text.NatToStringRoundTrip` | src/popup/popup.js:114 | reading the decimal form back gives the status |
| `Utils.ValidateApiKey` | src/shared/utils.js:31-33 | true exactly for a string value that is not empty; false for null, undefined, numbers, booleans and objects |
| `Utils.ValidateApiKeyExamples` | tests/utils.test.js:5-17 | a non-empty key is valid; "", null, undefined and 123 are not |
| `Utils.ExtractContent` | src/shared/utils.js:40-53 | the article text if there is an article (even ""), else the paragraphs joined by a blank line, else the body text; "" whenever a query throws or the body is missing |
| `Utils.ArticleOverridesRest` | src/shared/utils.js:42-43 | with an article, the result is its text whatever the paragraphs and the body hold |
| `Utils.ParagraphsInDocumentOrder` | src/shared/utils.js:45-46 | without an article, a paragraph added at the end of the page ends the extracted text after one blank line; a single paragraph is the whole text |
| `Utils.HelloWorldArticle` | src/shared/utils.js:42-43 | a page with `<article>Hello world</article>` extracts to "Hello world" |
| `Utils.TruncateText` | src/shared/utils.js:61-64 | text up to the cap is unchanged; longer text has length cap + 3, keeps its first cap characters and ends with "..."; the result is never longer than cap + 3 and always starts with the first min(length, cap) characters |
| `Utils.TruncateIdempotent` | src/shared/utils.js:61-64 | truncating the result again at the same cap changes nothing |
| `Utils.TruncateTextExamples` | tests/utils.test.js:20-31 | "Short text" at cap 20 is unchanged; the long test sentence at cap 10 is at most 13 characters and ends with "..." |
| `ContentScript.GetArticleContent` | src/content/content.js:15-23 | the article text if there is an article, else the paragraphs joined by a single newline; it throws exactly when the queries throw, and never reads the body |
| `ContentScript.ParagraphsInDocumentOrder` | src/content/content.js:21-22 | without an article, a paragraph added at the end of the page ends the text after one newline; a single paragraph is the whole text |
| `ContentScript.NoBodyFallback` | src/content/content.js:21-22 | with neither an article nor a paragraph the result is "" whatever the body holds |
| `ContentScript.OnMessage` | src/content/content.js:30-36 | the listener answers exactly for the request type "GET_ARTICLE_CONTENT" when extraction succeeds, with the extracted text; every other request type gets no answer |
| `Popup.InPageExtract` | src/popup/popup.js:56-66 | the same three tiers with a blank-line join and no catch: it throws when a query throws, or when it reaches the body tier and the body is missing |
| `Popup.ArticleContent` | src/popup/popup.js:52-75 | a rejected injection gives "Could not extract content from the page"; otherwise the first frame's value, with no frame or a null or undefined value read as "" |
| `Popup.ExtractedTextReachesPopup` | src/popup/popup.js:56-70 | once the tab, URL and key checks pass, a non-empty text returned by the injected function in the main frame is what getGeminiSummary is called with (and its request is the one sent); an empty one ends the run with "No content found on this page" |
| `Popup.BoundedText` | src/popup/popup.js:89-91 | the inline cap equals `truncateText` with the cap 20000 |
| `Popup.TemplatePrefix` | src/popup/popup.js:94-98 | there is a template exactly for "brief", "detailed" and "bullets" |
| `Popup.PromptFor` | src/popup/popup.js:94-100 | the prompt starts with the style's instruction (brief's for any other name), ends with " \n\n" and the text, and has no other characters |
| `Popup.UnknownStyleIsBrief` | src/popup/popup.js:100 | any style other than the three gives exactly the brief prompt |
| `Popup.PromptEndsWithText` | src/popup/popup.js:95-97 | the bounded text can be read back off the end of the prompt |
| `Popup.PromptLookupAsWritten` | src/popup/popup.js:94-100 | the lookup as written returns an inherited Object.prototype member for names such as "toString", and the brief prompt only for other unknown names |
| `Popup.InheritedStyleEscapesFallback` | src/popup/popup.js:100 | "toString" does not fall back to the brief prompt as written, and does under `PromptFor` |
| `Popup.BuildRequest` | src/popup/popup.js:84-100 | absent, empty or all-whitespace input fails with "No text to summarize"; otherwise the request carries the style's prompt over the capped text, and the key |
| `Popup.FirstPartText` | src/popup/popup.js:118 | the optional chain `candidates?.[0]?.content?.parts?.[0]?.text` yields a value exactly when every link is present and each list is non-empty, and then it is the first candidate's first part text |
| `Popup.SummaryText` | src/popup/popup.js:117-118 | the first candidate's first part text whenever it is present, "" included; otherwise "No summary generated." |
| `Popup.ApiErrorMessage` | src/popup/popup.js:112-114 | `error.message` if it is a non-empty string, else "API error: " followed by the status |
| `Popup.SynthesizedMessageNamesStatus` | src/popup/popup.js:114 | the synthesized message is "API error: " followed by digits whose value is the status |
| `Popup.ReadReply` | src/popup/popup.js:102-118 | the try block after fetch succeeds exactly for an OK status with a parsed body, yielding the summary text; a rejected fetch or an unparsable body fails with its own message, an error status with the API's error message |
| `Popup.GeminiSummary` | src/popup/popup.js:84-123 | no request is sent exactly for blank input, which fails with "No text to summarize"; otherwise the request is the one `BuildRequest` describes, and every failure (rejected fetch, unparsable body, error status) carries the prefix "Gemini API error: "; an OK status yields the summary text |
| `Popup.ForbiddenReplyScenario` | src/popup/popup.js:112-121 | status 403 with error message "invalid key" fails with "Gemini API error: invalid key" |
| `Popup.SuccessScenarios` | src/popup/popup.js:117-118 | an OK body without candidates yields "No summary generated."; a first part whose text is "" yields "" |
| `Popup.PageRejected` | src/popup/popup.js:144 | the three-part page check rejects a URL exactly when it does not start with "http" |
| `Popup.Summarize` | src/popup/popup.js:129-191 | getGeminiSummary is called only with a tab, the stored non-empty key, the selected style and non-empty extracted content; a request is sent only within such a call and with that key (the order of the checks is `SummarizeFollowsGuardOrder`) |
| `Popup.FirstFiring` | src/popup/popup.js:137-180 | the guard found fires and no guard before it in the list fires; none is found exactly when no guard of the list fires |
| `Popup.SummarizeFollowsGuardOrder` | src/popup/popup.js:133-190 | guards run in the order no tab, unsupported URL, missing key, failed extraction, empty content; the first that fires sets its own message and getGeminiSummary is not called; otherwise the content is summarized with the stored key, the request sent is getGeminiSummary's, and the result, or "Error: " and the message, is shown |
| `Popup.RequestOnlyAfterGuards` | src/popup/popup.js:137-183 | a request goes out only for an http page, with the stored non-empty key, for extracted content that is not blank |
| `Popup.WhitespaceContentScenario` | src/popup/popup.js:176-187 | whitespace-only content passes the page's emptiness check and ends as "Error: No text to summarize" with no request sent |
| `Popup.PopupView.constructor` | src/popup/popup.js:211-214 | the panel starts with the instruction text, no overlay and no request sent |
| `Popup.PopupView.SummarizeContent` | src/popup/popup.js:129-191 | the panel ends showing `Summarize`'s text, the overlay is hidden on every path, and the sent log grows by the one request `Summarize` issues, or not at all |
| `Variants.ArticleAgrees` | src/content/content.js:17-18 | with an article, all three extractors return its text |
| `Variants.InPageIsUncaughtExtractContent` | src/popup/popup.js:56-66 | the injected function equals extractContent wherever it returns; where it throws, extractContent gives "" |
| `Variants.ParagraphSeparatorsDiffer` | src/content/content.js:21-22 | without an article, the content script's text is shorter than extractContent's by one character per gap, and the two agree exactly when there is one paragraph |
| `Variants.OnlyContentScriptIgnoresBody` | src/content/content.js:21-22 | with neither article nor paragraphs, extractContent and the injected function return the body, the content script "" |
| `Variants.OnlyExtractContentCatches` | src/shared/utils.js:49-52 | when the queries throw, extractContent gives "" while the other two throw |

## Left out

- `log` (src/shared/utils.js:10-24): a timestamp and the console.
- `sanitizeHtml` (src/shared/utils.js:71-75): its result is whatever the DOM's `innerHTML` serialisation produces, which is not part of this model.
- showLoading, hideLoading, showStatusMessage and its timer, the clipboard copy and the event-listener wiring in src/popup/popup.js: UI work. Only the overlay's final state is kept, as `loadingActive`.
- src/options/options.js and src/background/background.js: storage and tab-opening glue. Their only rule is a trim-and-non-empty check on the key.
- `chrome.tabs.query`, `chrome.storage.sync.get`, `chrome.scripting.executeScript` and `fetch`: asynchronous browser I/O. They are inputs: a tab option, a stored key option, a `ScriptRun`, an `HttpOutcome`. A rejection of the tab query or the storage read is not modelled.
- The content-script injection at src/popup/popup.js:160-168: its failure is ignored and it changes no result.
- How Chrome settles `executeScript` when the injected function throws (rejecting, or resolving with a null result) is not fixed: the settlement is an input, and `InPageExtract` only says when the function throws.
- A tab whose `url` is undefined: `tab.url.startsWith` would throw a TypeError whose text comes from the JavaScript engine.
- The endpoint URL, the `temperature: 0.2` setting, `JSON.stringify`, and how `response.json` parses. The reply is the parsed fields the popup reads, or the message of the parse error.
- JSON values of unexpected shape: a `null` body, non-string `text` or `message` fields, non-array `candidates`, null array elements. Missing and null fields are both modelled as None.
- The `|| ""` in `getArticleContent` and the `!articleContent` check are modelled for strings, the only values the injected function returns.
- Strings are sequences of characters, not UTF-16 code units. The whitespace set of `trim()` is written out from ECMAScript's WhiteSpace and LineTerminator (Zs as of Unicode 15).
- Popup.BuildRequest: builds the prompt with the corrected lookup `PromptFor`. For a style name inherited from Object.prototype (such as "toString") the code as written puts that member in the request instead of the brief prompt (`PromptLookupAsWritten`); the rest of the model uses the corrected prompt.
- Popup.GeminiSummary: its request comes from `BuildRequest`, so the same corrected lookup applies to it, to `Summarize` and to the `sent` log of `PopupView.SummarizeContent`.
- Popup.PopupView.SummarizeContent: one run is modelled as a single uninterrupted step. The source is async (src/popup/popup.js:129-191), so two overlapping clicks can interleave their writes to the result panel; that interleaving is not modelled.
- Utils.TruncateText: the cap is a natural number; a JavaScript caller could pass a negative or fractional `maxLength`, which `slice` would interpret differently.
- Only the final text of the result panel is kept. The intermediate "Analyzing page content..." and "Generating summary..." messages are written by `PopupView.SummarizeContent` but are not part of its contract.

## Findings

| source | as written | input that shows it | evidently intended | confidence | as-written member | corrected member |
|---|---|---|---|---|---|---|
| src/popup/popup.js:100 | `promptMap[type] \|\| promptMap.brief` also finds the members every object inherits from Object.prototype; they are truthy, so there is no fallback | type = "toString" (also "constructor", "valueOf", "__proto__", ...) | every style other than brief, detailed and bullets gets the brief prompt | not executed; reachable only if the style selector offers such a value | `Popup.InheritedStyleEscapesFallback` | `Popup.PromptFor` |
