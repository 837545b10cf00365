/** The shared helpers of src/shared/utils.js: key validation, content extraction, truncation. */
module Utils {
  import opened Wrappers
  import opened Text
  import opened Browser

  /** truncateText's default cap. */
  const DefaultMaxLength: nat := 20000

  /** The marker appended to cut-off text. */
  const Ellipsis: string := "..."

  /** validateApiKey: a key is acceptable iff it is a string and not the empty one. */
  function ValidateApiKey(apiKey: JsValue): (valid: bool)
    ensures valid <==> apiKey.Str? && apiKey.s != ""
  {
    match apiKey
    case Str(s) => |s| > 0
    case _ => false
  }

  /** The cases of tests/utils.test.js. */
  lemma ValidateApiKeyExamples()
    ensures ValidateApiKey(Str("valid-api-key"))
    ensures !ValidateApiKey(Str(""))
    ensures !ValidateApiKey(Null) && !ValidateApiKey(Undefined) && !ValidateApiKey(Num(123.0))
  {
  }

  /**
   * extractContent: the article's text if the page has an article, else the
   * paragraph texts separated by blank lines, else the body's text; any
   * exception on the way (a failing query, a missing body) yields "".
   */
  function ExtractContent(page: Page): (text: string)
    ensures page.queryFails ==> text == ""
    ensures !page.queryFails && page.article.Some? ==> text == page.article.value
    ensures !page.queryFails && page.article.None? && |page.paragraphs| > 0 ==>
              text == Join(page.paragraphs, "\n\n")
    ensures !page.queryFails && page.article.None? && page.paragraphs == [] ==>
              text == (if page.body.Some? then page.body.value else "")
  {
    match TryExtract(page)
    case Returned(t) => t
    case Threw => ""
  }

  /** The body of extractContent's try block. */
  function TryExtract(page: Page): Outcome {
    if page.queryFails then Threw
    else if page.article.Some? then Returned(page.article.value)
    else if |page.paragraphs| > 0 then Returned(Join(page.paragraphs, "\n\n"))
    else if page.body.Some? then Returned(page.body.value)
    else Threw
  }

  /** An article decides the result, whatever the paragraphs and the body hold. */
  lemma ArticleOverridesRest(a: string, ps1: seq<string>, ps2: seq<string>, b1: Option<string>, b2: Option<string>)
    ensures ExtractContent(Page(Some(a), ps1, b1, false)) == ExtractContent(Page(Some(a), ps2, b2, false)) == a
  {
  }

  /**
   * Without an article, paragraphs come out in document order: a paragraph
   * added at the end of the page ends the text, after one blank line.
   */
  lemma ParagraphsInDocumentOrder(ps: seq<string>, p: string, body: Option<string>)
    ensures ExtractContent(Page(None, ps + [p], body, false)) ==
            if ps == [] then p else ExtractContent(Page(None, ps, body, false)) + "\n\n" + p
  {
    JoinSnoc(ps, p, "\n\n");
  }

  /** The page <article>Hello world</article> extracts to "Hello world". */
  lemma HelloWorldArticle(ps: seq<string>, body: Option<string>)
    ensures ExtractContent(Page(Some("Hello world"), ps, body, false)) == "Hello world"
  {
  }

  /**
   * truncateText: text no longer than the cap is kept; longer text keeps
   * its first maxLength characters and gets the marker.
   */
  function TruncateText(text: string, maxLength: nat): (r: string)
    ensures |text| <= maxLength ==> r == text
    ensures |text| > maxLength ==>
              |r| == maxLength + |Ellipsis| && r[..maxLength] == text[..maxLength] && EndsWith(r, Ellipsis)
    ensures |r| <= maxLength + |Ellipsis|
    ensures StartsWith(r, text[..if |text| < maxLength then |text| else maxLength])
  {
    if |text| <= maxLength then text else text[..maxLength] + Ellipsis
  }

  /** Truncating twice at the same cap changes nothing more. */
  lemma TruncateIdempotent(text: string, maxLength: nat)
    ensures TruncateText(TruncateText(text, maxLength), maxLength) == TruncateText(text, maxLength)
  {
    if |text| > maxLength {
      var r := TruncateText(text, maxLength);
      assert r[..maxLength] + Ellipsis == r;
    }
  }

  /** The cases of tests/utils.test.js. */
  lemma TruncateTextExamples()
    ensures TruncateText("Short text", 20) == "Short text"
    ensures var t := TruncateText("This is a very long text that needs to be truncated", 10);
            |t| <= 13 && EndsWith(t, "...")
  {
  }
}
