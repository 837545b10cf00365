/** The content script of src/content/content.js: its extractor and its message listener. */
module ContentScript {
  import opened Wrappers
  import opened Text
  import opened Browser

  /** The request type the listener answers. */
  const GetArticleContentType: string := "GET_ARTICLE_CONTENT"

  /**
   * getArticleContent: the article's text if there is an article, else the
   * paragraph texts separated by single newlines; there is no body
   * fallback and no catch, so a failing query escapes as an exception.
   */
  function GetArticleContent(page: Page): (o: Outcome)
    ensures o.Threw? <==> page.queryFails
    ensures !page.queryFails && page.article.Some? ==> o.text == page.article.value
    ensures !page.queryFails && page.article.None? ==> o.text == Join(page.paragraphs, "\n")
  {
    if page.queryFails then Threw
    else if page.article.Some? then Returned(page.article.value)
    else Returned(Join(page.paragraphs, "\n"))
  }

  /** With neither an article nor a paragraph the content script finds no text, whatever the body holds. */
  lemma NoBodyFallback(body: string)
    ensures GetArticleContent(Page(None, [], Some(body), false)) == Returned("")
  {
  }

  /** Without an article, a paragraph added at the end of the page ends the text, after one newline. */
  lemma ParagraphsInDocumentOrder(ps: seq<string>, p: string, body: Option<string>)
    ensures GetArticleContent(Page(None, ps + [p], body, false)).text ==
            if ps == [] then p else GetArticleContent(Page(None, ps, body, false)).text + "\n" + p
  {
    JoinSnoc(ps, p, "\n");
  }

  /** How one call of the runtime.onMessage listener ends. */
  datatype ListenerResult =
    | Responded(text: string)  // sendResponse({text}) was called and the listener returned true
    | Silent                   // the listener returned undefined without answering
    | Raised                   // getArticleContent threw inside the listener; nothing was sent

  /**
   * The listener given the value of request.type: only the string
   * GET_ARTICLE_CONTENT (strict equality) is answered, with the extracted text.
   */
  function OnMessage(requestType: JsValue, page: Page): (r: ListenerResult)
    ensures r.Responded? <==> requestType == Str(GetArticleContentType) && !page.queryFails
    ensures r.Responded? ==> r.text == GetArticleContent(page).text
    ensures r.Silent? <==> requestType != Str(GetArticleContentType)
  {
    if requestType == Str(GetArticleContentType) then
      match GetArticleContent(page)
      case Returned(text) => Responded(text)
      case Threw => Raised
    else Silent
  }
}
