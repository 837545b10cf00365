/** What the extension's scripts see of the browser: JavaScript values and a web page. */
module Browser {
  import opened Wrappers

  /** A JavaScript value, told apart only as finely as the extension's checks look at it. */
  datatype JsValue = Str(s: string) | Null | Undefined | Num(n: real) | Bool(b: bool) | Object

  /**
   * A web page as the extractors query it.
   *  - article: the rendered text (innerText) of the first <article> element, None when there is none;
   *  - paragraphs: the rendered texts of the <p> elements, in document order;
   *  - body: the rendered text of <body>, None when the document has no body element, so that
   *    reading document.body.innerText raises a TypeError;
   *  - queryFails: querySelector and querySelectorAll raise instead of answering.
   */
  datatype Page = Page(article: Option<string>, paragraphs: seq<string>, body: Option<string>, queryFails: bool)

  /** How a script function without a catch of its own ends: with a value, or with an exception. */
  datatype Outcome = Returned(text: string) | Threw
}
