/**
 * The three copies of the tiered extraction side by side: extractContent
 * of utils.js, the function the popup injects, and getArticleContent of
 * the content script. They agree on the article tier and part ways on the
 * paragraph separator, the body fallback and the handling of exceptions.
 */
module Variants {
  import opened Wrappers
  import opened Text
  import opened Browser
  import Utils
  import Popup
  import ContentScript

  /** With an article present, all three return its text. */
  lemma ArticleAgrees(page: Page)
    requires !page.queryFails && page.article.Some?
    ensures Utils.ExtractContent(page) == page.article.value
    ensures Popup.InPageExtract(page) == Returned(page.article.value)
    ensures ContentScript.GetArticleContent(page) == Returned(page.article.value)
  {
  }

  /** The injected function is extractContent without its catch: equal whenever it returns, "" where it throws. */
  lemma InPageIsUncaughtExtractContent(page: Page)
    ensures Popup.InPageExtract(page).Returned? ==> Utils.ExtractContent(page) == Popup.InPageExtract(page).text
    ensures Popup.InPageExtract(page).Threw? ==> Utils.ExtractContent(page) == ""
  {
  }

  /**
   * Without an article, the content script's text is shorter than the
   * blank-line join by one character per gap between paragraphs, and the
   * two agree exactly when there is a single paragraph.
   */
  lemma ParagraphSeparatorsDiffer(page: Page)
    requires !page.queryFails && page.article.None? && |page.paragraphs| > 0
    ensures ContentScript.GetArticleContent(page).Returned?
    ensures |Utils.ExtractContent(page)| == |ContentScript.GetArticleContent(page).text| + |page.paragraphs| - 1
    ensures |page.paragraphs| == 1 ==> Utils.ExtractContent(page) == ContentScript.GetArticleContent(page).text
    ensures |page.paragraphs| > 1 ==> Utils.ExtractContent(page) != ContentScript.GetArticleContent(page).text
  {
    JoinLongerSeparator(page.paragraphs, "\n", '\n');
    assert "\n" + ['\n'] == "\n\n";
  }

  /** With neither an article nor a paragraph, only the content script ignores the body. */
  lemma OnlyContentScriptIgnoresBody(body: string)
    ensures Utils.ExtractContent(Page(None, [], Some(body), false)) == body
    ensures Popup.InPageExtract(Page(None, [], Some(body), false)) == Returned(body)
    ensures ContentScript.GetArticleContent(Page(None, [], Some(body), false)) == Returned("")
  {
  }

  /** A failing query: extractContent answers "", the other two raise. */
  lemma OnlyExtractContentCatches(page: Page)
    requires page.queryFails
    ensures Utils.ExtractContent(page) == ""
    ensures Popup.InPageExtract(page) == Threw
    ensures ContentScript.GetArticleContent(page) == Threw
  {
  }
}
