/**
 * The two browser strategies that render one page: the generic page strategy with its raw-text
 * fallbacks (`fetchAndProcessPage`) and the video metadata strategy (`getYouTubeMetadata`).
 * What the page does is an input: each run says which step failed and what the page reported.
 */
module PageText {
  import opened Wrappers
  import opened Strings

  /** Body characters the raw-text fallback keeps. */
  const FallbackMaxLength: nat := 10000

  /** The title the fallback prints when the document has none. */
  const UntitledTitle := "Untitled Page"

  /** Prefix of the message for a page that could not be opened or evaluated. */
  const ProcessFailure := "Failed to process page: "

  /** Prefix of the message for a fallback evaluation that threw. */
  const ExtractFailure := "## Error\n\nFailed to extract content: "

  /** What the in-page fallback reads: `document.title` and `document.body.innerText`. */
  datatype PageSnapshot = PageSnapshot(title: string, bodyText: string)

  /** The outcome of the extraction evaluated in the page once both scripts loaded. */
  datatype Conversion =
    | Converted(markdown: string)
      /** Readability or Turndown threw inside the page; the page's own catch takes over. */
    | ConverterThrew
      /** The evaluation itself rejected. */
    | EvaluateFailed(message: string)

  /** One run of the generic strategy, from opening the page to the extraction. */
  datatype PageRun =
      /** Opening the page or navigating to it threw. */
    | PageFailed(message: string)
      /** A script tag failed to load; `fallback` is what the raw-text evaluation gave. */
    | ScriptsFailed(fallback: Outcome<PageSnapshot>)
      /** Both scripts loaded; the page reads as `snapshot` and the extraction gave `conversion`. */
    | ScriptsLoaded(snapshot: PageSnapshot, conversion: Conversion)

  /** The title line and blank line the fallback starts with: `document.title || 'Untitled Page'`. */
  function FallbackHeader(title: string): string {
    "## " + (if title == [] then UntitledTitle else title) + "\n\n"
  }

  /** `mainContent.slice(0, 10000)`. */
  function Clip(body: string): (r: string)
    ensures |r| == if |body| <= FallbackMaxLength then |body| else FallbackMaxLength
    ensures StartsWith(body, r)
  {
    if |body| <= FallbackMaxLength then body else body[..FallbackMaxLength]
  }

  /** The raw-text fallback: the title line, then the first ten thousand characters of the body text. */
  function FallbackText(page: PageSnapshot): (r: string)
    ensures page.title != [] ==> StartsWith(r, "## " + page.title + "\n\n")
    ensures page.title == [] ==> StartsWith(r, "## Untitled Page\n\n")
    ensures |r| == |FallbackHeader(page.title)| + (if |page.bodyText| <= FallbackMaxLength then |page.bodyText| else FallbackMaxLength)
    ensures StartsWith(page.bodyText, r[|FallbackHeader(page.title)|..])
    ensures |page.bodyText| <= FallbackMaxLength ==> EndsWith(r, page.bodyText)
  {
    var head := FallbackHeader(page.title);
    var r := head + Clip(page.bodyText);
    PrefixOfConcat(head, Clip(page.bodyText));
    assert r[|head|..] == Clip(page.bodyText);
    r
  }

  /**
   * `fetchAndProcessPage`: a page that fails to open gives the process failure message; a page
   * whose scripts do not load gives the raw-text fallback, or the extraction error when even that
   * evaluation throws; otherwise the extraction's markdown, the fallback when the extraction threw
   * inside the page, or the process failure message when the evaluation rejected. Closing the page
   * afterwards never changes the answer.
   */
  function FetchAndProcessPage(run: PageRun): (md: string)
    ensures run.PageFailed? ==> md == ProcessFailure + run.message
    ensures run.ScriptsFailed? && run.fallback.Threw? ==> md == ExtractFailure + run.fallback.message
    ensures run.ScriptsFailed? && run.fallback.Returned? ==> md == FallbackText(run.fallback.value)
    ensures run.ScriptsLoaded? && run.conversion.Converted? ==> md == run.conversion.markdown
    ensures run.ScriptsLoaded? && run.conversion.ConverterThrew? ==> md == FallbackText(run.snapshot)
    ensures run.ScriptsLoaded? && run.conversion.EvaluateFailed? ==> md == ProcessFailure + run.conversion.message
  {
    match run
    case PageFailed(msg) => ProcessFailure + msg
    case ScriptsFailed(Threw(msg)) => ExtractFailure + msg
    case ScriptsFailed(Returned(page)) => FallbackText(page)
    case ScriptsLoaded(page, Converted(text)) => text
    case ScriptsLoaded(page, ConverterThrew) => FallbackText(page)
    case ScriptsLoaded(page, EvaluateFailed(msg)) => ProcessFailure + msg
  }

  /** The page rendered and some in-page evaluation answered. */
  predicate Rendered(run: PageRun) {
    match run
    case PageFailed(_) => false
    case ScriptsFailed(fallback) => fallback.Returned?
    case ScriptsLoaded(_, conversion) => !conversion.EvaluateFailed?
  }

  /** The converter's markdown or the raw-text fallback of the page. */
  predicate IsPageContent(md: string, run: PageRun) {
    (run.ScriptsLoaded? && run.conversion.Converted? && md == run.conversion.markdown)
    || (run.ScriptsFailed? && run.fallback.Returned? && md == FallbackText(run.fallback.value))
    || (run.ScriptsLoaded? && md == FallbackText(run.snapshot))
  }

  /**
   * A page that rendered never yields an error text: the result is the converter's markdown or
   * the raw-text fallback; a page that did not render yields one of the two failure texts.
   */
  lemma RenderedPageGivesContent(run: PageRun)
    ensures Rendered(run) ==> IsPageContent(FetchAndProcessPage(run), run)
    ensures !Rendered(run) ==>
      StartsWith(FetchAndProcessPage(run), ProcessFailure) || StartsWith(FetchAndProcessPage(run), ExtractFailure)
  {
    match run
    case PageFailed(msg) => PrefixOfConcat(ProcessFailure, msg);
    case ScriptsFailed(Threw(msg)) => PrefixOfConcat(ExtractFailure, msg);
    case ScriptsFailed(Returned(page)) =>
    case ScriptsLoaded(page, Converted(text)) =>
    case ScriptsLoaded(page, ConverterThrew) =>
    case ScriptsLoaded(page, EvaluateFailed(msg)) => PrefixOfConcat(ProcessFailure, msg);
  }

  /** Both fallbacks format the same snapshot the same way: a failed script load and a failed extraction agree. */
  lemma FallbacksAgree(page: PageSnapshot)
    ensures FetchAndProcessPage(ScriptsFailed(Returned(page))) == FetchAndProcessPage(ScriptsLoaded(page, ConverterThrew))
  {
  }

  /**
   * The metadata the video page yields. Each field is the trimmed text of its element, or absent
   * when the element is missing; an absent field prints as `undefined`.
   */
  datatype VideoMeta = VideoMeta(
    title: Option<string>,
    author: Option<string>,
    description: Option<string>,
    viewCount: Option<string>,
    uploadDate: Option<string>,
    likeCount: Option<string>)

  /** One run of the video strategy. */
  datatype VideoRun =
      /** Opening a page threw, so there is no page to close. */
    | NoVideoPage(message: string)
      /** A page was opened; `meta` is what navigating and reading it gave, `closeError` what closing it threw, if anything. */
    | VideoPage(meta: Outcome<VideoMeta>, closeError: Option<string>)

  /** Prefix of the text returned when the metadata could not be read. */
  const VideoFailure := "Failed to extract YouTube metadata: "

  /** How a template prints an optional field. */
  function Shown(field: Option<string>): string {
    match field case Some(text) => text case None => "undefined"
  }

  /** The tab run that indents the lines of the video template. */
  const VideoIndent := "\t\t\t\t\t\t"

  /** The video document: title, information list, description and the video URL. */
  function VideoMarkdown(meta: VideoMeta, url: string): (md: string)
    ensures StartsWith(md, "# " + Shown(meta.title) + "\n")
    ensures StartsWith(md, "# ")
    ensures EndsWith(md, "Video URL: " + url)
    ensures Contains(md, "- **Author**: " + Shown(meta.author) + "\n")
  {
    var head := "# " + Shown(meta.title) + "\n";
    var author := "- **Author**: " + Shown(meta.author) + "\n";
    var rest := VideoIndent + "- **Views**: " + Shown(meta.viewCount) + "\n"
      + VideoIndent + "- **Upload Date**: " + Shown(meta.uploadDate) + "\n"
      + VideoIndent + "- **Likes**: " + Shown(meta.likeCount) + "\n\n"
      + VideoIndent + "## Description\n"
      + VideoIndent + Shown(meta.description) + "\n\n"
      + VideoIndent + "Video URL: " + url;
    var before := head + VideoIndent + "## Video Information\n" + VideoIndent;
    ConcatParts(before, author, rest);
    PrefixOfConcat(head, VideoIndent + "## Video Information\n" + VideoIndent);
    StartsWithExtended(before, head, author);
    StartsWithExtended(before + author, head, rest);
    var tail := "Video URL: " + url;
    assert EndsWith(rest, tail);
    EndsWithPrefixed(before + author, rest, tail);
    PrefixOfConcat("# ", Shown(meta.title) + "\n");
    assert "# " + (Shown(meta.title) + "\n") == head;
    StartsWithShorter(before + author + rest, head, "# ");
    before + author + rest
  }

  /**
   * `getYouTubeMetadata`: the document, or the failure text when the page could not be opened or
   * read. A close that throws replaces either with an exception.
   */
  function YouTubeMetadata(run: VideoRun, url: string): (r: Outcome<string>)
    ensures run.NoVideoPage? ==> r == Returned(VideoFailure + run.message)
    ensures run.VideoPage? && run.closeError.Some? ==> r == Threw(run.closeError.value)
    ensures run.VideoPage? && run.closeError.None? && run.meta.Returned? ==> r == Returned(VideoMarkdown(run.meta.value, url))
    ensures run.VideoPage? && run.closeError.None? && run.meta.Threw? ==> r == Returned(VideoFailure + run.meta.message)
  {
    match run
    case NoVideoPage(msg) => Returned(VideoFailure + msg)
    case VideoPage(meta, Some(closeMessage)) => Threw(closeMessage)
    case VideoPage(meta, None) =>
      match meta
        case Returned(m) => Returned(VideoMarkdown(m, url))
        case Threw(msg) => Returned(VideoFailure + msg)
  }

  lemma FailureTextIsNotDocument(msg: string)
    ensures StartsWith(VideoFailure + msg, VideoFailure)
    ensures !StartsWith(VideoFailure + msg, "# ")
  {
    PrefixOfConcat(VideoFailure, msg);
    assert (VideoFailure + msg)[0] == 'F';
  }

  /** A video run that returns text tells metadata from failure by its first line alone. */
  lemma VideoOutcomeByPrefix(run: VideoRun, url: string)
    requires YouTubeMetadata(run, url).Returned?
    ensures StartsWith(YouTubeMetadata(run, url).value, "# ") <==> run.VideoPage? && run.meta.Returned?
    ensures StartsWith(YouTubeMetadata(run, url).value, VideoFailure) <==> !(run.VideoPage? && run.meta.Returned?)
  {
    match run
    case NoVideoPage(msg) => FailureTextIsNotDocument(msg);
    case VideoPage(Threw(msg), None) => FailureTextIsNotDocument(msg);
    case VideoPage(Returned(meta), None) =>
      var text := VideoMarkdown(meta, url);
      assert text[0] == '#';
      assert !StartsWith(text, VideoFailure) by {
        assert |VideoFailure| <= |text| ==> text[..|VideoFailure|][0] == '#';
      }
  }
}
