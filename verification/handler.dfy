/**
 * The two request handlers: the Worker's entry gate, which rate-limits callers without the backend
 * token and forwards the rest to the Browser object, and the Browser object's `fetch`, which checks
 * the request in a fixed order and then serves one page or a crawl of its subpages.
 */
module Handler {
  import opened Wrappers
  import opened Strings
  import UrlCheck
  import Session
  import Links
  import Dispatch

  const MethodNotAllowed := "Method Not Allowed"
  const CrawlNeedsJson := "Error: Crawl subpages can only be enabled with JSON content type"
  const InvalidUrlMessage := "Invalid URL provided, should be a full URL starting with http:// or https://"
  const CrawlFailure := "Failed to crawl subpages"
  const ServerError := "Server error"
  const BearerPrefix := "Bearer "

  /**
   * What the handlers read of a request: the HTTP method (`verb`), the `url`, `htmlDetails`, `subpages` and
   * `llmFilter` query parameters, and the `content-type` and `Authorization` headers.
   */
  datatype Request = Request(
    verb: string,
    url: Option<string>,
    htmlDetails: Option<string>,
    subpages: Option<string>,
    llmFilter: Option<string>,
    contentType: Option<string>,
    authorization: Option<string>)

  /** Response bodies: the help page, a JSON error object, a JSON item list, or plain text. */
  datatype Body =
    | HelpPage
    | ErrorBody(error: string, message: Option<string>, url: Option<string>)
    | ItemsBody(items: seq<Dispatch.Item>)
    | TextBody(text: string)

  datatype Response = Response(status: nat, body: Body)

  /** A query flag is on only when it reads exactly `true`. */
  predicate Flag(v: Option<string>) {
    v == Some("true")
  }

  predicate WantsJson(req: Request) {
    req.contentType == Some("application/json")
  }

  /** The token both handlers derive: the header with its first `Bearer ` removed. */
  function StripBearer(header: string): string {
    ReplaceFirst(header, BearerPrefix, "")
  }

  /** The Browser object's token: the stripped header, or empty without one. */
  function RequestToken(auth: Option<string>): string {
    match auth case Some(h) => StripBearer(h) case None => []
  }

  /**
   * The request the Worker hands the Browser object: a new request with the caller's URL and
   * headers, whose method is the default GET whatever method the caller used.
   */
  function Forwarded(req: Request): (fwd: Request)
    ensures fwd.verb == "GET"
    ensures fwd.url == req.url && fwd.authorization == req.authorization && fwd.contentType == req.contentType
    ensures fwd.htmlDetails == req.htmlDetails && fwd.subpages == req.subpages && fwd.llmFilter == req.llmFilter
  {
    req.(verb := "GET")
  }

  /** The entry gate lets a request through unlimited when its stripped header equals the backend token. */
  predicate Privileged(auth: Option<string>, secret: string) {
    auth.Some? && StripBearer(auth.value) == secret
  }

  /** What the entry gate did: its response, and whether it consulted the limiter and forwarded. */
  datatype EntryResult = EntryResult(response: Response, limiterCalled: bool, forwarded: bool)

  /**
   * The Worker's `fetch`: without the backend token the limiter is asked first and a refusal
   * answers 429; an exception from the limiter or from the Browser object answers 500.
   */
  function EntryFetch(auth: Option<string>, secret: string, limiter: Outcome<bool>, forward: Outcome<Response>): (r: EntryResult)
    ensures r.limiterCalled <==> !Privileged(auth, secret)
    ensures r.forwarded <==> Privileged(auth, secret) || limiter == Returned(true)
    ensures !Privileged(auth, secret) && limiter == Returned(false) ==>
      r.response == Response(429, ErrorBody(Dispatch.RateLimitMessage, None, None))
    ensures !Privileged(auth, secret) && limiter.Threw? ==>
      r.response == Response(500, ErrorBody(ServerError, Some(limiter.message), None))
    ensures r.forwarded ==> r.response == match forward
      case Returned(resp) => resp
      case Threw(msg) => Response(500, ErrorBody(ServerError, Some(msg), None))
  {
    var privileged := Privileged(auth, secret);
    if !privileged && limiter.Threw? then
      EntryResult(Response(500, ErrorBody(ServerError, Some(limiter.message), None)), true, false)
    else if !privileged && !limiter.value then
      EntryResult(Response(429, ErrorBody(Dispatch.RateLimitMessage, None, None)), true, false)
    else
      match forward
      case Returned(resp) => EntryResult(resp, !privileged, true)
      case Threw(msg) => EntryResult(Response(500, ErrorBody(ServerError, Some(msg), None)), !privileged, true)
  }

  /** `Bearer <token>` and the bare token both pass the entry gate, and the Browser object reads the same token. */
  lemma BearerTokenAdmitted(secret: string)
    ensures Privileged(Some(BearerPrefix + secret), secret)
    ensures RequestToken(Some(BearerPrefix + secret)) == secret
  {
    ReplaceFirstAtFront(BearerPrefix, "", secret);
  }

  /**
   * The two gates agree whenever the backend token is not empty: a request passes the entry gate
   * unlimited exactly when the Browser object skips its per-URL limiter. With an empty token a
   * request without the header is limited at the entry but not per URL.
   */
  lemma GatesAgree(auth: Option<string>, svc: Dispatch.Services, detailed: bool, llm: bool)
    ensures Privileged(auth, svc.secret) ==> !Dispatch.Limited(Dispatch.Options(detailed, llm, RequestToken(auth)), svc)
    ensures svc.secret != [] && !Privileged(auth, svc.secret) ==>
      Dispatch.Limited(Dispatch.Options(detailed, llm, RequestToken(auth)), svc)
    ensures svc.secret == [] && auth.None? ==>
      !Privileged(auth, svc.secret) && !Dispatch.Limited(Dispatch.Options(detailed, llm, RequestToken(auth)), svc)
  {
  }

  /** One crawl of the base page: opening or navigating threw, or the anchors read (absent when reading threw) and the close. */
  datatype CrawlRun =
    | CrawlFailed(message: string)
    | CrawlPage(anchors: Option<seq<string>>, closeError: Option<string>)

  /** The outside world of the Browser object: the batch's services, the launch and cleanup answers, and the crawl of a page. */
  datatype World = World(
    svc: Dispatch.Services,
    launch: nat -> bool,
    cleanup: nat -> bool,
    crawl: string -> CrawlRun)

  /** What a request did: the response, the session state and cache afterwards, and each URL's calls. */
  datatype Handled = Handled(response: Response, session: Session.State, cache: map<string, string>, trace: seq<seq<Dispatch.Effect>>)

  /** The options the Browser object holds for the batch of a request. */
  function RequestOptions(req: Request): Dispatch.Options {
    Dispatch.Options(Flag(req.htmlDetails), Flag(req.llmFilter), RequestToken(req.authorization))
  }

  /** The links a crawl hands to the batch. */
  function CrawledLinks(anchors: Option<seq<string>>, base: string): (links: seq<string>)
    ensures |links| <= Links.MaxSubpages
    ensures Links.NoDuplicates(links)
    ensures forall l :: l in links ==> StartsWith(l, base)
    ensures anchors.None? ==> links == []
    ensures anchors.Some? ==> links == Links.CrawlLinks(anchors.value, base)
    ensures anchors.Some? ==> forall l :: l in links ==> l in anchors.value
  {
    Links.CrawlLinks(match anchors case Some(a) => a case None => [], base)
  }

  /** `crawlSubpages`: collect the links, run the batch on them, answer with the item list. */
  function CrawlSubpages(base: string, opts: Dispatch.Options, session: Session.State, cache: map<string, string>, w: World): (h: Handled)
    requires Session.Usable(session.browser)
    ensures w.crawl(base).CrawlFailed? || (w.crawl(base).CrawlPage? && w.crawl(base).closeError.Some?) ==>
      && h.response.status == 500 && h.response.body.ErrorBody? && h.response.body.error == CrawlFailure
      && h.response.body.url == Some(base)
      && h.session == session && h.cache == cache && h.trace == []
    ensures w.crawl(base).CrawlPage? && w.crawl(base).closeError.None? ==>
      var links := CrawledLinks(w.crawl(base).anchors, base);
      && h.response.body.ItemsBody?
      && |h.response.body.items| == |links|
      && (forall i :: 0 <= i < |links| ==> h.response.body.items[i].url == links[i])
      && h.response.status == Dispatch.JsonStatus(h.response.body.items)
    ensures w.crawl(base).CrawlPage? && w.crawl(base).closeError.None? ==>
      var b := Dispatch.GetWebsiteMarkdown(CrawledLinks(w.crawl(base).anchors, base), opts, session, cache, w.svc, w.launch, w.cleanup);
      && h.response.body == ItemsBody(b.items)
      && h.session == b.session && h.cache == b.cache && h.trace == b.trace
      && h.session == Session.State(session.browser, 0)
  {
    match w.crawl(base)
    case CrawlFailed(msg) => Handled(Response(500, ErrorBody(CrawlFailure, Some(msg), Some(base))), session, cache, [])
    case CrawlPage(_, Some(msg)) => Handled(Response(500, ErrorBody(CrawlFailure, Some(msg), Some(base))), session, cache, [])
    case CrawlPage(anchors, None) =>
      var links := CrawledLinks(anchors, base);
      var b := Dispatch.GetWebsiteMarkdown(links, opts, session, cache, w.svc, w.launch, w.cleanup);
      Handled(Response(Dispatch.JsonStatus(b.items), ItemsBody(b.items)), b.session, b.cache, b.trace)
  }

  /** `processSinglePage`: a batch of the one URL, answered as its item list or as its text. */
  function SinglePage(url: string, json: bool, opts: Dispatch.Options, session: Session.State, cache: map<string, string>, w: World): (h: Handled)
    requires Session.Usable(session.browser)
    ensures var item := Dispatch.ProcessUrl(url, 0, opts, cache, w.svc).item;
      && (json ==> h.response == Response(Dispatch.JsonStatus([item]), ItemsBody([item])))
      && (!json ==> h.response == Response(Dispatch.TextStatus(item), TextBody(item.md)))
      && h.response.status == (if item.md == Dispatch.RateLimitMessage then 429 else 200)
    ensures var effects := Dispatch.ProcessUrl(url, 0, opts, cache, w.svc).effects;
      && h.session == Session.State(session.browser, 0)
      && h.trace == [effects]
      && h.cache == Dispatch.ApplyWrites(cache, effects)
  {
    var b := Dispatch.GetWebsiteMarkdown([url], opts, session, cache, w.svc, w.launch, w.cleanup);
    var item := b.items[0];
    assert b.items == [item];
    assert b.trace == [b.trace[0]] && b.trace[1..] == [];
    assert Dispatch.Flatten(b.trace) == b.trace[0];
    if json then Handled(Response(Dispatch.JsonStatus(b.items), ItemsBody(b.items)), b.session, b.cache, b.trace)
    else Handled(Response(Dispatch.TextStatus(item), TextBody(item.md)), b.session, b.cache, b.trace)
  }

  /** The request was turned away before a browser was needed. */
  predicate Rejected(req: Request) {
    || req.verb != "GET"
    || (!WantsJson(req) && Flag(req.subpages))
    || req.url.None? || req.url.value == []
    || !UrlCheck.IsValidUrl(req.url.value)
  }

  /**
   * The Browser object's `fetch`, its checks in source order: the method, subpages without JSON,
   * a missing URL (the help page), an invalid URL, the browser; then a crawl or a single page.
   */
  function BrowserFetch(req: Request, session: Session.State, cache: map<string, string>, w: World): (h: Handled)
    ensures req.verb != "GET" ==> h.response == Response(405, ErrorBody(MethodNotAllowed, None, None))
    ensures req.verb == "GET" && !WantsJson(req) && Flag(req.subpages) ==>
      h.response == Response(400, ErrorBody(CrawlNeedsJson, None, None))
    ensures req.verb == "GET" && !(!WantsJson(req) && Flag(req.subpages)) && (req.url.None? || req.url.value == []) ==>
      h.response == Response(200, HelpPage)
    ensures (req.verb == "GET" && !(!WantsJson(req) && Flag(req.subpages)) && req.url.Some? && req.url.value != []
             && !UrlCheck.IsValidUrl(req.url.value)) ==>
      h.response == Response(400, ErrorBody(InvalidUrlMessage, None, None))
    ensures Rejected(req) ==> h.session == session && h.cache == cache && h.trace == []
    ensures !Rejected(req) && !Session.EnsureBrowser(session.browser, w.launch, w.cleanup).ok ==>
      && h.response == Response(500, ErrorBody(Dispatch.NoBrowserMessage, None, None))
      && h.session == session && h.cache == cache && h.trace == []
    ensures !Rejected(req) && Session.EnsureBrowser(session.browser, w.launch, w.cleanup).ok && !Flag(req.subpages) ==>
      var item := Dispatch.ProcessUrl(req.url.value, 0, RequestOptions(req), cache, w.svc).item;
      h.response.body == (if WantsJson(req) then ItemsBody([item]) else TextBody(item.md))
    ensures !Rejected(req) && Session.EnsureBrowser(session.browser, w.launch, w.cleanup).ok && !Flag(req.subpages) ==>
      var p := Dispatch.ProcessUrl(req.url.value, 0, RequestOptions(req), cache, w.svc);
      && h.response.status == (if p.item.md == Dispatch.RateLimitMessage then 429 else 200)
      && h.session == Session.State(Session.EnsureBrowser(session.browser, w.launch, w.cleanup).browser, 0)
      && h.cache == Dispatch.ApplyWrites(cache, p.effects)
      && h.trace == [p.effects]
    ensures !Rejected(req) && Session.EnsureBrowser(session.browser, w.launch, w.cleanup).ok && Flag(req.subpages)
            && w.crawl(req.url.value).CrawlPage? && w.crawl(req.url.value).closeError.None? ==>
      h.session == Session.State(Session.EnsureBrowser(session.browser, w.launch, w.cleanup).browser, 0)
  {
    if req.verb != "GET" then
      Handled(Response(405, ErrorBody(MethodNotAllowed, None, None)), session, cache, [])
    else if !WantsJson(req) && Flag(req.subpages) then
      Handled(Response(400, ErrorBody(CrawlNeedsJson, None, None)), session, cache, [])
    else if req.url.None? || req.url.value == [] then
      Handled(Response(200, HelpPage), session, cache, [])
    else if !UrlCheck.IsValidUrl(req.url.value) then
      Handled(Response(400, ErrorBody(InvalidUrlMessage, None, None)), session, cache, [])
    else
      var ensured := Session.EnsureBrowser(session.browser, w.launch, w.cleanup);
      if !ensured.ok then
        Handled(Response(500, ErrorBody(Dispatch.NoBrowserMessage, None, None)), session, cache, [])
      else
        var ready := session.(browser := ensured.browser);
        if Flag(req.subpages) then CrawlSubpages(req.url.value, RequestOptions(req), ready, cache, w)
        else SinglePage(req.url.value, WantsJson(req), RequestOptions(req), ready, cache, w)
  }

  /**
   * Through `fetch` the batch's own browser check always succeeds, so the item list never holds
   * the browser-unavailable item: a crawl answers one item per crawled link, in link order.
   */
  lemma CrawlItemsFollowLinks(req: Request, session: Session.State, cache: map<string, string>, w: World)
    requires !Rejected(req) && Flag(req.subpages)
    requires Session.EnsureBrowser(session.browser, w.launch, w.cleanup).ok
    requires w.crawl(req.url.value).CrawlPage? && w.crawl(req.url.value).closeError.None?
    ensures var links := CrawledLinks(w.crawl(req.url.value).anchors, req.url.value);
      var h := BrowserFetch(req, session, cache, w);
      && h.response.body.ItemsBody?
      && |h.response.body.items| == |links| <= Links.MaxSubpages
      && forall i :: 0 <= i < |links| ==> h.response.body.items[i].url == links[i]
  {
  }

  /** A crawl whose anchors could not be read still answers 200 with an empty list. */
  lemma UnreadableAnchorsGiveEmptyList(req: Request, session: Session.State, cache: map<string, string>, w: World)
    requires !Rejected(req) && Flag(req.subpages)
    requires Session.EnsureBrowser(session.browser, w.launch, w.cleanup).ok
    requires w.crawl(req.url.value) == CrawlPage(None, None)
    ensures BrowserFetch(req, session, cache, w).response == Response(200, ItemsBody([]))
  {
    var links := CrawledLinks(None, req.url.value);
    assert links == [];
    var h := BrowserFetch(req, session, cache, w);
    assert h.response.body == ItemsBody([]);
  }

  /**
   * Through the Worker the method check of the Browser object never fires: the forwarded request
   * is always a GET, so no caller of the Worker is answered 405, whatever method it used.
   */
  lemma WorkerNeverAnswers405(req: Request, limiter: Outcome<bool>, session: Session.State, cache: map<string, string>, w: World)
    ensures var inner := BrowserFetch(Forwarded(req), session, cache, w);
      EntryFetch(req.authorization, w.svc.secret, limiter, Returned(inner.response)).response.status != 405
  {
    var fwd := Forwarded(req);
    if !Rejected(fwd) && Session.EnsureBrowser(session.browser, w.launch, w.cleanup).ok {
      var ready := session.(browser := Session.EnsureBrowser(session.browser, w.launch, w.cleanup).browser);
      if Flag(fwd.subpages) {
        var h := CrawlSubpages(fwd.url.value, RequestOptions(fwd), ready, cache, w);
        assert h.response.status != 405;
      }
    }
  }
}
