/**
 * `getWebsiteMarkdown`: one batch of URLs. Each URL passes the per-URL rate limiter unless the
 * request carried the backend token, then is routed to the video, Twitter profile, Twitter post or
 * generic strategy, reading and writing the markdown cache on the way. The outside world is an
 * input: `Services` answers every call, and each URL's processing reports the calls it made.
 */
module Dispatch {
  import opened Wrappers
  import opened Strings
  import Session
  import Routing
  import TweetText
  import PageText

  const RateLimitMessage := "Rate limit exceeded"
  const FailedMessage := "Failed to process page"
  const NoBrowserMessage := "Could not start browser instance"
  const InvalidTweetMessage := "Invalid tweet URL"
  const TweetNotFoundMessage := "Tweet not found"
  const ProfileFailure := "Failed to fetch profile: "

  /** Seconds a page or video entry stays in the cache; tweet entries carry no expiry. */
  const PageTtl: nat := 3600

  /**
   * One element of the result list. `details` is the `errorDetails` of an item built by the
   * per-URL catch, which also carries `status: 500`.
   */
  datatype Item = Item(url: string, md: string, error: bool, details: Option<string>)

  /** A call to the outside world made while processing one URL. */
  datatype Effect =
    | LimitCall
    | CacheRead(key: string)
    | CacheWrite(key: string, value: string, ttl: Option<nat>)
    | BrowserVisit(url: string)
    | TweetLookup(tweetId: string)
    | AiCall(input: string)

  /** The request's options as the Browser object holds them during the batch. */
  datatype Options = Options(detailed: bool, llm: bool, token: string)

  /** One run of the profile strategy. */
  datatype ProfileRun =
      /** Opening a page threw (before the strategy's own `try`). */
    | NoProfilePage(message: string)
      /** A page was opened; `scrape` is what navigating and reading it gave, `closeError` what closing it threw, if anything. */
    | ProfilePage(scrape: Outcome<TweetText.ProfileScrape>, closeError: Option<string>)

  /**
   * The outside world as the batch sees it: the backend token, the limiter's answer for the
   * URL at each position, each strategy's run for a URL, the syndication payload for a tweet id
   * (`None` when the fetch failed or gave no object), and the AI's answer for an input.
   */
  datatype Services = Services(
    secret: string,
    limit: nat -> Outcome<bool>,
    video: string -> PageText.VideoRun,
    profile: string -> ProfileRun,
    tweet: string -> Option<TweetText.Tweet>,
    page: (string, bool) -> PageText.PageRun,
    ai: string -> Outcome<string>)

  /** What processing one URL gave: its item and the calls it made, in order. */
  datatype Processed = Processed(item: Item, effects: seq<Effect>)

  /** Some call among `effects` went to the AI. */
  predicate CallsAi(effects: seq<Effect>) {
    exists e :: e in effects && e.AiCall?
  }

  /** `MD_CACHE.get`: the stored value, or nothing. */
  function Lookup(cache: map<string, string>, key: string): (v: Option<string>)
    ensures v.Some? <==> key in cache
    ensures v.Some? ==> v.value == cache[key]
  {
    if key in cache then Some(cache[key]) else None
  }

  /** JavaScript truthiness of a cache answer: a miss and an empty string are both false. */
  predicate Truthy(v: Option<string>) {
    v.Some? && v.value != []
  }

  /** The item the per-URL catch builds from an exception's message. */
  function Failure(url: string, message: string): Item {
    Item(url, FailedMessage, true, Some(message))
  }

  /** A successful item. */
  function Served(url: string, md: string): Item {
    Item(url, md, false, None)
  }

  /** The video strategy behind the cache: a truthy entry is served, otherwise the metadata is rendered and stored for an hour. */
  function VideoStep(url: string, key: string, cached: Option<string>, svc: Services): (p: Processed)
    ensures p.item.url == url
    ensures Truthy(cached) ==> p == Processed(Served(url, cached.value), [])
    ensures !Truthy(cached) ==> |p.effects| >= 1 && p.effects[0] == BrowserVisit(url)
    ensures !p.item.error ==> (Truthy(cached) && p.item.md == cached.value) || CacheWrite(key, p.item.md, Some(PageTtl)) in p.effects
    ensures !Truthy(cached) && PageText.YouTubeMetadata(svc.video(url), url).Returned? ==>
      var md := PageText.YouTubeMetadata(svc.video(url), url).value;
      p.item == Served(url, md) && p.effects == [BrowserVisit(url), CacheWrite(key, md, Some(PageTtl))]
    ensures !Truthy(cached) && PageText.YouTubeMetadata(svc.video(url), url).Threw? ==>
      p.item == Failure(url, PageText.YouTubeMetadata(svc.video(url), url).message) && p.effects == [BrowserVisit(url)]
    ensures LimitCall !in p.effects && !CallsAi(p.effects)
  {
    if Truthy(cached) then Processed(Served(url, cached.value), [])
    else
      match PageText.YouTubeMetadata(svc.video(url), url)
      case Threw(msg) => Processed(Failure(url, msg), [BrowserVisit(url)])
      case Returned(md) => Processed(Served(url, md), [BrowserVisit(url), CacheWrite(key, md, Some(PageTtl))])
  }

  /**
   * The profile strategy: never cached. The scrape's failure becomes a profile error item; a page
   * that cannot be opened or closed ends in the per-URL catch.
   */
  function ProfileStep(url: string, username: string, svc: Services): (p: Processed)
    ensures p.item.url == url
    ensures p.effects == [BrowserVisit(url)]
    ensures svc.profile(url).ProfilePage? && svc.profile(url).closeError.None? && svc.profile(url).scrape.Returned? ==>
      p.item == Served(url, TweetText.ProfileMarkdown(svc.profile(url).scrape.value, username, url))
    ensures svc.profile(url).ProfilePage? && svc.profile(url).closeError.None? && svc.profile(url).scrape.Threw? ==>
      p.item == Item(url, ProfileFailure + svc.profile(url).scrape.message, true, None)
    ensures svc.profile(url).NoProfilePage? || svc.profile(url).closeError.Some? ==> p.item.md == FailedMessage && p.item.error
  {
    match svc.profile(url)
    case NoProfilePage(msg) => Processed(Failure(url, msg), [BrowserVisit(url)])
    case ProfilePage(_, Some(closeMessage)) => Processed(Failure(url, closeMessage), [BrowserVisit(url)])
    case ProfilePage(Threw(msg), None) => Processed(Item(url, ProfileFailure + msg, true, None), [BrowserVisit(url)])
    case ProfilePage(Returned(scrape), None) =>
      Processed(Served(url, TweetText.ProfileMarkdown(scrape, username, url)), [BrowserVisit(url)])
  }

  /**
   * The post strategy, behind its own cache entry keyed by the tweet id: an empty id is refused,
   * a truthy entry is served, otherwise the syndication payload is formatted and stored without expiry.
   */
  function PostStep(url: string, tweetId: string, cache: map<string, string>, svc: Services): (p: Processed)
    ensures p.item.url == url
    ensures tweetId == [] ==> p == Processed(Item(url, InvalidTweetMessage, true, None), [])
    ensures tweetId != [] ==> |p.effects| >= 1 && p.effects[0] == CacheRead(Routing.TweetKey(tweetId))
    ensures tweetId != [] && Truthy(Lookup(cache, Routing.TweetKey(tweetId))) ==>
      p.item == Served(url, cache[Routing.TweetKey(tweetId)]) && |p.effects| == 1
    ensures forall e :: e in p.effects && e.CacheWrite? ==> e == CacheWrite(Routing.TweetKey(tweetId), p.item.md, None)
    ensures p.item.error ==> (p.item.md == InvalidTweetMessage || p.item.md == TweetNotFoundMessage) && p.item.details.None?
    ensures tweetId != [] && !Truthy(Lookup(cache, Routing.TweetKey(tweetId))) ==>
      var found := svc.tweet(tweetId);
      && (found.None? || found.value.text.None? ==>
            p == Processed(Item(url, TweetNotFoundMessage, true, None), [CacheRead(Routing.TweetKey(tweetId)), TweetLookup(tweetId)]))
      && (found.Some? && found.value.text.Some? ==>
            && p.item == Served(url, TweetText.TweetMarkdown(found.value))
            && p.effects[|p.effects| - 1] == CacheWrite(Routing.TweetKey(tweetId), p.item.md, None))
    ensures LimitCall !in p.effects && !CallsAi(p.effects)
  {
    if tweetId == [] then Processed(Item(url, InvalidTweetMessage, true, None), [])
    else
      var key := Routing.TweetKey(tweetId);
      var found := Lookup(cache, key);
      if Truthy(found) then Processed(Served(url, found.value), [CacheRead(key)])
      else
        var lookedUp := [CacheRead(key), TweetLookup(tweetId)];
        match svc.tweet(tweetId)
        case None => Processed(Item(url, TweetNotFoundMessage, true, None), lookedUp)
        case Some(t) =>
          if t.text.None? then Processed(Item(url, TweetNotFoundMessage, true, None), lookedUp)
          else
            var md := TweetText.TweetMarkdown(t);
            Processed(Served(url, md), lookedUp + [CacheWrite(key, md, None)])
  }

  /**
   * The generic strategy: the cached value whenever there is one (`??`, so even an empty one),
   * otherwise the rendered page; with the LLM filter on and no truthy cache entry the text goes
   * through the AI. The result is stored for an hour, a cache hit included.
   */
  function GenericStep(url: string, key: string, cached: Option<string>, opts: Options, svc: Services): (p: Processed)
    ensures p.item.url == url
    ensures cached.None? && !opts.llm ==> p.item == Served(url, PageText.FetchAndProcessPage(svc.page(url, opts.detailed)))
    ensures opts.llm && !Truthy(cached) ==>
      var input := if cached.Some? then cached.value else PageText.FetchAndProcessPage(svc.page(url, opts.detailed));
      && AiCall(input) in p.effects
      && (svc.ai(input).Returned? ==> p.item == Served(url, svc.ai(input).value))
      && (svc.ai(input).Threw? ==> p.item == Failure(url, svc.ai(input).message) && forall e :: e in p.effects ==> !e.CacheWrite?)
    ensures cached.Some? <==> BrowserVisit(url) !in p.effects
    ensures CallsAi(p.effects) <==> opts.llm && !Truthy(cached)
    ensures LimitCall !in p.effects && |p.effects| >= 1
    ensures !p.item.error ==> p.effects[|p.effects| - 1] == CacheWrite(key, p.item.md, Some(PageTtl))
    ensures cached.Some? && !(opts.llm && !Truthy(cached)) ==> p.item == Served(url, cached.value)
    ensures !p.item.error ==> p.item == Served(url, p.item.md)
    ensures p.item.error ==>
      && opts.llm && !Truthy(cached)
      && p.effects[|p.effects| - 1].AiCall?
      && svc.ai(p.effects[|p.effects| - 1].input).Threw?
  {
    var visit := if cached.Some? then [] else [BrowserVisit(url)];
    var md := if cached.Some? then cached.value else PageText.FetchAndProcessPage(svc.page(url, opts.detailed));
    if opts.llm && !Truthy(cached) then
      match svc.ai(md)
      case Threw(msg) =>
        var effects := visit + [AiCall(md)];
        assert AiCall(md) in effects;
        Processed(Failure(url, msg), effects)
      case Returned(answer) =>
        var effects := visit + [AiCall(md), CacheWrite(key, answer, Some(PageTtl))];
        assert AiCall(md) in effects;
        Processed(Served(url, answer), effects)
    else
      var effects := visit + [CacheWrite(key, md, Some(PageTtl))];
      assert forall e :: e in effects ==> e in visit || e == CacheWrite(key, md, Some(PageTtl));
      Processed(Served(url, md), effects)
  }

  /** The limiter is consulted unless the request's token is the backend token. */
  predicate Limited(opts: Options, svc: Services) {
    opts.token != svc.secret
  }

  /** The URL passed the limiter: it was not consulted, or it answered yes. */
  predicate Admitted(index: nat, opts: Options, svc: Services) {
    !Limited(opts, svc) || svc.limit(index) == Returned(true)
  }

  /** The calls made before routing: the limiter's, when it was consulted. */
  function LimiterEffects(opts: Options, svc: Services): seq<Effect> {
    if Limited(opts, svc) then [LimitCall] else []
  }

  /** A strategy's result behind the read of the page key. */
  function AfterRead(key: string, step: Processed): (p: Processed)
    ensures p.item == step.item && |p.effects| == |step.effects| + 1 && p.effects[0] == CacheRead(key) && p.effects[1..] == step.effects
    ensures CallsAi(p.effects) == CallsAi(step.effects)
    ensures (LimitCall in p.effects) == (LimitCall in step.effects)
  {
    var p := Processed(step.item, [CacheRead(key)] + step.effects);
    assert forall e :: e in p.effects <==> e == CacheRead(key) || e in step.effects;
    p
  }

  /** After the limiter: read the page key, then run the strategy of the URL's route. */
  function RouteStep(url: string, opts: Options, cache: map<string, string>, svc: Services): (p: Processed)
    ensures p.item.url == url
    ensures |p.effects| >= 1 && p.effects[0] == CacheRead(Routing.PageKey(url, opts.detailed, opts.llm))
    ensures LimitCall !in p.effects
    ensures CallsAi(p.effects) <==>
      && opts.llm
      && Routing.Classify(url) == Routing.Generic
      && !Truthy(Lookup(cache, Routing.PageKey(url, opts.detailed, opts.llm)))
    ensures var key := Routing.PageKey(url, opts.detailed, opts.llm);
      var cached := Lookup(cache, key);
      && (Routing.Classify(url) == Routing.Video ==> p == AfterRead(key, VideoStep(url, key, cached, svc)))
      && (Routing.Classify(url).TwitterProfile? ==> p == AfterRead(key, ProfileStep(url, Routing.Classify(url).username, svc)))
      && (Routing.Classify(url).TwitterPost? ==> p == AfterRead(key, PostStep(url, Routing.Classify(url).tweetId, cache, svc)))
      && (Routing.Classify(url) == Routing.Generic ==> p == AfterRead(key, GenericStep(url, key, cached, opts, svc)))
  {
    var key := Routing.PageKey(url, opts.detailed, opts.llm);
    var cached := Lookup(cache, key);
    match Routing.Classify(url)
    case Video => AfterRead(key, VideoStep(url, key, cached, svc))
    case TwitterProfile(username) => AfterRead(key, ProfileStep(url, username, svc))
    case TwitterPost(tweetId) => AfterRead(key, PostStep(url, tweetId, cache, svc))
    case Generic => AfterRead(key, GenericStep(url, key, cached, opts, svc))
  }

  /** `RouteStep` with the intended profile username: the corrected routing of a bare profile URL. */
  function RouteStepIntended(url: string, opts: Options, cache: map<string, string>, svc: Services): (p: Processed)
    ensures p.item.url == url
    ensures |p.effects| >= 1 && p.effects[0] == CacheRead(Routing.PageKey(url, opts.detailed, opts.llm))
    ensures var key := Routing.PageKey(url, opts.detailed, opts.llm);
      var cached := Lookup(cache, key);
      && (Routing.ClassifyIntended(url) == Routing.Video ==> p == AfterRead(key, VideoStep(url, key, cached, svc)))
      && (Routing.ClassifyIntended(url).TwitterProfile? ==>
            p == AfterRead(key, ProfileStep(url, Routing.ClassifyIntended(url).username, svc)))
      && (Routing.ClassifyIntended(url).TwitterPost? ==>
            p == AfterRead(key, PostStep(url, Routing.ClassifyIntended(url).tweetId, cache, svc)))
      && (Routing.ClassifyIntended(url) == Routing.Generic ==> p == AfterRead(key, GenericStep(url, key, cached, opts, svc)))
  {
    var key := Routing.PageKey(url, opts.detailed, opts.llm);
    var cached := Lookup(cache, key);
    match Routing.ClassifyIntended(url)
    case Video => AfterRead(key, VideoStep(url, key, cached, svc))
    case TwitterProfile(username) => AfterRead(key, ProfileStep(url, username, svc))
    case TwitterPost(tweetId) => AfterRead(key, PostStep(url, tweetId, cache, svc))
    case Generic => AfterRead(key, GenericStep(url, key, cached, opts, svc))
  }

  /** The two routings make the same calls and differ at most in the username a profile document names. */
  lemma IntendedDiffersOnlyInUsername(url: string, opts: Options, cache: map<string, string>, svc: Services)
    ensures !Routing.Classify(url).TwitterProfile? ==> RouteStepIntended(url, opts, cache, svc) == RouteStep(url, opts, cache, svc)
    ensures RouteStepIntended(url, opts, cache, svc).effects == RouteStep(url, opts, cache, svc).effects
  {
  }

  /**
   * The discrepancy through the batch: a scraped bare profile URL of `jack` is rendered as the
   * profile of `x.com`, while the intended routing renders the profile of `jack`.
   */
  lemma BareProfileRenderedAsHost(url: string, opts: Options, cache: map<string, string>, svc: Services, scrape: TweetText.ProfileScrape)
    requires url == "https://x.com/jack"
    requires svc.profile(url) == ProfilePage(Returned(scrape), None)
    ensures RouteStep(url, opts, cache, svc).item == Served(url, TweetText.ProfileMarkdown(scrape, "x.com", url))
    ensures RouteStepIntended(url, opts, cache, svc).item == Served(url, TweetText.ProfileMarkdown(scrape, "jack", url))
  {
    Routing.BareProfileMisread(url);
  }

  /**
   * The callback run for the URL at position `index`: the rate limiter first, whose refusal ends
   * the URL before any cache read or page visit and whose exception becomes a failure item;
   * then the routed strategy.
   */
  function ProcessUrl(url: string, index: nat, opts: Options, cache: map<string, string>, svc: Services): (p: Processed)
    ensures p.item.url == url
    ensures Limited(opts, svc) <==> |p.effects| >= 1 && p.effects[0] == LimitCall
    ensures !Limited(opts, svc) ==> LimitCall !in p.effects
    ensures Limited(opts, svc) && svc.limit(index) == Returned(false) ==>
      p == Processed(Item(url, RateLimitMessage, true, None), [LimitCall])
    ensures Limited(opts, svc) && svc.limit(index).Threw? ==>
      p == Processed(Failure(url, svc.limit(index).message), [LimitCall])
    ensures Admitted(index, opts, svc) ==>
      p.effects == LimiterEffects(opts, svc) + RouteStep(url, opts, cache, svc).effects
    ensures Admitted(index, opts, svc) ==> p.item == RouteStep(url, opts, cache, svc).item
  {
    var pre := LimiterEffects(opts, svc);
    if Limited(opts, svc) && svc.limit(index).Threw? then Processed(Failure(url, svc.limit(index).message), pre)
    else if Limited(opts, svc) && !svc.limit(index).value then Processed(Item(url, RateLimitMessage, true, None), pre)
    else
      var routed := RouteStep(url, opts, cache, svc);
      Processed(routed.item, pre + routed.effects)
  }

  /** The cache after the writes among `effects`, applied in order. */
  function ApplyWrites(cache: map<string, string>, effects: seq<Effect>): map<string, string>
    decreases |effects|
  {
    if effects == [] then cache
    else
      var e := effects[0];
      ApplyWrites(if e.CacheWrite? then cache[e.key := e.value] else cache, effects[1..])
  }

  /** Some effect among `effects` writes `key`. */
  predicate Writes(effects: seq<Effect>, key: string) {
    exists e :: e in effects && e.CacheWrite? && e.key == key
  }

  /** Keys nobody writes keep their entry, and every written key is present afterwards with the last value written to it. */
  lemma {:induction false} ApplyWritesFrame(cache: map<string, string>, effects: seq<Effect>, key: string)
    ensures !Writes(effects, key) ==> Lookup(ApplyWrites(cache, effects), key) == Lookup(cache, key)
    ensures Writes(effects, key) ==> key in ApplyWrites(cache, effects)
    decreases |effects|
  {
    if effects != [] {
      var e := effects[0];
      var next := if e.CacheWrite? then cache[e.key := e.value] else cache;
      ApplyWritesFrame(next, effects[1..], key);
      assert forall x :: x in effects[1..] ==> x in effects;
      if Writes(effects, key) && !Writes(effects[1..], key) {
        var w :| w in effects && w.CacheWrite? && w.key == key;
        assert w == e;
      }
    }
  }

  /** The value left behind by a sequence whose last write to `key` stores `value`. */
  lemma {:induction false} ApplyWritesLast(
    cache: map<string, string>, before: seq<Effect>, key: string, value: string, ttl: Option<nat>, after: seq<Effect>)
    requires !Writes(after, key)
    ensures Lookup(ApplyWrites(cache, before + [CacheWrite(key, value, ttl)] + after), key) == Some(value)
    decreases |before|
  {
    var w := CacheWrite(key, value, ttl);
    if before == [] {
      ApplyWritesFrame(cache[key := value], after, key);
      assert ([w] + after)[1..] == after;
    } else {
      var e := before[0];
      var next := if e.CacheWrite? then cache[e.key := e.value] else cache;
      ApplyWritesLast(next, before[1..], key, value, ttl, after);
      assert (before + [w] + after)[1..] == before[1..] + [w] + after;
    }
  }

  /** A sequence that ends by writing `key` leaves the written value behind. */
  lemma ApplyWritesEndingWith(cache: map<string, string>, effects: seq<Effect>, key: string, value: string, ttl: Option<nat>)
    requires |effects| >= 1 && effects[|effects| - 1] == CacheWrite(key, value, ttl)
    ensures Lookup(ApplyWrites(cache, effects), key) == Some(value)
  {
    var n := |effects|;
    assert effects == effects[..n - 1] + [CacheWrite(key, value, ttl)] + [];
    ApplyWritesLast(cache, effects[..n - 1], key, value, ttl, []);
  }

  /** The effects of a whole batch, URL after URL. */
  function Flatten(trace: seq<seq<Effect>>): (r: seq<Effect>)
    ensures forall i, e :: 0 <= i < |trace| && e in trace[i] ==> e in r
    ensures forall e :: e in r ==> exists i :: 0 <= i < |trace| && e in trace[i]
  {
    if trace == [] then [] else trace[0] + Flatten(trace[1..])
  }

  /** Flattening keeps the URLs' order: a trace with one more URL ends with that URL's calls. */
  lemma {:induction false} FlattenSnoc(trace: seq<seq<Effect>>, last: seq<Effect>)
    ensures Flatten([]) == []
    ensures Flatten(trace + [last]) == Flatten(trace) + last
    decreases |trace|
  {
    if trace != [] {
      assert (trace + [last])[1..] == trace[1..] + [last];
      FlattenSnoc(trace[1..], last);
    }
  }

  /** The calls of the URL at position `i` sit between those of the URLs before it and those after it. */
  lemma {:induction false} FlattenSplit(trace: seq<seq<Effect>>, i: nat)
    requires i < |trace|
    ensures Flatten(trace) == Flatten(trace[..i]) + trace[i] + Flatten(trace[i + 1..])
    decreases i
  {
    if i == 0 {
      assert trace[..0] == [];
    } else {
      FlattenSplit(trace[1..], i - 1);
      assert trace[..i][1..] == trace[1..][..i - 1];
      assert trace[1..][i - 1] == trace[i] && trace[1..][i..] == trace[i + 1..];
    }
  }

  /** The outcome of a batch: its items, each URL's calls, the session state and the cache afterwards. */
  datatype Batch = Batch(items: seq<Item>, trace: seq<seq<Effect>>, session: Session.State, cache: map<string, string>)

  /**
   * `getWebsiteMarkdown`: reset the idle counter, make sure a browser runs, then process every URL
   * against the cache as it stood when the batch began; the cache writes land afterwards in
   * input order. Without a browser the batch is a single error item for the first URL.
   */
  function GetWebsiteMarkdown(
    urls: seq<string>, opts: Options, session: Session.State, cache: map<string, string>,
    svc: Services, launch: nat -> bool, cleanup: nat -> bool): (b: Batch)
    ensures b.session.keptAlive == 0
    ensures b.session.browser == Session.EnsureBrowser(session.browser, launch, cleanup).browser
    ensures !Session.EnsureBrowser(session.browser, launch, cleanup).ok ==>
      && b.items == [Item(if |urls| > 0 then urls[0] else [], NoBrowserMessage, true, None)]
      && b.trace == [] && b.cache == cache
    ensures Session.EnsureBrowser(session.browser, launch, cleanup).ok ==>
      && |b.items| == |urls| == |b.trace|
      && (forall i :: 0 <= i < |urls| ==> b.items[i].url == urls[i])
      && (forall i :: 0 <= i < |urls| ==> b.items[i] == ProcessUrl(urls[i], i, opts, cache, svc).item)
      && (forall i :: 0 <= i < |urls| ==> b.trace[i] == ProcessUrl(urls[i], i, opts, cache, svc).effects)
      && b.cache == ApplyWrites(cache, Flatten(b.trace))
  {
    var touched := Session.Touch(session);
    var ensured := Session.EnsureBrowser(touched.browser, launch, cleanup);
    var after := Session.State(ensured.browser, 0);
    if !ensured.ok then
      Batch([Item(if |urls| > 0 then urls[0] else [], NoBrowserMessage, true, None)], [], after, cache)
    else
      var items := seq(|urls|, i requires 0 <= i < |urls| => ProcessUrl(urls[i], i, opts, cache, svc).item);
      var trace := seq(|urls|, i requires 0 <= i < |urls| => ProcessUrl(urls[i], i, opts, cache, svc).effects);
      Batch(items, trace, after, ApplyWrites(cache, Flatten(trace)))
  }

  /** Some item of the list carries the rate-limit text. */
  function AnyRateLimited(items: seq<Item>): (b: bool)
    ensures b <==> exists i :: 0 <= i < |items| && items[i].md == RateLimitMessage
  {
    if items == [] then false
    else if items[0].md == RateLimitMessage then true
    else
      var rest := AnyRateLimited(items[1..]);
      assert rest ==> exists i :: 0 <= i < |items| && items[i].md == RateLimitMessage by {
        if rest {
          var i :| 0 <= i < |items[1..]| && items[1..][i].md == RateLimitMessage;
          assert items[i + 1].md == RateLimitMessage;
        }
      }
      assert (exists i :: 0 <= i < |items| && items[i].md == RateLimitMessage) ==> rest by {
        if exists i :: 0 <= i < |items| && items[i].md == RateLimitMessage {
          var i :| 0 <= i < |items| && items[i].md == RateLimitMessage;
          assert i > 0 && items[1..][i - 1].md == RateLimitMessage;
        }
      }
      rest
  }

  /** The status of a JSON answer: 429 when any item carries the rate-limit text, 200 otherwise. */
  function JsonStatus(items: seq<Item>): (status: nat)
    ensures status == 429 || status == 200
    ensures status == 429 <==> exists i :: 0 <= i < |items| && items[i].md == RateLimitMessage
  {
    if AnyRateLimited(items) then 429 else 200
  }

  /** The status of a plain-text answer, decided by its one item. */
  function TextStatus(item: Item): (status: nat)
    ensures status == 429 <==> item.md == RateLimitMessage
    ensures status == 200 <==> item.md != RateLimitMessage
  {
    if item.md == RateLimitMessage then 429 else 200
  }

  /** A URL the limiter turned away makes the whole JSON answer a 429, whatever the other URLs gave. */
  lemma RefusedUrlMakes429(
    urls: seq<string>, i: nat, opts: Options, session: Session.State, cache: map<string, string>,
    svc: Services, launch: nat -> bool, cleanup: nat -> bool)
    requires i < |urls|
    requires Session.EnsureBrowser(session.browser, launch, cleanup).ok
    requires Limited(opts, svc) && svc.limit(i) == Returned(false)
    ensures JsonStatus(GetWebsiteMarkdown(urls, opts, session, cache, svc, launch, cleanup).items) == 429
  {
    var b := GetWebsiteMarkdown(urls, opts, session, cache, svc, launch, cleanup);
    assert b.items[i].md == RateLimitMessage;
  }

  /** The AI is called only for a generic URL whose page entry is not truthy, and only with the LLM filter on. */
  lemma AiOnlyOnGenericMiss(url: string, index: nat, opts: Options, cache: map<string, string>, svc: Services)
    ensures CallsAi(ProcessUrl(url, index, opts, cache, svc).effects) ==>
      && opts.llm
      && Routing.Classify(url) == Routing.Generic
      && !Truthy(Lookup(cache, Routing.PageKey(url, opts.detailed, opts.llm)))
  {
    var p := ProcessUrl(url, index, opts, cache, svc);
    if CallsAi(p.effects) {
      var e :| e in p.effects && e.AiCall?;
      assert Admitted(index, opts, svc);
      assert e in RouteStep(url, opts, cache, svc).effects;
    }
  }

  /** The last call made for a generic URL served without error writes its text under its page key. */
  lemma GenericEndsWithWrite(url: string, i: nat, opts: Options, cache: map<string, string>, svc: Services)
    requires Routing.Classify(url) == Routing.Generic
    requires Admitted(i, opts, svc)
    requires !ProcessUrl(url, i, opts, cache, svc).item.error
    ensures var first := ProcessUrl(url, i, opts, cache, svc);
      && |first.effects| >= 1
      && first.effects[|first.effects| - 1] == CacheWrite(Routing.PageKey(url, opts.detailed, opts.llm), first.item.md, Some(PageTtl))
  {
    var first := ProcessUrl(url, i, opts, cache, svc);
    var key := Routing.PageKey(url, opts.detailed, opts.llm);
    var g := GenericStep(url, key, Lookup(cache, key), opts, svc);
    var routed := [CacheRead(key)] + g.effects;
    assert routed[|routed| - 1] == g.effects[|g.effects| - 1];
    assert first.effects == LimiterEffects(opts, svc) + routed;
    assert first.effects[|first.effects| - 1] == routed[|routed| - 1];
  }

  /** A generic URL served without error leaves its text under its page key. */
  lemma GenericResultStored(url: string, i: nat, opts: Options, cache: map<string, string>, svc: Services)
    requires Routing.Classify(url) == Routing.Generic
    requires Admitted(i, opts, svc)
    requires !ProcessUrl(url, i, opts, cache, svc).item.error
    ensures var first := ProcessUrl(url, i, opts, cache, svc);
      Lookup(ApplyWrites(cache, first.effects), Routing.PageKey(url, opts.detailed, opts.llm)) == Some(first.item.md)
  {
    var first := ProcessUrl(url, i, opts, cache, svc);
    GenericEndsWithWrite(url, i, opts, cache, svc);
    ApplyWritesEndingWith(cache, first.effects, Routing.PageKey(url, opts.detailed, opts.llm), first.item.md, Some(PageTtl));
  }

  /**
   * Through the whole batch: a generic URL served without error leaves its text under its page
   * key in the cache after the batch, unless a later URL of the batch writes the same key.
   */
  lemma GenericResultStoredByBatch(
    urls: seq<string>, i: nat, opts: Options, session: Session.State, cache: map<string, string>,
    svc: Services, launch: nat -> bool, cleanup: nat -> bool)
    requires i < |urls|
    requires Session.EnsureBrowser(session.browser, launch, cleanup).ok
    requires Routing.Classify(urls[i]) == Routing.Generic
    requires Admitted(i, opts, svc)
    requires !ProcessUrl(urls[i], i, opts, cache, svc).item.error
    requires forall j :: i < j < |urls| ==>
      !Writes(ProcessUrl(urls[j], j, opts, cache, svc).effects, Routing.PageKey(urls[i], opts.detailed, opts.llm))
    ensures var b := GetWebsiteMarkdown(urls, opts, session, cache, svc, launch, cleanup);
      Lookup(b.cache, Routing.PageKey(urls[i], opts.detailed, opts.llm)) == Some(b.items[i].md)
  {
    var b := GetWebsiteMarkdown(urls, opts, session, cache, svc, launch, cleanup);
    var key := Routing.PageKey(urls[i], opts.detailed, opts.llm);
    BatchEntryWritesLast(urls, i, opts, session, cache, svc, launch, cleanup);
    TraceWriteSurvives(cache, b.trace, i, key, b.items[i].md, Some(PageTtl));
  }

  /** In the batch trace, the entry of such a URL ends by writing its text, and no later entry writes its key. */
  lemma BatchEntryWritesLast(
    urls: seq<string>, i: nat, opts: Options, session: Session.State, cache: map<string, string>,
    svc: Services, launch: nat -> bool, cleanup: nat -> bool)
    requires i < |urls|
    requires Session.EnsureBrowser(session.browser, launch, cleanup).ok
    requires Routing.Classify(urls[i]) == Routing.Generic
    requires Admitted(i, opts, svc)
    requires !ProcessUrl(urls[i], i, opts, cache, svc).item.error
    requires forall j :: i < j < |urls| ==>
      !Writes(ProcessUrl(urls[j], j, opts, cache, svc).effects, Routing.PageKey(urls[i], opts.detailed, opts.llm))
    ensures var b := GetWebsiteMarkdown(urls, opts, session, cache, svc, launch, cleanup);
      var key := Routing.PageKey(urls[i], opts.detailed, opts.llm);
      && i < |b.trace| && i < |b.items| && |b.trace[i]| >= 1
      && b.trace[i][|b.trace[i]| - 1] == CacheWrite(key, b.items[i].md, Some(PageTtl))
      && !Writes(Flatten(b.trace[i + 1..]), key)
  {
    var b := GetWebsiteMarkdown(urls, opts, session, cache, svc, launch, cleanup);
    GenericEndsWithWrite(urls[i], i, opts, cache, svc);
    LaterTraceKeepsKey(urls, i, opts, cache, svc, b.trace, Routing.PageKey(urls[i], opts.detailed, opts.llm));
  }

  /** The URLs after position `i` that do not write `key` make a trace tail that does not write it. */
  lemma LaterTraceKeepsKey(
    urls: seq<string>, i: nat, opts: Options, cache: map<string, string>, svc: Services, trace: seq<seq<Effect>>, key: string)
    requires i < |urls| == |trace|
    requires forall j :: 0 <= j < |urls| ==> trace[j] == ProcessUrl(urls[j], j, opts, cache, svc).effects
    requires forall j :: i < j < |urls| ==> !Writes(ProcessUrl(urls[j], j, opts, cache, svc).effects, key)
    ensures !Writes(Flatten(trace[i + 1..]), key)
  {
    var later := Flatten(trace[i + 1..]);
    forall x | x in later && x.CacheWrite? ensures x.key != key {
      var k :| 0 <= k < |trace[i + 1..]| && x in trace[i + 1..][k];
      assert trace[i + 1..][k] == trace[i + 1 + k];
    }
  }

  /** A trace whose entry `i` ends by writing `key`, with no later entry writing it, leaves that value. */
  lemma TraceWriteSurvives(cache: map<string, string>, trace: seq<seq<Effect>>, i: nat, key: string, value: string, ttl: Option<nat>)
    requires i < |trace| && |trace[i]| >= 1
    requires trace[i][|trace[i]| - 1] == CacheWrite(key, value, ttl)
    requires !Writes(Flatten(trace[i + 1..]), key)
    ensures Lookup(ApplyWrites(cache, Flatten(trace)), key) == Some(value)
  {
    var e := trace[i];
    var n := |e|;
    var later := Flatten(trace[i + 1..]);
    assert e == e[..n - 1] + [CacheWrite(key, value, ttl)];
    FlattenSplit(trace, i);
    assert Flatten(trace) == (Flatten(trace[..i]) + e[..n - 1]) + [CacheWrite(key, value, ttl)] + later;
    ApplyWritesLast(cache, Flatten(trace[..i]) + e[..n - 1], key, value, ttl, later);
  }

  /** A generic URL whose page entry holds a text the filter does not redo is served that text, without page or AI. */
  lemma GenericHitServed(url: string, j: nat, opts: Options, cache: map<string, string>, svc: Services, md: string)
    requires Routing.Classify(url) == Routing.Generic
    requires Admitted(j, opts, svc)
    requires Lookup(cache, Routing.PageKey(url, opts.detailed, opts.llm)) == Some(md)
    requires !opts.llm || md != []
    ensures var p := ProcessUrl(url, j, opts, cache, svc);
      p.item == Served(url, md) && BrowserVisit(url) !in p.effects && !CallsAi(p.effects)
  {
    var key := Routing.PageKey(url, opts.detailed, opts.llm);
    var g := GenericStep(url, key, Lookup(cache, key), opts, svc);
    var p := ProcessUrl(url, j, opts, cache, svc);
    assert p.effects == LimiterEffects(opts, svc) + ([CacheRead(key)] + g.effects);
    assert BrowserVisit(url) !in LimiterEffects(opts, svc) + [CacheRead(key)];
  }

  /**
   * A generic URL served without error is served from the cache the next time: the same text,
   * without opening the page, and without the AI unless the stored text is empty and the filter is on.
   */
  lemma GenericRepeatServedFromCache(
    url: string, i: nat, j: nat, opts: Options, cache: map<string, string>, svc: Services, svc2: Services)
    requires Routing.Classify(url) == Routing.Generic
    requires Admitted(i, opts, svc) && Admitted(j, opts, svc2)
    requires !ProcessUrl(url, i, opts, cache, svc).item.error
    requires !opts.llm || ProcessUrl(url, i, opts, cache, svc).item.md != []
    ensures var first := ProcessUrl(url, i, opts, cache, svc);
      var second := ProcessUrl(url, j, opts, ApplyWrites(cache, first.effects), svc2);
      && second.item == first.item
      && BrowserVisit(url) !in second.effects
      && !CallsAi(second.effects)
  {
    var first := ProcessUrl(url, i, opts, cache, svc);
    GenericResultStored(url, i, opts, cache, svc);
    GenericHitServed(url, j, opts, ApplyWrites(cache, first.effects), svc2, first.item.md);
    var key := Routing.PageKey(url, opts.detailed, opts.llm);
    assert first.item == GenericStep(url, key, Lookup(cache, key), opts, svc).item;
  }

  /**
   * The status rule reads the text, not the limiter: a generic page whose stored text is the
   * rate-limit message turns the answer into a 429 even for a request with the backend token.
   */
  lemma StoredRateLimitTextGives429(
    url: string, opts: Options, session: Session.State, cache: map<string, string>,
    svc: Services, launch: nat -> bool, cleanup: nat -> bool)
    requires Session.EnsureBrowser(session.browser, launch, cleanup).ok
    requires !Limited(opts, svc) && !opts.llm
    requires Routing.Classify(url) == Routing.Generic
    requires Lookup(cache, Routing.PageKey(url, opts.detailed, opts.llm)) == Some(RateLimitMessage)
    ensures JsonStatus(GetWebsiteMarkdown([url], opts, session, cache, svc, launch, cleanup).items) == 429
  {
    var b := GetWebsiteMarkdown([url], opts, session, cache, svc, launch, cleanup);
    assert b.items[0] == ProcessUrl(url, 0, opts, cache, svc).item;
  }

  /**
   * One URL's item does not depend on the other URLs of the batch: two batches that hold the same
   * URL at the same position give it the same item, whatever else they contain.
   */
  lemma ItemsAreIsolated(
    urls: seq<string>, urls2: seq<string>, i: nat, opts: Options, session: Session.State, cache: map<string, string>,
    svc: Services, launch: nat -> bool, cleanup: nat -> bool)
    requires i < |urls| && i < |urls2| && urls[i] == urls2[i]
    requires Session.EnsureBrowser(session.browser, launch, cleanup).ok
    ensures GetWebsiteMarkdown(urls, opts, session, cache, svc, launch, cleanup).items[i]
         == GetWebsiteMarkdown(urls2, opts, session, cache, svc, launch, cleanup).items[i]
  {
  }
}
