# ai-markdown, modelled in Dafny

ai-markdown is a Cloudflare Worker that turns web pages into markdown. The Worker's `fetch` checks the
backend token and otherwise asks a rate limiter. It then hands the request's URL and headers, as a
new GET request, to a single Durable Object, `Browser`. The `Browser` object validates the query,
keeps one headless browser (launch retries, and an `alarm` handler meant to close it when idle,
although nothing schedules the first alarm), and for each URL runs a batch, `getWebsiteMarkdown`:

- a per-URL rate limit unless the request carries the backend token;
- a KV cache keyed by URL and options;
- a YouTube strategy, a Twitter profile strategy, a tweet strategy, and a generic page strategy with
  an optional LLM filter.

The JSON answer is 429 when any item reads "Rate limit exceeded". In subpage mode, the links of the
base page under the base URL are de-duplicated and cut to ten before the batch runs.

This project models all of that logic in `src/index.ts` as pure functions. Everything outside the
program's own code is an input to the model:

- the browser (launch, pages, DOM reads, Readability/Turndown);
- the KV store's contents;
- the rate limiter's answers;
- the tweet API;
- the AI model.

Each strategy takes a datatype describing what its external steps gave or threw. An exception is an
`Outcome` (`Returned`/`Threw`). Each URL's processing also returns the list of external calls it
made (`Effect`: limiter call, cache read and write, page visit, tweet lookup, AI call). The
properties about which calls happen, and when, are stated over that list.

Files, one module each:

| file | module | models |
|---|---|---|
| `wrappers.dfy` | `Wrappers` | `Option`, and `Outcome` for a call that may throw |
| `strings.dfy` | `Strings` | the JavaScript string operations used (`startsWith`, `includes`, `replace` of the first match, `split`, `join`, `trim`) with their algebra |
| `urlcheck.dfy` | `UrlCheck` | `isValidUrl` |
| `session.dfy` | `Session` | `ensureBrowser`, the keep-alive counter and `alarm` |
| `routing.dfy` | `Routing` | the URL routing of the batch, the cache keys |
| `links.dfy` | `Links` | `extractLinks` and the de-duplicated, cut link list of `crawlSubpages` |
| `tweettext.dfy` | `TweetText` | the tweet cleaning of the profile scrape, the profile document, the tweet document |
| `pagetext.dfy` | `PageText` | `fetchAndProcessPage` with its raw-text fallback, `getYouTubeMetadata` |
| `dispatch.dfy` | `Dispatch` | `getWebsiteMarkdown`: limiter, cache, routing, the four strategies, the LLM rule, the status rule |
| `handler.dfy` | `Handler` | the Worker's `fetch` gate and the `Browser` object's `fetch`, `crawlSubpages`, `processSinglePage` |

## Model

| member | source | states |
|---|---|---|
| UrlCheck.IsValidUrl | src/index.ts:582-584 | accepted exactly when the URL is `http` or `https`, then `://`, then at least one character that is neither a space nor a double quote, to the end |
| UrlCheck.ValidUrlExamples | src/index.ts:582-584 | a URL with a query is accepted; a bare scheme, a space, a double quote or an `ftp` scheme are refused |
| Session.EnsureLoop | src/index.ts:130-158 | the retry loop from any remaining count: a connected browser is kept; otherwise the first launch that succeeds wins; a cleanup runs after every failed launch but the last |
| Session.EnsureBrowser | src/index.ts:128-159 | a connected browser is kept without launching. Otherwise it succeeds exactly when one of three launches succeeds. On failure it made three launches and two cleanups, and the browser is unchanged. On success the browser is usable |
| Session.CleanupNeverDecides | src/index.ts:142-151 | whether the session cleanup succeeds or throws never changes the outcome or the browser |
| Session.EnsureTwice | src/index.ts:131-157 | after a successful call, a second call succeeds at once and keeps the same browser |
| Session.Alarm | src/index.ts:586-600 | adds ten seconds; reschedules exactly when the total is below sixty; otherwise closes and forgets the browser, unless closing throws |
| Session.Touch | src/index.ts:339 | each batch resets the keep-alive counter and leaves the browser as it is |
| Session.AlarmsOutcome | src/index.ts:586-600 | after n alarms the counter has grown by 10·n, and the browser is gone once that reaches sixty seconds |
| Session.SixthAlarmClears | src/index.ts:339 | once alarms are delivered, after a batch the browser survives five alarms and is closed by the sixth |
| Session.Tick | src/index.ts:586-600 | idle time fires a scheduled alarm, which schedules the next one exactly while the counter stays below sixty; without a scheduled alarm nothing changes |
| Session.BatchClock | src/index.ts:339 | as written a batch resets the counter and leaves the alarm schedule as it was |
| Session.IdleBrowserNeverClosed | src/index.ts:586-600 | as written, with no alarm scheduled, a batch followed by any amount of idle time leaves the browser open |
| Session.BatchClockIntended | src/index.ts:339 | the corrected batch resets the counter and schedules an alarm |
| Session.TicksFromReset | src/index.ts:586-600 | from a reset counter with an alarm scheduled, five alarms reschedule, the sixth does not, and nothing fires afterwards |
| Session.IntendedIdleCloses | src/index.ts:586-600 | with the corrected batch the browser outlives five idle alarms and is closed from the sixth on |
| Session.AlarmsKeepRescheduling | src/index.ts:588-591 | while the counter stays below sixty every alarm reschedules and keeps the browser |
| Routing.TwitterRouteBySlashes | src/index.ts:373-376 | a Twitter URL is a profile exactly when it has at most three slash-separated pieces before the last, or exactly four with an empty last piece; a post's id is that last piece |
| Routing.TwitterUrlSlashes | src/index.ts:374-375 | a Twitter URL splits into at least three pieces, the first `https:` and the second empty |
| Routing.VideoBeforeTwitter | src/index.ts:365-373 | a URL that is both a video URL and a Twitter URL takes the video route |
| Routing.SplitProfileUrl | src/index.ts:374 | `https://host/name` splits into `https:`, empty, host, name |
| Routing.SplitSlashedProfileUrl | src/index.ts:374 | `https://host/name/` splits into `https:`, empty, host, name, empty |
| Routing.SplitStatusUrl | src/index.ts:374 | `https://host/name/status/id` splits into six pieces ending in `status`, id |
| Routing.SplitHostUrl | src/index.ts:374 | `https://host` splits into `https:`, empty, host |
| Routing.BareProfileUsesHost | src/index.ts:374-380 | as written, `https://x.com/name` is a profile whose username is the host |
| Routing.SlashedProfileUsesName | src/index.ts:374-380 | as written, `https://x.com/name/` is a profile whose username is the name |
| Routing.StatusUrlIsPost | src/index.ts:374-376 | `https://x.com/name/status/id` is a post with that id |
| Routing.HostOnlyProfile | src/index.ts:374-380 | `https://x.com` is a profile with an empty username |
| Routing.BareProfileMisread | src/index.ts:374-380 | for `https://x.com/jack` the code as written takes `x.com` as the username, while the intended route takes `jack` |
| Routing.ClassifyIntended | src/index.ts:365-380 | the corrected routing: same route kinds as written and identical on every non-profile URL; only the profile username differs |
| Routing.IntendedProfileUsesName | src/index.ts:374-380 | the corrected routing takes the path segment after the host as the username, with or without a trailing slash |
| Routing.PageKey | src/index.ts:361 | the page key starts with the URL and adds exactly the lengths of `-detailed` and `-llm` for the options that are on |
| Routing.TweetKey | src/index.ts:440 | the tweet key is `Twitter:` followed by the id |
| Routing.PageKeysDistinct | src/index.ts:361 | one URL under different options never shares a page key |
| Routing.TweetKeyApart | src/index.ts:361-440 | a tweet key never equals the page key of a valid URL |
| Routing.PageKeysOfDifferentUrlsMayCollide | src/index.ts:361 | `…/x-detailed` without options and `…/x` with the detailed option share one page key |
| Links.UnderBase | src/index.ts:244-255 | an href is kept exactly when it is an anchor of the page that starts with the base URL; never more links than anchors |
| Links.UnderBaseSnoc | src/index.ts:244-255 | the filter keeps document order: no anchors give no links, and one more anchor at the end adds that anchor at the end exactly when it starts with the base URL |
| Links.Dedupe | src/index.ts:168 | the set-based walk gives no duplicates and exactly the elements not seen before |
| Links.DedupeKeepsFirstOccurrences | src/index.ts:168 | `Array.from(new Set(xs))` equals the reference list of first occurrences, in order |
| Links.CrawlLinks | src/index.ts:161-168 | at most ten links, no duplicates, each an anchor under the base URL, and exactly the first ten first occurrences |
| Links.FewLinksAllKept | src/index.ts:168 | when at most ten distinct links qualify, every qualifying anchor is crawled |
| TweetText.CutAtCount | src/index.ts:400 | the text before the first engagement count (`\d+K` or `\d+M`): no count starts inside it, and one starts right after it when it is shorter |
| TweetText.MapChars | src/index.ts:401-402 | the no-break space and both bullets are mapped one character for one character, everything else kept |
| TweetText.CollapseSpaces | src/index.ts:406 | no two adjacent whitespace characters remain, and every remaining one is a plain space; the text starts, and ends, with white space exactly when the input does |
| TweetText.WordsCons | src/index.ts:406 | a visible character put in front of a text joins its first word when the text starts visibly, and otherwise forms a word of its own |
| TweetText.CollapseKeepsWords | src/index.ts:406 | collapsing white space keeps the words (maximal runs of visible characters), each whole and in order |
| TweetText.CollapseKeepsText | src/index.ts:406 | collapsing whitespace keeps the visible characters unchanged |
| TweetText.SpaceDashes | src/index.ts:403 | in the result every dash has a plain space directly before and after it |
| TweetText.SpaceDashesWithoutDash | src/index.ts:403 | a text without a dash is left unchanged |
| TweetText.SpaceDashesAtFirstDash | src/index.ts:403 | at the first dash, the white space before it is dropped and the text before it trimmed at the end, the white space after it is dropped, ` - ` is put in its place, and the rest is spaced in turn |
| TweetText.SpaceDashesKeepsText | src/index.ts:403 | normalising the spaces around dashes keeps the visible characters unchanged |
| TweetText.TrimKeepsText | src/index.ts:407 | trimming keeps the visible characters unchanged |
| TweetText.CleanTweetKeepsText | src/index.ts:399-407 | a cleaned tweet has the visible characters of the mapped text before the first count |
| TweetText.TrimKeepsCollapsed | src/index.ts:406-407 | trimming a collapsed text leaves it collapsed |
| TweetText.CleanTweet | src/index.ts:399-407 | the cleaned text has collapsed whitespace, no no-break space, and no leading or trailing whitespace |
| TweetText.NonEmpty | src/index.ts:409 | exactly the non-empty texts |
| TweetText.NonEmptySnoc | src/index.ts:409 | the filter keeps article order: one more text at the end adds that text at the end exactly when it is non-empty |
| TweetText.ProfileTweets | src/index.ts:395-409 | at most ten tweets, each non-empty, clean, and the cleaning of some article |
| TweetText.ProfileName | src/index.ts:411 | the trimmed heading when it is non-empty, otherwise the username |
| TweetText.TweetEntries | src/index.ts:425 | each tweet is headed `### Tweet k` with its one-based position |
| TweetText.NumberedTweetsListEach | src/index.ts:425 | the joined list contains every numbered tweet |
| TweetText.NatText | src/index.ts:425 | the decimal text of a number is digits only, without a leading zero |
| TweetText.NatTextRoundTrip | src/index.ts:425 | reading the decimal text back gives the number |
| TweetText.ProfileDocument | src/index.ts:421-426 | the profile document opens with the `# name (@username)` heading, ends with the profile URL line, and contains the tweet list |
| TweetText.ProfileMarkdown | src/index.ts:411-426 | the profile document of a scrape uses the profile name rule and contains the numbered cleaned tweets |
| TweetText.TweetAuthor | src/index.ts:449 | the user's name, else the screen name, else `Unknown` |
| TweetText.TweetImages | src/index.ts:452 | `none` without photos, empty for an empty list, otherwise a text that contains every photo URL |
| TweetText.TweetMarkdown | src/index.ts:449-455 | the tweet document starts with the author, text and image lines and ends with the raw tweet |
| PageText.Clip | src/index.ts:557 | the first ten thousand characters of the body, or all of it when shorter |
| PageText.FallbackText | src/index.ts:527 | `## title` (or `Untitled Page`) and a blank line, then a prefix of the body of at most ten thousand characters, the whole body when it is short |
| PageText.FetchAndProcessPage | src/index.ts:511-574 | each failure point gives its own text: process failure, extraction failure, raw-text fallback, or the converter's markdown |
| PageText.RenderedPageGivesContent | src/index.ts:518-564 | a page that rendered yields the converter's markdown or the fallback; one that did not yields one of the two failure texts |
| PageText.FallbacksAgree | src/index.ts:527 | the fallback after failed script loading and the one after a failed conversion format a page the same way |
| PageText.VideoMarkdown | src/index.ts:307-317 | the video document starts with `# title`, contains the author line and ends with the video URL; an absent field prints `undefined` |
| PageText.YouTubeMetadata | src/index.ts:283-326 | the document, or the failure text when the page could not be opened or read; a close that throws replaces either with an exception |
| PageText.VideoOutcomeByPrefix | src/index.ts:307-320 | a returned video text starts with `# ` exactly when the metadata was read, and with the failure prefix exactly when not |
| Dispatch.Lookup | src/index.ts:362 | a cache read finds a value exactly when the key is stored, and then the stored value |
| Dispatch.VideoStep | src/index.ts:365-370 | a truthy cached text is served without calls; otherwise the metadata document is served and stored for an hour, or a metadata exception gives a per-URL failure and nothing is stored |
| Dispatch.ProfileStep | src/index.ts:378-434 | one page visit, never cached; the profile document, or the profile failure text when reading the page threw, or a per-URL failure when the page cannot be opened or closing throws |
| Dispatch.PostStep | src/index.ts:437-458 | an empty id is an invalid tweet; a truthy cached tweet text is served; a missing tweet or one without text gives Tweet not found and writes nothing; a found tweet's document is served and stored last under the tweet key, without expiry |
| Dispatch.GenericStep | src/index.ts:462-485 | the page is visited exactly when nothing is cached; without the filter a miss serves the page text; with the filter on and no truthy cached text the AI gets the cached or page text, and its answer is served, or its exception gives a failure with nothing stored; a served text is stored last under the page key for an hour |
| Dispatch.RouteStep | src/index.ts:361-485 | the page key is read first; the limiter is never called; the AI is called exactly on the generic route with the filter on and no truthy cached text; the item and the calls after the read are those of the strategy the as-written routing picks |
| Dispatch.RouteStepIntended | src/index.ts:361-485 | with the corrected routing, the page key is read first, then the item and calls are those of the strategy of the corrected route, so a profile URL is rendered under the username after the host |
| Dispatch.IntendedDiffersOnlyInUsername | src/index.ts:374-380 | the two routings make the same calls and give the same result on every URL that is not a profile |
| Dispatch.BareProfileRenderedAsHost | src/index.ts:374-426 | as written, a scraped `https://x.com/jack` is rendered as the profile of `x.com`; the corrected routing renders `jack` |
| Dispatch.ProcessUrl | src/index.ts:349-496 | the limiter is called, first, exactly when the token differs from the backend token; a refusal gives the rate-limit item, a limiter exception a per-URL failure; otherwise the routed item and calls |
| Dispatch.ApplyWritesFrame | src/index.ts:484 | a key no call writes keeps its cached value |
| Dispatch.ApplyWritesLast | src/index.ts:456-484 | the last write of a key decides its value |
| Dispatch.Flatten | src/index.ts:348-497 | the batch's calls are exactly the calls of its URLs |
| Dispatch.FlattenSnoc | src/index.ts:348-497 | the batch's calls keep URL order: one more URL appends its calls at the end |
| Dispatch.FlattenSplit | src/index.ts:348-497 | the calls of the URL at a position lie between the calls of the URLs before it and those after it |
| Dispatch.TraceWriteSurvives | src/index.ts:484 | a URL whose calls end by writing a key, with no later URL writing it, leaves that value in the cache after the batch |
| Dispatch.GetWebsiteMarkdown | src/index.ts:328-498 | resets the keep-alive counter; without a browser, one browser-unavailable item for the first URL, no calls and the cache unchanged; otherwise one item per URL in order, each that URL's own result, each URL's own calls, and the cache after all writes |
| Dispatch.AnyRateLimited | src/index.ts:177 | true exactly when some item's text is the rate-limit message |
| Dispatch.JsonStatus | src/index.ts:176-179 | 429 exactly when some item's text is the rate-limit message, 200 otherwise |
| Dispatch.TextStatus | src/index.ts:218 | 429 exactly when the item's text is the rate-limit message, 200 otherwise |
| Dispatch.RefusedUrlMakes429 | src/index.ts:353-358 | one refused URL makes the whole JSON answer 429 |
| Dispatch.AiOnlyOnGenericMiss | src/index.ts:464-482 | the AI is called only with the filter on, on the generic route, and without a truthy cached text |
| Dispatch.GenericEndsWithWrite | src/index.ts:484 | the last call for a generic URL served without error writes its text under its page key for an hour |
| Dispatch.GenericResultStored | src/index.ts:484 | a generic URL served without error leaves its text under its page key |
| Dispatch.GenericResultStoredByBatch | src/index.ts:348-497 | after a whole batch, a generic URL served without error has its text under its page key, unless a later URL of the batch writes that key |
| Dispatch.GenericHitServed | src/index.ts:462-464 | a cached generic text the filter does not redo is served as is, without a page visit or AI call |
| Dispatch.GenericRepeatServedFromCache | src/index.ts:462-485 | the same generic URL asked again after its writes gets the same item, without a page visit or AI call |
| Dispatch.StoredRateLimitTextGives429 | src/index.ts:209-211 | a stored page text equal to the rate-limit message makes the answer 429 even for a request the limiter never saw |
| Dispatch.ItemsAreIsolated | src/index.ts:348-497 | a URL's item does not depend on the other URLs of its batch |
| Handler.EntryFetch | src/index.ts:8-36 | the limiter is called exactly without the backend token; a refusal is 429, a limiter exception 500; otherwise the Browser object's answer, or 500 when it throws |
| Handler.BearerTokenAdmitted | src/index.ts:11 | `Bearer <token>` passes the gate and the Browser object reads the bare token |
| Handler.GatesAgree | src/index.ts:81-83 | with a non-empty backend token the entry gate and the per-URL limiter agree; with an empty one a request without the header is limited only at the entry |
| Handler.CrawledLinks | src/index.ts:161-168 | unreadable anchors give no links; otherwise the crawl's link list of the anchors: at most ten distinct anchors under the base URL |
| Handler.CrawlSubpages | src/index.ts:161-196 | a failed crawl is a 500 naming the base URL with nothing else changed; otherwise the items, session, cache and calls of the batch over the crawled links, with the batch status rule and the keep-alive counter reset |
| Handler.SinglePage | src/index.ts:198-221 | the item list or the item's text, with 429 exactly when the item reads as a rate limit; the counter is reset, the calls are the URL's own, and the cache holds their writes |
| Handler.BrowserFetch | src/index.ts:66-126 | the checks in order: 405, 400 for text subpages, the help page, 400 for an invalid URL, 500 without a browser; turned-away requests change nothing; a single page answers its item (429 exactly on the rate-limit text) with the ensured browser, a reset counter, the URL's calls and their writes; a crawl resets the counter |
| Handler.CrawlItemsFollowLinks | src/index.ts:161-184 | through `fetch`, a crawl answers one item per crawled link in link order, never the browser-unavailable item |
| Handler.Forwarded | src/index.ts:22-24 | the Worker hands on the URL, query flags and headers in a GET request |
| Handler.WorkerNeverAnswers405 | src/index.ts:22-75 | through the Worker no caller is answered 405, whatever method it used |
| Handler.UnreadableAnchorsGiveEmptyList | src/index.ts:251-254 | a crawl whose anchors cannot be read answers 200 with an empty list |

## Findings

| source | as written | input that shows it | evidently intended | confidence | as-written member | corrected member |
|---|---|---|---|---|---|---|
| src/index.ts:374-380 | the username is the last piece left after `pop()` removed the final path segment | `https://x.com/jack` gives username `x.com` (with a trailing slash it gives `jack`) | the path segment after the host, `jack` | high; not executed | Dispatch.BareProfileRenderedAsHost | Dispatch.RouteStepIntended |
| src/index.ts:586-600 | `alarm` is the only caller of `setAlarm`, and nothing schedules the first alarm | a batch followed by any amount of idle time: the browser is never closed | a batch schedules the next alarm, so the browser is closed after sixty idle seconds | high; not executed | Session.IdleBrowserNeverClosed | Session.IntendedIdleCloses |

`Routing.Classify` keeps the routing as written, and the batch (`Dispatch.RouteStep`) uses it.
`Routing.BareProfileUsesHost` states its behaviour for every bare profile URL, and
`Routing.BareProfileMisread` shows it on `https://x.com/jack`. The corrected routing is
`Routing.ClassifyIntended`; `Routing.IntendedProfileUsesName` proves it for both URL shapes, and
`Dispatch.RouteStepIntended` is the batch step that uses it.

The batch as written (`Session.BatchClock`) leaves the alarm schedule alone, and the object starts
without an alarm, so `Session.IdleBrowserNeverClosed` holds. The corrected batch
(`Session.BatchClockIntended`) schedules one. The alarm lemmas `Session.AlarmsOutcome`,
`Session.SixthAlarmClears` and `Session.AlarmsKeepRescheduling` describe alarms that are delivered.

Observations that are not bugs, each stated as a lemma:

- The status rule looks at the text. A page whose stored text is "Rate limit exceeded" answers 429 (`Dispatch.StoredRateLimitTextGives429`).
- Page keys append the option suffixes without a separator, so different URLs can share a key (`Routing.PageKeysOfDifferentUrlsMayCollide`).
- With an empty backend token, a request without an `Authorization` header is limited by the Worker but not per URL (`Handler.GatesAgree`).

## Left out

- The browser, DOM, Readability and Turndown are inputs. Each run datatype (`PageRun`, `VideoRun`, `ProfileRun`, `CrawlRun`) says what the page gave or which step threw.
- The KV store is a map read before the batch, with the batch's writes applied afterwards in URL order. Concurrent URLs under `Promise.all` can interleave reads and writes differently, and the model does not cover those interleavings. Expiry times are recorded on each write but never expire anything.
- Two requests to the Browser object can run concurrently and overwrite each other's token and LLM flag, which are instance fields. The model gives each request its own options.
- The rate limiter's answer is an input indexed by the URL's position in the batch. The client IP key it uses is not modelled.
- Which launches and cleanups succeed is an input to the model. `isConnected()` is assumed not to change during a request.
- The AI's prompt text and model name are not modelled. The AI is a function of the page text it is given.
- The tweet API (`getTweet`, its HTTP request and headers) is an input that yields an optional tweet.
- `waitForSelector`, scrolling and timeouts are not modelled: they change only what the DOM read yields, which is an input.
- The smart-quote replacements (`src/index.ts:404-405`) replace the ASCII quote with itself, so the model omits them.
- JavaScript strings are UTF-16. The model slices whole characters, so text outside the Basic Multilingual Plane can be clipped at a different place.
- Inside the in-page fallback, `SIMPLE_CONTENT_MAX_LENGTH` is a module constant referenced from browser-side code. The model assumes it evaluates to 10000. If it did not resolve in the page, the evaluation would reject, which the model can express as `EvaluateFailed`.
- Response headers, content types and the help page's HTML are not modelled. The help page is the `HelpPage` body.
- The `status: 500` field of a per-URL failure item is not modelled; such an item carries `error` and `details`.
- These outer `catch` blocks are not modelled: `getWebsiteMarkdown` (`src/index.ts:499-508`), `processSinglePage` (`src/index.ts:222-241`) and the Browser object's `fetch` (`src/index.ts:116-125`). No modelled step throws past the per-URL catch.
- The logging calls and the `html` help constant are left out.
- Dispatch.Lookup: KV reads and writes never throw in the model. A throwing `MD_CACHE.get` or `put` (`src/index.ts:362, 368, 441, 456, 484`) would end in the per-URL catch as a `Failed to process page` item; the model has no such case.
- Dispatch.GetWebsiteMarkdown: for an empty URL list the browser-unavailable item carries url `""`, where JavaScript has `undefined` (`urls[0]`).
- The profile scroll script refers to `LOAD_MORE_TWEETS_SCROLL_AMOUNT` and `LOAD_MORE_TWEETS_SCROLL_DELAY` from browser-side code (`src/index.ts:389-392`), the same page-context question as `SIMPLE_CONTENT_MAX_LENGTH`. If they did not resolve, every profile scrape would throw, which the model can express as a `Threw` scrape.
- Session.Tick: an alarm's browser close is taken to succeed; `Session.Alarm` alone covers a close that throws.
- TweetText.ProfileTweets: states the bound, cleanliness and origin of each tweet. It does not state that they are the first ten non-empty articles in order, although the body takes exactly those.
- TweetText.TweetMarkdown: states the opening lines and the closing raw line. The time and engagement line in between is not stated.
- PageText.VideoMarkdown: states the title, author and URL lines. The views, upload date, likes and description lines are not stated.
- TweetText.ProfileMarkdown: states the heading, tweet list and URL. The bio line is not stated.
- Handler.BrowserFetch: its own contract states only the session of the crawl branch; the crawl's items, cache and calls are stated through `Handler.CrawlSubpages` and `Handler.CrawlItemsFollowLinks`.
