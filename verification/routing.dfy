/** Route selection and cache keys of `getWebsiteMarkdown`. */
module Routing {
  import opened Strings
  import UrlCheck

  /** The extraction strategy chosen for a URL. */
  datatype Route =
    | Video
    | TwitterProfile(username: string)
    | TwitterPost(tweetId: string)
    | Generic

  predicate IsVideoUrl(url: string) {
    Contains(url, "youtube.com/watch") || Contains(url, "youtu.be/")
  }

  predicate IsTwitterUrl(url: string) {
    StartsWith(url, "https://x.com") || StartsWith(url, "https://twitter.com")
  }

  /**
   * The route tests in source order: video first, then the Twitter hosts, where the URL is split
   * on `/`, the last piece popped, and the number of pieces left decides profile or post.
   */
  function Classify(url: string): Route {
    if IsVideoUrl(url) then Video
    else if IsTwitterUrl(url) then TwitterRoute(Split(url, '/'))
    else Generic
  }

  /** Profile or post from the pieces of a Twitter URL: pop the last piece and count the rest. */
  function TwitterRoute(parts: seq<string>): Route
    requires |parts| >= 1
  {
    var last := parts[|parts| - 1];
    var kept := parts[..|parts| - 1];
    if |kept| <= 3 || (|kept| == 4 && last == []) then
      TwitterProfile(if |kept| > 0 then kept[|kept| - 1] else [])
    else TwitterPost(last)
  }

  /**
   * The Twitter routes described by the slashes of the URL rather than by the pieces of a split:
   * a profile has at most three slashes, or exactly four with one at the very end; every other
   * Twitter URL is a post whose id is the text after the last slash, which holds no slash.
   */
  lemma TwitterRouteBySlashes(url: string)
    requires !IsVideoUrl(url) && IsTwitterUrl(url)
    ensures Classify(url).TwitterProfile? <==>
      Count(url, '/') <= 3 || (Count(url, '/') == 4 && EndsWith(url, "/"))
    ensures Classify(url).TwitterPost? ==>
      && EndsWith(url, Classify(url).tweetId)
      && '/' !in Classify(url).tweetId
      && |Classify(url).tweetId| < |url|
      && url[|url| - |Classify(url).tweetId| - 1] == '/'
  {
    var parts := Split(url, '/');
    assert Classify(url) == TwitterRoute(parts);
    TwitterUrlSlashes(url);
    var route := TwitterRoute(parts);
    assert route.TwitterProfile? <==>
      |parts| - 1 <= 3 || (|parts| - 1 == 4 && parts[|parts| - 1] == []);
    assert route.TwitterPost? ==> route.tweetId == parts[|parts| - 1];
  }

  /** What the split of a Twitter URL says about its slashes. */
  lemma TwitterUrlSlashes(url: string)
    requires IsTwitterUrl(url)
    ensures var parts := Split(url, '/');
      var last := parts[|parts| - 1];
      && |parts| - 1 == Count(url, '/')
      && (last == [] <==> EndsWith(url, "/"))
      && EndsWith(url, last) && '/' !in last
      && |last| < |url| && url[|url| - |last| - 1] == '/'
  {
    var parts := Split(url, '/');
    var last := parts[|parts| - 1];
    SplitLast(url, '/');
    TwitterUrlHasSlash(url);
    CountPositive(url, '/');
    assert last != [] ==> last[|last| - 1] == url[|url| - 1] && last[|last| - 1] in last;
  }

  lemma TwitterUrlHasSlash(url: string)
    requires IsTwitterUrl(url)
    ensures '/' in url
  {
    if StartsWith(url, "https://x.com") {
      assert url[..13][6] == '/';
    } else {
      assert url[..19][6] == '/';
    }
  }

  /** A video pattern wins even on a Twitter host. */
  lemma VideoBeforeTwitter(url: string)
    requires IsVideoUrl(url) && IsTwitterUrl(url)
    ensures Classify(url) == Video
  {
  }

  predicate TwitterHost(host: string) {
    host == "x.com" || host == "twitter.com"
  }

  lemma HostIsTwitter(host: string, rest: string)
    requires TwitterHost(host)
    ensures IsTwitterUrl("https://" + host + rest)
  {
    var url := "https://" + host + rest;
    assert url[..|"https://" + host|] == "https://" + host;
  }

  /** A URL on a host splits into `https:`, an empty piece, the host, then the pieces of the path. */
  lemma SplitUnderHost(host: string, path: string, url: string)
    requires '/' !in host
    requires url == "https://" + host + "/" + path
    ensures Split(url, '/') == ["https:", "", host] + Split(path, '/')
  {
    var x1 := host + ['/'] + path;
    assert url == "https://" + x1;
    HttpsPieces(x1, url);
    SplitAfterScheme("https:", x1, url);
    SplitPiece(host, '/', path);
  }

  /** A scheme, two slashes, then `rest`: the scheme, an empty piece, then the pieces of `rest`. */
  lemma SplitAfterScheme(scheme: string, rest: string, url: string)
    requires '/' !in scheme
    requires url == scheme + ['/'] + ([] + ['/'] + rest)
    ensures Split(url, '/') == [scheme, []] + Split(rest, '/')
  {
    SplitPiece([], '/', rest);
    SplitPiece(scheme, '/', [] + ['/'] + rest);
  }

  /** `https://` followed by `rest` is `https:`, a slash, an empty piece, a slash, and `rest`. */
  lemma HttpsPieces(rest: string, url: string)
    requires url == "https://" + rest
    ensures url == "https:" + ['/'] + ([] + ['/'] + rest)
  {
    assert "https:" + ['/'] + ['/'] == "https://";
    assert "https:" + ['/'] + ([] + ['/'] + rest) == ("https:" + ['/'] + ['/']) + rest;
  }

  lemma SplitProfileUrl(host: string, name: string, url: string)
    requires '/' !in host && '/' !in name
    requires url == "https://" + host + "/" + name
    ensures Split(url, '/') == ["https:", "", host, name]
  {
    SplitUnderHost(host, name, url);
    SplitWhole(name, '/');
  }

  lemma SplitSlashedProfileUrl(host: string, name: string, url: string)
    requires '/' !in host && '/' !in name
    requires url == "https://" + host + "/" + name + "/"
    ensures Split(url, '/') == ["https:", "", host, name, ""]
  {
    var path := name + ['/'] + [];
    assert url == "https://" + host + "/" + path;
    SplitUnderHost(host, path, url);
    SplitPiece(name, '/', []);
    SplitWhole([], '/');
  }

  lemma SplitStatusUrl(host: string, name: string, id: string, url: string)
    requires '/' !in host && '/' !in name && '/' !in id
    requires url == "https://" + host + "/" + name + "/status/" + id
    ensures Split(url, '/') == ["https:", "", host, name, "status", id]
  {
    var status := "status";
    assert '/' !in status;
    var tail := status + ['/'] + id;
    var path := name + ['/'] + tail;
    assert "/status/" == ['/'] + status + ['/'];
    assert url == "https://" + host + "/" + path;
    SplitUnderHost(host, path, url);
    SplitPiece(name, '/', tail);
    SplitPiece(status, '/', id);
    SplitWhole(id, '/');
  }

  /** A URL on a Twitter host that is not a video URL is routed by the pieces of its split. */
  lemma TwitterClassify(host: string, path: string, url: string)
    requires TwitterHost(host)
    requires url == "https://" + host + "/" + path
    requires !IsVideoUrl(url)
    ensures Classify(url) == TwitterRoute(Split(url, '/'))
  {
    HostIsTwitter(host, "/" + path);
    assert url == "https://" + host + ("/" + path);
  }

  /** A profile URL without a trailing slash takes its username from the host piece, not from the name in the path. */
  lemma BareProfileUsesHost(host: string, name: string, url: string)
    requires TwitterHost(host) && '/' !in name
    requires url == "https://" + host + "/" + name
    requires !IsVideoUrl(url)
    ensures Classify(url) == TwitterProfile(host)
  {
    SplitProfileUrl(host, name, url);
    TwitterClassify(host, name, url);
    assert TwitterRoute(["https:", "", host, name]) == TwitterProfile(host);
  }

  /** With a trailing slash the username is the name in the path. */
  lemma SlashedProfileUsesName(host: string, name: string, url: string)
    requires TwitterHost(host) && '/' !in name
    requires url == "https://" + host + "/" + name + "/"
    requires !IsVideoUrl(url)
    ensures Classify(url) == TwitterProfile(name)
  {
    SplitSlashedProfileUrl(host, name, url);
    assert url == "https://" + host + "/" + (name + "/");
    TwitterClassify(host, name + "/", url);
    assert TwitterRoute(["https:", "", host, name, ""]) == TwitterProfile(name);
  }

  /** A status URL is a post whose id is its last piece, which may be empty. */
  lemma StatusUrlIsPost(host: string, name: string, id: string, url: string)
    requires TwitterHost(host) && '/' !in name && '/' !in id
    requires url == "https://" + host + "/" + name + "/status/" + id
    requires !IsVideoUrl(url)
    ensures Classify(url) == TwitterPost(id)
  {
    SplitStatusUrl(host, name, id, url);
    assert url == "https://" + host + "/" + (name + "/status/" + id);
    TwitterClassify(host, name + "/status/" + id, url);
    assert TwitterRoute(["https:", "", host, name, "status", id]) == TwitterPost(id);
  }

  /** The host URL alone is a profile with an empty username. */
  lemma HostOnlyProfile(host: string, url: string)
    requires '/' !in host
    requires url == "https://" + host
    requires IsTwitterUrl(url) && !IsVideoUrl(url)
    ensures Classify(url) == TwitterProfile("")
  {
    SplitHostUrl(host, url);
    assert TwitterRoute(["https:", "", host]) == TwitterProfile("");
  }

  lemma SplitHostUrl(host: string, url: string)
    requires '/' !in host
    requires url == "https://" + host
    ensures Split(url, '/') == ["https:", "", host]
  {
    assert url == "https:" + ['/'] + ([] + ['/'] + host);
    SplitWhole(host, '/');
    SplitPiece([], '/', host);
    SplitPiece("https:", '/', [] + ['/'] + host);
  }

  /**
   * The evidently intended username: the path segment right after the host, or empty when the
   * URL has no path. Profile or post is decided exactly as in `TwitterRoute`.
   */
  function IntendedTwitterRoute(parts: seq<string>): Route
    requires |parts| >= 1
  {
    match TwitterRoute(parts)
    case TwitterProfile(_) => TwitterProfile(if |parts| >= 4 then parts[3] else [])
    case other => other
  }

  /** `Classify` with the intended username; every other decision is the same. */
  function ClassifyIntended(url: string): (route: Route)
    ensures route.TwitterProfile? <==> Classify(url).TwitterProfile?
    ensures !route.TwitterProfile? ==> route == Classify(url)
  {
    if IsVideoUrl(url) then Video
    else if IsTwitterUrl(url) then IntendedTwitterRoute(Split(url, '/'))
    else Generic
  }

  /** With the intended username a profile URL names its user, with or without the trailing slash. */
  lemma IntendedProfileUsesName(host: string, name: string, url: string, slashed: bool)
    requires TwitterHost(host) && '/' !in name
    requires url == "https://" + host + "/" + name + (if slashed then "/" else "")
    requires !IsVideoUrl(url)
    ensures ClassifyIntended(url) == TwitterProfile(name)
  {
    if slashed {
      SlashedProfileUsesName(host, name, url);
      SplitSlashedProfileUrl(host, name, url);
    } else {
      assert url == "https://" + host + "/" + name;
      BareProfileUsesHost(host, name, url);
      SplitProfileUrl(host, name, url);
    }
  }

  /** The discrepancy on a concrete input: the bare profile URL of `jack` is read as the profile of `x.com`. */
  lemma BareProfileMisread(url: string)
    requires url == "https://x.com/jack"
    ensures Classify(url) == TwitterProfile("x.com")
    ensures ClassifyIntended(url) == TwitterProfile("jack")
  {
    assert '/' !in "jack";
    assert url == "https://" + "x.com" + "/" + "jack";
    assert !IsVideoUrl(url) by {
      MissingCharRulesOut(url, "youtube.com/watch", 'y');
      MissingCharRulesOut(url, "youtu.be/", 'y');
    }
    BareProfileUsesHost("x.com", "jack", url);
    IntendedProfileUsesName("x.com", "jack", url, false);
  }

  /** The generic and video cache key: the URL, then a suffix per requested option. */
  function PageKey(url: string, detailed: bool, llm: bool): (key: string)
    ensures StartsWith(key, url)
    ensures |key| == |url| + (if detailed then 9 else 0) + (if llm then 4 else 0)
  {
    url + (if detailed then "-detailed" else "") + (if llm then "-llm" else "")
  }

  /** The cache key of a tweet: its id alone, whatever options the request carries. */
  function TweetKey(tweetId: string): (key: string)
    ensures StartsWith(key, "Twitter:") && key[8..] == tweetId
  {
    "Twitter:" + tweetId
  }

  /** For one URL the four combinations of options give four different keys. */
  lemma PageKeysDistinct(url: string, d1: bool, l1: bool, d2: bool, l2: bool)
    requires d1 != d2 || l1 != l2
    ensures PageKey(url, d1, l1) != PageKey(url, d2, l2)
  {
    var k1, k2 := PageKey(url, d1, l1), PageKey(url, d2, l2);
    assert |k1| != |k2|;
  }

  /** A tweet key never coincides with the page key of a URL that passed the URL gate. */
  lemma TweetKeyApart(tweetId: string, url: string, detailed: bool, llm: bool)
    requires UrlCheck.IsValidUrl(url)
    ensures TweetKey(tweetId) != PageKey(url, detailed, llm)
  {
    var k := PageKey(url, detailed, llm);
    assert k[0] == url[0] == 'h';
    assert TweetKey(tweetId)[0] == 'T';
  }

  /** Page keys of different URLs can coincide: a URL ending in `-detailed` shares its key with the detailed form of its stem. */
  lemma PageKeysOfDifferentUrlsMayCollide()
    ensures PageKey("https://a.io/x-detailed", false, false) == PageKey("https://a.io/x", true, false)
  {
  }
}
