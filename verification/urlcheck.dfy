/** The URL gate of the Browser object: the pattern `^(http|https)://[^ "]+$`. */
module UrlCheck {
  import opened Strings

  /** The two characters the address part of the pattern refuses. */
  predicate Forbidden(ch: char) {
    ch == ' ' || ch == '"'
  }

  /** One or more characters, none of them forbidden: the `[^ "]+` part. */
  predicate AddressPart(s: string) {
    |s| > 0 && forall i :: 0 <= i < |s| ==> !Forbidden(s[i])
  }

  /** `u` is `scheme + "://" + rest`. */
  ghost predicate SplitsAs(u: string, scheme: string, rest: string) {
    u == scheme + "://" + rest
  }

  /** The language of the pattern, read directly: a scheme of the two allowed, then `://`, then the address part. */
  ghost predicate MatchesPattern(u: string) {
    exists scheme, rest :: SplitsAs(u, scheme, rest) && (scheme == "http" || scheme == "https") && AddressPart(rest)
  }

  /** `isValidUrl`: a test of the two prefixes and a scan of what follows. */
  function IsValidUrl(u: string): (ok: bool)
    ensures ok <==> MatchesPattern(u)
  {
    var viaHttp := StartsWith(u, "http://") && AddressPart(u[7..]);
    var viaHttps := StartsWith(u, "https://") && AddressPart(u[8..]);
    assert viaHttp ==> SplitsAs(u, "http", u[7..]);
    assert viaHttps ==> SplitsAs(u, "https", u[8..]);
    assert MatchesPattern(u) ==> viaHttp || viaHttps by {
      if MatchesPattern(u) {
        var scheme, rest :| SplitsAs(u, scheme, rest) && (scheme == "http" || scheme == "https") && AddressPart(rest);
        if scheme == "http" {
          assert u[..7] == "http://" && u[7..] == rest;
        } else {
          assert u[..8] == "https://" && u[8..] == rest;
        }
      }
    }
    viaHttp || viaHttps
  }

  /** Examples: the bare scheme, a space or a quote, and other schemes are refused. */
  lemma ValidUrlExamples()
    ensures IsValidUrl("https://example.com/a?b=c")
    ensures IsValidUrl("http://x")
    ensures !IsValidUrl("https://")
    ensures !IsValidUrl("https://a b")
    ensures !IsValidUrl("https://a\"b")
    ensures !IsValidUrl("ftp://example.com")
  {
    assert StartsWith("https://example.com/a?b=c", "https://");
    assert StartsWith("http://x", "http://");
    assert !StartsWith("https://", "http://") by {
      assert "https://"[..7][4] == 's';
    }
    assert !StartsWith("ftp://example.com", "http://") by {
      assert "ftp://example.com"[..7][0] == 'f';
    }
    assert !StartsWith("ftp://example.com", "https://") by {
      assert "ftp://example.com"[..8][0] == 'f';
    }
    assert !AddressPart("https://a b"[8..]) by {
      assert !Forbidden("https://a b"[8..][1]) == false;
    }
    assert !AddressPart("https://a\"b"[8..]) by {
      assert !Forbidden("https://a\"b"[8..][1]) == false;
    }
  }
}
