/**
 * The scorers of `extract_features_from_url` that look only at the URL text
 * and its network location: features 2 to 8, 11 and 12 (feature 1 is in
 * `IpAddress`). Each returns 1 (legitimate), 0 (suspicious) or -1 (phishing).
 */
module Lexical {
  import opened Scoring
  import opened Wrappers
  import opened Text
  import Url

  /** Feature 2, `URL_Length`: under 54 characters 1, under 75 characters 0, otherwise -1. */
  function UrlLength(url: string): (r: Score)
    ensures r == 1 <==> |url| < 54
    ensures r == 0 <==> 54 <= |url| < 75
    ensures r == -1 <==> 75 <= |url|
  {
    if |url| < 54 then 1
    else if |url| < 75 then 0
    else -1
  }

  /** A longer URL never scores higher. */
  lemma UrlLengthMonotone(a: string, b: string)
    requires |a| <= |b|
    ensures UrlLength(b) <= UrlLength(a)
  {
  }

  /** The shortening services looked for, in the order they are tried. */
  const Shorteners: seq<string> := [
    "bit.ly", "goo.gl", "shorte.st", "x.co", "ow.ly", "tinyurl.com",
    "t.co", "bit.do", "adf.ly", "bitly.com", "short.to", "rb.gy",
    "cutt.ly", "is.gd", "buff.ly", "tiny.cc", "lnkd.in"
  ]

  /** Feature 3, `Shortining_Service`, as a value: -1 when any service name occurs in the lower-cased URL. */
  function ShorteningScore(url: string): (r: Score)
    ensures r == 1 || r == -1
  {
    if exists k :: 0 <= k < |Shorteners| && Contains(Lower(url), Shorteners[k]) then -1 else 1
  }

  /** Feature 3, `Shortining_Service`: the scan over the list that stops at the first service found. */
  method ShorteningService(url: string) returns (r: Score)
    ensures r == ShorteningScore(url)
    ensures r == -1 ==> exists k :: 0 <= k < |Shorteners| && Contains(Lower(url), Shorteners[k])
  {
    var k := 0;
    while k < |Shorteners|
      invariant 0 <= k <= |Shorteners|
      invariant forall m :: 0 <= m < k ==> !Contains(Lower(url), Shorteners[m])
    {
      if Contains(Lower(url), Shorteners[k]) {
        return -1;
      }
      k := k + 1;
    }
    return 1;
  }

  /** A service name occurring anywhere in the lower-cased URL is enough. */
  lemma ShortenedWhenOccurs(url: string, k: int, i: int)
    requires 0 <= k < |Shorteners|
    requires 0 <= i && i + |Shorteners[k]| <= |url|
    requires Lower(url[i..i + |Shorteners[k]|]) == Shorteners[k]
    ensures ShorteningScore(url) == -1
  {
    LowerSlice(url, i, i + |Shorteners[k]|);
    ContainsAt(Lower(url), Shorteners[k], i);
  }

  /** The test is a substring test on the whole URL: `t.co` is found inside `microsoft.com`. */
  lemma MicrosoftLooksShortened()
    ensures ShorteningScore("http://microsoft.com") == -1
  {
    var u := "http://microsoft.com";
    assert u[15..19] == "t.co";
    LowerFixesLower("t.co");
    ShortenedWhenOccurs(u, 6, 15);
  }

  /** `bit.ly` links are shortened. */
  lemma BitlyIsShortened()
    ensures ShorteningScore("http://bit.ly/xyz") == -1
  {
    var u := "http://bit.ly/xyz";
    assert u[7..13] == "bit.ly";
    LowerFixesLower("bit.ly");
    ShortenedWhenOccurs(u, 0, 7);
  }

  /** Feature 4, `having_At_Symbol`: -1 when `@` occurs in the URL. */
  function HavingAtSymbol(url: string): (r: Score)
    ensures r == -1 <==> '@' in url
    ensures r == 1 <==> '@' !in url
  {
    if '@' in url then -1 else 1
  }

  /** The URL without its `http://` or `https://` prefix. */
  function StripScheme(url: string): (rest: string)
    ensures |rest| <= |url|
  {
    if StartsWith(url, "http://") then url[7..]
    else if StartsWith(url, "https://") then url[8..]
    else url
  }

  /** Without a `/` there is no `//`. */
  lemma NoSlashNoDoubleSlash(s: string)
    requires '/' !in s
    ensures !Contains(s, "//")
  {
    ContainsIffOccurs(s, "//");
    forall i | 0 <= i < |s|
      ensures !OccursAt(s, "//", i)
    {
      if i + 2 <= |s| {
        assert s[i..i + 2][0] == s[i] != '/';
      }
    }
  }

  /** `//` occurs from the first `/` on exactly when it occurs at all: every occurrence starts with a `/`. */
  lemma DoubleSlashFromFirstSlash(s: string)
    ensures FindChar(s, '/') != -1 && Contains(s[FindChar(s, '/')..], "//") <==> Contains(s, "//")
  {
    var f := FindChar(s, '/');
    if f == -1 {
      NoSlashNoDoubleSlash(s);
    } else {
      ContainsIffOccurs(s, "//");
      ContainsIffOccurs(s[f..], "//");
      if exists i :: OccursAt(s[f..], "//", i) {
        var i :| OccursAt(s[f..], "//", i);
        OccursInSuffix(s, "//", f, i);
      }
      if exists i :: OccursAt(s, "//", i) {
        var i :| OccursAt(s, "//", i);
        assert s[i..i + 2][0] == s[i] == '/';
        OccursInSuffixFrom(s, "//", f, i);
      }
    }
  }

  /** Feature 5, `double_slash_redirecting`: -1 exactly when `//` occurs after the scheme prefix. */
  function DoubleSlashRedirecting(url: string): (r: Score)
    ensures r == -1 <==> Contains(StripScheme(url), "//")
    ensures r == 1 <==> !Contains(StripScheme(url), "//")
  {
    var remaining := StripScheme(url);
    var firstSlash := FindChar(remaining, '/');
    DoubleSlashFromFirstSlash(remaining);
    if firstSlash != -1 && Contains(remaining[firstSlash..], "//") then -1 else 1
  }

  /** Feature 6, `Prefix_Suffix`: -1 when a `-` occurs in the host text before any `:`. */
  function PrefixSuffix(domain: string): (r: Score)
    ensures r == -1 <==> '-' in BeforeChar(domain, ':')
    ensures r == 1 <==> '-' !in BeforeChar(domain, ':')
  {
    if '-' in BeforeChar(domain, ':') then -1 else 1
  }

  /** The scorer is given the full host, so a dash in a subdomain counts. */
  lemma DashInSubdomainCounts()
    ensures PrefixSuffix("my-shop.example.com") == -1
  {
    var d := "my-shop.example.com";
    assert ':' !in d by {
      assert forall i :: 0 <= i < |d| ==> d[i] != ':';
    }
    assert d[2] == '-';
  }

  /** Feature 7, `having_Sub_Domain`, on the subdomain `tldextract` reports (`None` when it raised). */
  function HavingSubDomain(subdomain: Option<string>): (r: Score)
    ensures subdomain.None? ==> r == -1
    ensures subdomain.Some? ==> (r == 1 <==> '.' !in subdomain.value)
    ensures subdomain.Some? ==> (r == 0 <==> CountChar(subdomain.value, '.') == 1)
    ensures subdomain.Some? ==> (r == -1 <==> CountChar(subdomain.value, '.') >= 2)
  {
    match subdomain
    case None => -1
    case Some(sub) =>
      if sub == "" then 1
      else
        var labels := CountChar(sub, '.') + 1;
        if labels == 1 then 1
        else if labels == 2 then 0
        else -1
  }

  /** Putting one more label in front of a subdomain never raises the score. */
  lemma SubDomainMoreLabels(head: string, sub: string)
    ensures HavingSubDomain(Some(head + "." + sub)) <= HavingSubDomain(Some(sub))
  {
    CountCharAppend(head + ".", sub, '.');
    CountCharAppend(head, ".", '.');
    assert CountChar(".", '.') == 1 by {
      assert "."[1..] == "";
    }
  }

  /** Feature 8, `SSLfinal_State`: 1 exactly when the URL starts with `https://`; the host is never consulted. */
  function SslFinalState(url: string, domain: string): (r: int)
    ensures r == 1 <==> StartsWith(url, "https://")
    ensures r == -1 <==> !StartsWith(url, "https://")
  {
    if !StartsWith(url, "https://") then -1
    else if Contains(Lower(domain), "https") && !StartsWith(url, "https://") then -1
    else 1
  }

  /** Feature 11, `port`: -1 for a port in range other than 80 and 443; no port or an unreadable port gives 1. */
  function PortScore(netloc: string): (r: Score)
    ensures r == -1 <==> Url.PortOf(netloc).PortNumber? && Url.PortOf(netloc).n != 80 && Url.PortOf(netloc).n != 443
    ensures r == 1 <==> !(Url.PortOf(netloc).PortNumber? && Url.PortOf(netloc).n != 80 && Url.PortOf(netloc).n != 443)
  {
    match Url.PortOf(netloc)
    case NoPort => 1
    case PortError => 1
    case PortNumber(n) => if n == 80 || n == 443 then 1 else -1
  }

  /** A netloc without a colon has the standard port. */
  lemma NoColonStandardPort(netloc: string)
    requires ':' !in netloc
    ensures PortScore(netloc) == 1
  {
  }

  /** Port 8080 is flagged; a port that does not parse is not. */
  lemma PortScoreExamples()
    ensures PortScore("a:8080") == -1
    ensures PortScore("a:80x") == 1
  {
    Url.PortNumberExample();
    Url.PortErrorExample();
  }

  /**
   * In `host:p` with a port of digits, feature 11 is -1 exactly when the
   * port is in range and is neither 80 nor 443.
   */
  lemma PortScoreOfHostPort(host: string, p: string)
    requires '@' !in host && '[' !in host && ':' !in host
    requires p != "" && AllDigits(p)
    ensures PortScore(host + ":" + p) == -1 <==>
      DecimalValue(p) <= 65535 && DecimalValue(p) != 80 && DecimalValue(p) != 443
  {
    if DecimalValue(p) <= 65535 {
      Url.PortOfHostPort(host, p);
    } else {
      Url.PortOutOfRange(host, p);
    }
  }

  /** Feature 12, `HTTPS_token`: -1 when the lower-cased netloc contains `https` but the URL is not `https://`. */
  function HttpsToken(url: string, domain: string): (r: Score)
    ensures r == -1 <==> Contains(domain, "https") && !StartsWith(url, "https://")
    ensures r == 1 <==> !(Contains(domain, "https") && !StartsWith(url, "https://"))
  {
    if Contains(domain, "https") && !StartsWith(url, "https://") then -1 else 1
  }

  /** A URL that passes `SSLfinal_State` always passes `HTTPS_token`; with `https` in the host the two agree. */
  lemma HttpsTokenAgreesWithSsl(url: string, domain: string)
    ensures SslFinalState(url, domain) == 1 ==> HttpsToken(url, domain) == 1
    ensures Contains(domain, "https") ==> HttpsToken(url, domain) == SslFinalState(url, domain)
  {
  }
}
