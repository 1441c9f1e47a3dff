/**
 * The URL normaliser at the head of `extract_features_from_url`: the default
 * scheme, the network location that `urlparse` splits off, the lower-cased
 * `domain`, the `clean_domain` without `www.` and port, and the `port`
 * attribute of the parse result.
 */
module Url {
  import opened Wrappers
  import opened Text

  /** The input URL with `http://` in front unless it already starts with `http://` or `https://`. */
  function Normalize(url: string): (u: string)
    ensures StartsWith(u, "http://") || StartsWith(u, "https://")
    ensures StartsWith(url, "http://") || StartsWith(url, "https://") ==> u == url
    ensures !(StartsWith(url, "http://") || StartsWith(url, "https://")) ==> u == "http://" + url
  {
    if StartsWith(url, "http://") || StartsWith(url, "https://") then url
    else
      assert ("http://" + url)[..7] == "http://";
      "http://" + url
  }

  /** Normalising twice is normalising once. */
  lemma NormalizeIdempotent(url: string)
    ensures Normalize(Normalize(url)) == Normalize(url)
  {
  }

  /** Characters `urlsplit` deletes anywhere in its input before splitting it. */
  const Unsafe: set<char> := {'\t', '\r', '\n'}

  /** Characters that may appear in a scheme name (`urllib.parse.scheme_chars`). */
  predicate IsSchemeChar(c: char) {
    'a' <= c <= 'z' || 'A' <= c <= 'Z' || '0' <= c <= '9' || c == '+' || c == '-' || c == '.'
  }

  /** What `urlsplit` leaves after it has taken off a valid `scheme:` prefix (or the whole text). */
  function AfterScheme(v: string): (rest: string)
    ensures |rest| <= |v|
  {
    var i := FindChar(v, ':');
    if i > 0 && ('a' <= v[0] <= 'z' || 'A' <= v[0] <= 'Z') && forall k :: 0 <= k < i ==> IsSchemeChar(v[k])
    then v[i + 1..]
    else v
  }

  /** The `netloc` component `urlsplit` gives for the text `v`. */
  function Netloc(v: string): (netloc: string)
    ensures forall i :: 0 <= i < |netloc| ==> netloc[i] !in {'/', '?', '#'}
  {
    var rest := AfterScheme(Without(v, Unsafe));
    if StartsWith(rest, "//") then UpToAny(rest[2..], {'/', '?', '#'}) else ""
  }

  /** `urlsplit` raises "Invalid IPv6 URL" when the netloc holds one square bracket without the other. */
  predicate Malformed(netloc: string) {
    ('[' in netloc) != (']' in netloc)
  }

  /** What the extractor keeps of one parsed URL. */
  datatype UrlContext = UrlContext(
    netloc: string,      // parsed_url.netloc
    domain: string,      // the netloc, lower-cased
    cleanDomain: string  // the domain without `www.` and without port
  )

  /** `clean_domain`: `www.` occurrences removed when the domain starts with it, then the port cut off. */
  function CleanDomain(domain: string): (clean: string)
    ensures ':' !in clean
    ensures !StartsWith(domain, "www.") ==> clean == BeforeChar(domain, ':')
  {
    var stripped := if StartsWith(domain, "www.") then ReplaceAll(domain, "www.", "") else domain;
    BeforeChar(stripped, ':')
  }

  /** The parse step of the extractor; `None` is the `ValueError` that makes it return `[-1] * 30`. */
  function Parse(u: string): (r: Option<UrlContext>)
    ensures r.None? <==> Malformed(Netloc(u))
    ensures r.Some? ==> r.value.netloc == Netloc(u) && r.value.domain == Lower(Netloc(u))
    ensures r.Some? ==> IsLower(r.value.domain) && ':' !in r.value.cleanDomain
  {
    var netloc := Netloc(u);
    if Malformed(netloc) then None
    else
      var domain := Lower(netloc);
      Some(UrlContext(netloc, domain, CleanDomain(domain)))
  }

  /** The port text of `parsed_url._hostinfo`: after the last `@`, after `]` when bracketed, after the first `:`. */
  function PortText(netloc: string): (p: Option<string>)
    ensures p.Some? ==> p.value != ""
  {
    var hostinfo := AfterLast(netloc, '@');
    var port :=
      if '[' in hostinfo then AfterChar(AfterChar(AfterChar(hostinfo, '['), ']'), ':')
      else AfterChar(hostinfo, ':');
    if port == "" then None else Some(port)
  }

  /** A netloc without `:` has no port text. */
  lemma NoColonNoPortText(netloc: string)
    ensures ':' !in netloc ==> PortText(netloc) == None
  {
    if ':' in netloc { return; }
    var hostinfo := AfterLast(netloc, '@');
    assert ':' !in hostinfo by {
      assert hostinfo == netloc[|netloc| - |hostinfo|..];
    }
    if '[' in hostinfo {
      var b := AfterChar(hostinfo, '[');
      assert ':' !in b by {
        assert hostinfo == BeforeChar(hostinfo, '[') + ['['] + b;
      }
      if ']' in b {
        var c := AfterChar(b, ']');
        assert b == BeforeChar(b, ']') + [']'] + c;
        assert ':' !in c;
      }
    }
  }

  /** `parsed_url.port`: `None` for no port, `Some(n)` for a port in range; `PortError` when Python raises. */
  datatype PortResult = NoPort | PortNumber(n: nat) | PortError

  function PortOf(netloc: string): (r: PortResult)
    ensures r.PortNumber? ==> r.n <= 65535
    ensures ':' !in netloc ==> r == NoPort
  {
    NoColonNoPortText(netloc);
    match PortText(netloc)
    case None => NoPort
    case Some(p) =>
      if !AllDigits(p) then PortError
      else if DecimalValue(p) > 65535 then PortError
      else PortNumber(DecimalValue(p))
  }

  lemma PortTextOfA8080()
    ensures PortText("a:8080") == Some("8080")
  {
    var s := "a:8080";
    assert '@' !in s && '[' !in s;
    FirstCharAt(s, ':', 1);
    assert s[2..] == "8080";
  }

  lemma Value8080()
    ensures AllDigits("8080") && DecimalValue("8080") == 8080
  {
    assert "8080"[..3] == "808";
    assert "808"[..2] == "80";
    assert "80"[..1] == "8";
    assert "8"[..0] == "";
  }

  /** A port in range reads as its number. */
  lemma PortNumberExample()
    ensures PortOf("a:8080") == PortNumber(8080)
  {
    PortTextOfA8080();
    Value8080();
  }

  lemma PortTextOfA80x()
    ensures PortText("a:80x") == Some("80x")
  {
    var s := "a:80x";
    assert '@' !in s && '[' !in s;
    FirstCharAt(s, ':', 1);
    assert s[2..] == "80x";
  }

  /** Port text that is not all digits is the `ValueError` case. */
  lemma PortErrorExample()
    ensures PortOf("a:80x") == PortError
  {
    PortTextOfA80x();
    assert !IsDigit("80x"[2]);
  }

  /** In `host:p`, with no `@`, `[` or `:` in the host, the port text is all of `p`. */
  lemma PortTextOfHostPort(host: string, p: string)
    requires '@' !in host && '[' !in host && ':' !in host
    requires '@' !in p && '[' !in p && p != ""
    ensures PortText(host + ":" + p) == Some(p)
  {
    var n := host + ":" + p;
    assert '@' !in n && '[' !in n by {
      forall i | 0 <= i < |n|
        ensures n[i] != '@' && n[i] != '['
      {
        if i < |host| {
          assert n[i] == host[i];
        } else if i > |host| {
          assert n[i] == p[i - |host| - 1];
        }
      }
    }
    assert AfterLast(n, '@') == n;
    assert n[|host|] == ':';
    FirstCharAt(n, ':', |host|);
    assert n[|host| + 1..] == p;
  }

  /** A port of digits in range reads as its decimal value, whatever the host. */
  lemma PortOfHostPort(host: string, p: string)
    requires '@' !in host && '[' !in host && ':' !in host
    requires p != "" && AllDigits(p) && DecimalValue(p) <= 65535
    ensures PortOf(host + ":" + p) == PortNumber(DecimalValue(p))
  {
    PortTextOfHostPort(host, p);
  }

  /** A port of digits above 65535 is the `ValueError` case. */
  lemma PortOutOfRange(host: string, p: string)
    requires '@' !in host && '[' !in host && ':' !in host
    requires p != "" && AllDigits(p) && DecimalValue(p) > 65535
    ensures PortOf(host + ":" + p) == PortError
  {
    PortTextOfHostPort(host, p);
  }

  /** Port text with a character that is not a digit is the `ValueError` case. */
  lemma PortNotDigits(host: string, p: string, i: nat)
    requires '@' !in host && '[' !in host && ':' !in host
    requires '@' !in p && '[' !in p && i < |p| && !IsDigit(p[i])
    ensures PortOf(host + ":" + p) == PortError
  {
    PortTextOfHostPort(host, p);
  }

  /** Regrouping a concatenation of four texts to the right. */
  lemma Regroup(p: string, a: string, q: string, b: string)
    ensures p + a + q + b == p + (a + (q + b))
  {
  }

  /** `replace('www.', '')` removes the inner `www.` of `www.<a>.www.<b>` as well as the leading one. */
  lemma ReplaceInnerWww(a: string, b: string)
    requires 'w' !in a && 'w' !in b
    ensures ReplaceAll("www." + a + ".www." + b, "www.", "") == a + "." + b
  {
    var pat := "www.";
    assert forall i :: 0 <= i < |a| ==> a[i] != pat[0];
    assert forall i :: 0 <= i < |b| ==> b[i] != pat[0];
    var tail := ['.'] + (pat + b);
    assert ".www." + b == tail by {
      assert ".www." == ['.'] + pat;
    }
    Regroup(pat, a, ".www.", b);
    DeleteAtStart(pat, a + tail);
    KeepAll(a, tail, pat, "");
    KeepFirst('.', pat + b, pat, "");
    DeleteAtStart(pat, b);
    KeepAll(b, "", pat, "");
    assert b + "" == b;
    assert ReplaceAll("", pat, "") == "";
    Regroup(a, ".", b, "");
  }

  /**
   * The quirk of `domain.replace('www.', '')`: an inner `www.` is removed as
   * well as the leading one, and the port is cut off after that.
   */
  lemma CleanDomainRemovesInnerWww(a: string, b: string, port: string)
    requires 'w' !in a && 'w' !in b && ':' !in a && ':' !in b && 'w' !in port
    ensures CleanDomain("www." + a + ".www." + b + ":" + port) == a + "." + b
  {
    var host := a + "." + b;
    var rest := b + (":" + port);
    var domain := "www." + a + ".www." + b + ":" + port;
    assert StartsWith(domain, "www.") by {
      assert domain[..4] == "www.";
    }
    Regroup("www." + a + ".www.", b, ":", port);
    ReplaceInnerWww(a, rest);
    var stripped := host + (":" + port);
    assert a + "." + rest == stripped;
    assert forall j :: 0 <= j < |host| ==> host[j] != ':';
    FirstCharAt(stripped, ':', |host|);
    assert stripped[..|host|] == host;
  }

  lemma SchemeOfHttp(v: string)
    requires StartsWith(v, "http://")
    ensures AfterScheme(v) == v[5..]
  {
    assert v[..7] == "http://";
    assert v[4] == ':' && ':' !in v[..4];
  }

  /** For an `http://` URL without tab or line breaks, the netloc runs from index 7 to the first `/`, `?` or `#`. */
  lemma NetlocOfHttp(v: string)
    requires StartsWith(v, "http://")
    requires forall i :: 0 <= i < |v| ==> v[i] !in Unsafe
    ensures Netloc(v) == UpToAny(v[7..], {'/', '?', '#'})
  {
    SchemeOfHttp(v);
    assert v[5..][..2] == "//";
    assert v[5..][2..] == v[7..];
  }

  /** An empty input parses without error: the scorers run on `http://`. */
  lemma EmptyInputParses()
    ensures Parse(Normalize("")).Some?
  {
    assert Normalize("") == "http://";
    NetlocOfHttp("http://");
    assert "http://"[7..] == "";
  }

  lemma UpToSlash()
    ensures UpToAny("://bad", {'/', '?', '#'}) == ":"
  {
    assert "://bad"[1..] == "//bad";
  }

  /** The input "://bad" parses without error: its netloc is ":". */
  lemma SchemeOnlyInputParses()
    ensures Parse(Normalize("://bad")).Some?
  {
    assert Normalize("://bad") == "http://://bad" by {
      assert "://bad"[..4][0] == ':';
    }
    NetlocOfHttp("http://://bad");
    assert "http://://bad"[7..] == "://bad";
    UpToSlash();
  }

  lemma UpToEnd()
    ensures UpToAny("[::1", {'/', '?', '#'}) == "[::1"
  {
    assert "[::1"[1..] == "::1" && "::1"[1..] == ":1" && ":1"[1..] == "1" && "1"[1..] == "";
  }

  lemma NormalizeBracket()
    ensures Normalize("[::1") == "http://[::1"
  {
    assert "[::1"[..4][0] == '[';
  }

  lemma BracketNetloc()
    ensures Netloc("http://[::1") == "[::1"
  {
    NetlocOfHttp("http://[::1");
    assert "http://[::1"[7..] == "[::1";
    UpToEnd();
  }

  lemma OpenBracketOnly()
    ensures Malformed("[::1")
  {
    assert "[::1"[0] == '[';
    assert forall i :: 0 <= i < 4 ==> "[::1"[i] != ']';
  }

  /** An unmatched `[` in the netloc is the parse error. */
  lemma UnmatchedBracketIsMalformed()
    ensures Parse(Normalize("[::1")).None?
  {
    NormalizeBracket();
    BracketNetloc();
    OpenBracketOnly();
  }
}
