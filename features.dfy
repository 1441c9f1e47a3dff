/**
 * `extract_features_from_url`: normalise the URL, parse it, look the host up,
 * fetch the page, and collect the thirty scores in their fixed order. The
 * lookups are the fields of `Env`, each keyed the way the extractor asks.
 */
module Features {
  import opened Scoring
  import opened Wrappers
  import opened Text
  import opened Url
  import opened IpAddress
  import opened Lexical
  import opened Html
  import opened Dom
  import opened Script
  import opened Records
  import opened Stubs

  /** An HTTP answer to the page fetch: its status and the page it carried. */
  datatype Response = Response(status: int, page: Page)

  /**
   * The outside world of one extraction. `whois` and `resolves` take the
   * cleaned host; `fetch`, `subdomain` and `redirect` take the normalised URL.
   * `None` stands for a lookup that raised or timed out.
   */
  datatype Env = Env(
    whois: string -> Option<WhoisRecord>,
    fetch: string -> Option<Response>,
    subdomain: string -> Option<string>,
    redirect: string -> RedirectProbe,
    resolves: string -> bool,
    now: int)

  const FeatureCount: nat := 30

  /** `get_page_content`: the page of a 200 answer, nothing otherwise. */
  function PageContent(env: Env, url: string): (page: Option<Page>)
    ensures page.Some? <==> env.fetch(url).Some? && env.fetch(url).value.status == 200
  {
    match env.fetch(url)
    case None => None
    case Some(response) => if response.status == 200 then Some(response.page) else None
  }

  /** `[-1] * 30`. */
  function AllPhishing(): (v: seq<int>)
    ensures |v| == FeatureCount
    ensures forall i :: 0 <= i < |v| ==> v[i] == -1
  {
    seq(FeatureCount, _ => -1)
  }

  /** Every entry is one of the three scores. */
  predicate Ternary(v: seq<int>) {
    forall i :: 0 <= i < |v| ==> v[i] == -1 || v[i] == 0 || v[i] == 1
  }

  /** Features 1 to 8: the URL text and the host. */
  function UrlScores(u: string, ctx: UrlContext, env: Env): (v: seq<Score>)
    ensures |v| == 8
  {
    var ssl: Score := SslFinalState(u, ctx.domain);
    [ HavingIpAddress(u),
      UrlLength(u),
      ShorteningScore(u),
      HavingAtSymbol(u),
      DoubleSlashRedirecting(u),
      PrefixSuffix(ctx.domain),
      HavingSubDomain(env.subdomain(u)),
      ssl ]
  }

  /** Features 9 to 12: registration length, favicon, port and `https` in the host. */
  function MixedScores(u: string, ctx: UrlContext, env: Env): (v: seq<Score>)
    ensures |v| == 4
  {
    [ RegistrationLength(env.whois(ctx.cleanDomain)),
      FaviconScore(PageContent(env, u), ctx.cleanDomain),
      PortScore(ctx.netloc),
      HttpsToken(u, ctx.domain) ]
  }

  /** Features 13 to 18: the page's references and forms, and the WHOIS text. */
  function ReferenceScores(u: string, ctx: UrlContext, env: Env): (v: seq<Score>)
    ensures |v| == 6
  {
    var pageContent := PageContent(env, u);
    [ RequestUrlScore(pageContent, ctx.cleanDomain),
      AnchorScore(pageContent, ctx.cleanDomain),
      LinksInTagsScore(pageContent, ctx.cleanDomain),
      SfhScore(pageContent, ctx.cleanDomain),
      SubmittingToEmail(pageContent),
      AbnormalUrl(env.whois(ctx.cleanDomain), ctx.cleanDomain) ]
  }

  /** Features 19 to 25: redirects, the page's scripts and frames, domain age and DNS. */
  function BehaviourScores(u: string, ctx: UrlContext, env: Env): (v: seq<Score>)
    ensures |v| == 7
  {
    var pageContent := PageContent(env, u);
    [ Redirect(env.redirect(u)),
      MouseoverScore(pageContent),
      RightClickScore(pageContent),
      PopUpScore(pageContent),
      IframeScore(pageContent),
      AgeOfDomain(env.whois(ctx.cleanDomain), env.now),
      DnsRecord(env.resolves(ctx.cleanDomain)) ]
  }

  /** Features 26 to 30: the constant stubs. */
  function StubScores(u: string, ctx: UrlContext): (v: seq<Score>)
    ensures v == [-1, -1, -1, -1, -1]
  {
    [ WebTraffic(ctx.cleanDomain),
      PageRank(ctx.cleanDomain),
      GoogleIndex(u),
      LinksPointingToPage(ctx.cleanDomain),
      StatisticalReport(ctx.cleanDomain) ]
  }

  /** The thirty scorer calls of a URL that parsed, in the order of the feature list. */
  function Scores(u: string, ctx: UrlContext, env: Env): (v: seq<Score>)
    ensures |v| == FeatureCount
    ensures v[25..] == [-1, -1, -1, -1, -1]
  {
    UrlScores(u, ctx, env) + MixedScores(u, ctx, env) + ReferenceScores(u, ctx, env)
    + BehaviourScores(u, ctx, env) + StubScores(u, ctx)
  }

  /** Pad with -1 up to thirty entries, then keep the first thirty. */
  function Padded(fs: seq<int>): (r: seq<int>)
    ensures |r| == FeatureCount
    ensures forall i :: 0 <= i < |r| ==> r[i] == if i < |fs| then fs[i] else -1
  {
    if |fs| >= FeatureCount then fs[..FeatureCount]
    else fs + seq(FeatureCount - |fs|, _ => -1)
  }

  /** A vector of exactly thirty entries is left as it is. */
  lemma PaddedFull(fs: seq<int>)
    requires |fs| == FeatureCount
    ensures Padded(fs) == fs
  {
  }

  /** The `while len(features) < 30` loop and the final `features[:30]`. */
  method PadAndTruncate(fs: seq<int>) returns (r: seq<int>)
    ensures r == Padded(fs)
  {
    r := fs;
    while |r| < FeatureCount
      invariant |fs| <= |r|
      invariant |r| > |fs| ==> |r| <= FeatureCount
      invariant r[..|fs|] == fs
      invariant forall i :: |fs| <= i < |r| ==> r[i] == -1
      decreases FeatureCount - |r|
    {
      r := r + [-1];
    }
    r := r[..FeatureCount];
  }

  /**
   * The vector the extractor returns: thirty entries, each -1, 0 or 1, the
   * last five always -1, and all -1 when the URL does not parse.
   */
  function FeatureVector(url: string, env: Env): (v: seq<int>)
    ensures |v| == FeatureCount
    ensures Ternary(v)
    ensures v[25..] == [-1, -1, -1, -1, -1]
    ensures Parse(Normalize(url)).None? ==> forall i :: 0 <= i < |v| ==> v[i] == -1
  {
    var u := Normalize(url);
    match Parse(u)
    case None => AllPhishing()
    case Some(ctx) =>
      var v := Scores(u, ctx, env);
      PaddedFull(v);
      ScoresAreTernary(v);
      Padded(v)
  }

  /** Scores are ternary. */
  lemma ScoresAreTernary(v: seq<Score>)
    ensures Ternary(v)
  {
  }

  /** Appending the entries of `tail` one by one appends `tail`. */
  lemma AppendInOrder(fs: seq<int>, tail: seq<int>)
    ensures |tail| == 4 ==> fs + [tail[0]] + [tail[1]] + [tail[2]] + [tail[3]] == fs + tail
    ensures |tail| == 5 ==> fs + [tail[0]] + [tail[1]] + [tail[2]] + [tail[3]] + [tail[4]] == fs + tail
    ensures |tail| == 6 ==> fs + [tail[0]] + [tail[1]] + [tail[2]] + [tail[3]] + [tail[4]] + [tail[5]] == fs + tail
    ensures |tail| == 7 ==>
      fs + [tail[0]] + [tail[1]] + [tail[2]] + [tail[3]] + [tail[4]] + [tail[5]] + [tail[6]] == fs + tail
    ensures |tail| == 8 ==>
      fs + [tail[0]] + [tail[1]] + [tail[2]] + [tail[3]] + [tail[4]] + [tail[5]] + [tail[6]] + [tail[7]] == fs + tail
  {
  }

  /** Appends features 1 to 8. */
  method AppendUrlScores(fs: seq<int>, u: string, ctx: UrlContext, env: Env) returns (features: seq<int>)
    ensures features == fs + UrlScores(u, ctx, env)
  {
    var shortened := ShorteningService(u);
    features := fs;
    features := features + [HavingIpAddress(u)];                   // 1
    features := features + [UrlLength(u)];                         // 2
    features := features + [shortened];                            // 3
    features := features + [HavingAtSymbol(u)];                    // 4
    features := features + [DoubleSlashRedirecting(u)];            // 5
    features := features + [PrefixSuffix(ctx.domain)];             // 6
    features := features + [HavingSubDomain(env.subdomain(u))];    // 7
    features := features + [SslFinalState(u, ctx.domain)];         // 8
    AppendInOrder(fs, UrlScores(u, ctx, env));
  }

  /** Appends features 9 to 12. */
  method AppendMixedScores(fs: seq<int>, u: string, ctx: UrlContext, env: Env) returns (features: seq<int>)
    ensures features == fs + MixedScores(u, ctx, env)
  {
    var favicon := Favicon(PageContent(env, u), ctx.cleanDomain);
    features := fs;
    features := features + [RegistrationLength(env.whois(ctx.cleanDomain))]; // 9
    features := features + [favicon];                              // 10
    features := features + [PortScore(ctx.netloc)];                // 11
    features := features + [HttpsToken(u, ctx.domain)];            // 12
    AppendInOrder(fs, MixedScores(u, ctx, env));
  }

  /** Appends features 13 to 18. */
  method AppendReferenceScores(fs: seq<int>, u: string, ctx: UrlContext, env: Env) returns (features: seq<int>)
    ensures features == fs + ReferenceScores(u, ctx, env)
  {
    var pageContent := PageContent(env, u);
    var requests := RequestUrl(pageContent, ctx.cleanDomain);
    var anchors := UrlOfAnchor(pageContent, ctx.cleanDomain);
    var links := LinksInTags(pageContent, ctx.cleanDomain);
    var forms := Sfh(pageContent, ctx.cleanDomain);
    features := fs;
    features := features + [requests];                             // 13
    features := features + [anchors];                              // 14
    features := features + [links];                                // 15
    features := features + [forms];                                // 16
    features := features + [SubmittingToEmail(pageContent)];       // 17
    features := features + [AbnormalUrl(env.whois(ctx.cleanDomain), ctx.cleanDomain)]; // 18
    AppendInOrder(fs, ReferenceScores(u, ctx, env));
  }

  /** Appends features 19 to 25. */
  method AppendBehaviourScores(fs: seq<int>, u: string, ctx: UrlContext, env: Env) returns (features: seq<int>)
    ensures features == fs + BehaviourScores(u, ctx, env)
  {
    var pageContent := PageContent(env, u);
    var frames := Iframe(pageContent);
    features := fs;
    features := features + [Redirect(env.redirect(u))];            // 19
    features := features + [MouseoverScore(pageContent)];          // 20
    features := features + [RightClickScore(pageContent)];         // 21
    features := features + [PopUpScore(pageContent)];              // 22
    features := features + [frames];                               // 23
    features := features + [AgeOfDomain(env.whois(ctx.cleanDomain), env.now)]; // 24
    features := features + [DnsRecord(env.resolves(ctx.cleanDomain))]; // 25
    AppendInOrder(fs, BehaviourScores(u, ctx, env));
  }

  /** Appends features 26 to 30. */
  method AppendStubScores(fs: seq<int>, u: string, ctx: UrlContext) returns (features: seq<int>)
    ensures features == fs + StubScores(u, ctx)
  {
    features := fs;
    features := features + [WebTraffic(ctx.cleanDomain)];          // 26
    features := features + [PageRank(ctx.cleanDomain)];            // 27
    features := features + [GoogleIndex(u)];                       // 28
    features := features + [LinksPointingToPage(ctx.cleanDomain)]; // 29
    features := features + [StatisticalReport(ctx.cleanDomain)];   // 30
    AppendInOrder(fs, StubScores(u, ctx));
  }

  /** Appending five groups to the empty list is their concatenation. */
  lemma EmptyThenGroups(a: seq<int>, b: seq<int>, c: seq<int>, d: seq<int>, e: seq<int>)
    ensures [] + a + b + c + d + e == a + b + c + d + e
  {
    assert [] + a == a;
  }

  /** The thirty appends in order, starting from an empty list. */
  method CollectScores(u: string, ctx: UrlContext, env: Env) returns (features: seq<int>)
    ensures features == Scores(u, ctx, env)
  {
    features := [];
    features := AppendUrlScores(features, u, ctx, env);
    features := AppendMixedScores(features, u, ctx, env);
    features := AppendReferenceScores(features, u, ctx, env);
    features := AppendBehaviourScores(features, u, ctx, env);
    features := AppendStubScores(features, u, ctx);
    EmptyThenGroups(UrlScores(u, ctx, env), MixedScores(u, ctx, env), ReferenceScores(u, ctx, env),
                    BehaviourScores(u, ctx, env), StubScores(u, ctx));
  }

  /** The extractor itself: the error answer, or the thirty scores and the padding loop. */
  method ExtractFeatures(url: string, env: Env) returns (features: seq<int>)
    ensures features == FeatureVector(url, env)
  {
    var u := Normalize(url);
    var parsed := Parse(u);
    if parsed.None? {
      return AllPhishing();
    }
    features := CollectScores(u, parsed.value, env);
    features := PadAndTruncate(features);
  }

  /** A URL that parses scores exactly the thirty scorer calls. */
  lemma VectorOfParsed(url: string, env: Env)
    requires Parse(Normalize(url)).Some?
    ensures FeatureVector(url, env) == Scores(Normalize(url), Parse(Normalize(url)).value, env)
  {
    var u := Normalize(url);
    PaddedFull(Scores(u, Parse(u).value, env));
  }

  /** Where the entries of each group sit in the concatenation of the five groups. */
  lemma GroupsInPlace(a: seq<Score>, b: seq<Score>, c: seq<Score>, d: seq<Score>, e: seq<Score>)
    requires |a| == 8 && |b| == 4 && |c| == 6 && |d| == 7 && |e| == 5
    ensures forall i :: 0 <= i < 8 ==> (a + b + c + d + e)[i] == a[i]
    ensures forall i :: 0 <= i < 4 ==> (a + b + c + d + e)[8 + i] == b[i]
    ensures (a + b + c + d + e)[12..18] == c
    ensures (a + b + c + d + e)[18..25] == d
    ensures (a + b + c + d + e)[12..17] == c[..5]
    ensures (a + b + c + d + e)[19..23] == d[1..5]
  {
  }

  /** The entries of `Scores`, each read from its group. */
  lemma ScoresGroups(u: string, ctx: UrlContext, env: Env)
    ensures forall i :: 0 <= i < 8 ==> Scores(u, ctx, env)[i] == UrlScores(u, ctx, env)[i]
    ensures forall i :: 0 <= i < 4 ==> Scores(u, ctx, env)[8 + i] == MixedScores(u, ctx, env)[i]
    ensures Scores(u, ctx, env)[12..18] == ReferenceScores(u, ctx, env)
    ensures Scores(u, ctx, env)[18..25] == BehaviourScores(u, ctx, env)
    ensures Scores(u, ctx, env)[25..] == StubScores(u, ctx)
    ensures Scores(u, ctx, env)[12..17] == ReferenceScores(u, ctx, env)[..5]
    ensures Scores(u, ctx, env)[19..23] == BehaviourScores(u, ctx, env)[1..5]
  {
    GroupsInPlace(UrlScores(u, ctx, env), MixedScores(u, ctx, env), ReferenceScores(u, ctx, env),
                  BehaviourScores(u, ctx, env), StubScores(u, ctx));
  }

  /** Feature 10 without content. */
  lemma MixedWithoutContent(u: string, ctx: UrlContext, env: Env)
    requires !HasContent(PageContent(env, u))
    ensures MixedScores(u, ctx, env)[1] == -1
  {
  }

  /** Features 13 to 17 without content. */
  lemma ReferenceWithoutContent(u: string, ctx: UrlContext, env: Env)
    requires !HasContent(PageContent(env, u))
    ensures ReferenceScores(u, ctx, env)[..5] == [-1, -1, -1, -1, -1]
  {
    var page := PageContent(env, u);
    var r := ReferenceScores(u, ctx, env);
    assert r[0] == RequestUrlScore(page, ctx.cleanDomain) == -1;
    assert r[1] == AnchorScore(page, ctx.cleanDomain) == -1;
    assert r[2] == LinksInTagsScore(page, ctx.cleanDomain) == -1;
    assert r[3] == SfhScore(page, ctx.cleanDomain) == -1;
    assert r[4] == SubmittingToEmail(page) == -1;
  }

  /** Features 20 to 23 without content. */
  lemma BehaviourWithoutContent(u: string, ctx: UrlContext, env: Env)
    requires !HasContent(PageContent(env, u))
    ensures BehaviourScores(u, ctx, env)[1..5] == [1, 1, 1, 1]
  {
    var page := PageContent(env, u);
    var r := BehaviourScores(u, ctx, env);
    assert r[1] == MouseoverScore(page) == 1;
    assert r[2] == RightClickScore(page) == 1;
    assert r[3] == PopUpScore(page) == 1;
    assert r[4] == IframeScore(page) == 1;
  }

  /** The page scorers' defaults, at their places in the scores. */
  lemma ScoresWithoutContent(u: string, ctx: UrlContext, env: Env)
    requires !HasContent(PageContent(env, u))
    ensures Scores(u, ctx, env)[9] == -1
    ensures Scores(u, ctx, env)[12..17] == [-1, -1, -1, -1, -1]
    ensures Scores(u, ctx, env)[19..23] == [1, 1, 1, 1]
  {
    ScoresGroups(u, ctx, env);
    assert Scores(u, ctx, env)[8 + 1] == MixedScores(u, ctx, env)[1];
    MixedWithoutContent(u, ctx, env);
    ReferenceWithoutContent(u, ctx, env);
    BehaviourWithoutContent(u, ctx, env);
  }

  /**
   * Without page content the page scorers take their defaults: `Favicon`,
   * `Request_URL`, `URL_of_Anchor`, `Links_in_tags`, `SFH` and
   * `Submitting_to_email` score -1, while `on_mouseover`, `RightClick`,
   * `popUpWidnow` and `Iframe` score 1.
   */
  lemma NoContentDefaults(url: string, env: Env)
    requires Parse(Normalize(url)).Some?
    requires !HasContent(PageContent(env, Normalize(url)))
    ensures FeatureVector(url, env)[9] == -1
    ensures FeatureVector(url, env)[12..17] == [-1, -1, -1, -1, -1]
    ensures FeatureVector(url, env)[19..23] == [1, 1, 1, 1]
  {
    VectorOfParsed(url, env);
    ScoresWithoutContent(Normalize(url), Parse(Normalize(url)).value, env);
  }

  /** The URL-text entries of the first two groups do not read the lookups. */
  lemma GroupsIgnoreLookups(u: string, ctx: UrlContext, env: Env, env': Env)
    ensures forall i :: i in {0, 1, 2, 3, 4, 5, 7} ==> UrlScores(u, ctx, env)[i] == UrlScores(u, ctx, env')[i]
    ensures MixedScores(u, ctx, env)[2..] == MixedScores(u, ctx, env')[2..]
  {
  }

  /** The entries of `Scores` computed from the URL text alone agree under any two lookups. */
  lemma ScoresIgnoreLookups(u: string, ctx: UrlContext, env: Env, env': Env)
    ensures forall i :: i in {0, 1, 2, 3, 4, 5, 7, 10, 11} ==> Scores(u, ctx, env)[i] == Scores(u, ctx, env')[i]
  {
    ScoresGroups(u, ctx, env);
    ScoresGroups(u, ctx, env');
    GroupsIgnoreLookups(u, ctx, env, env');
    var m, m' := MixedScores(u, ctx, env), MixedScores(u, ctx, env');
    assert m[2] == m[2..][0] && m'[2] == m'[2..][0];
    assert m[3] == m[2..][1] && m'[3] == m'[2..][1];
    assert Scores(u, ctx, env)[8 + 2] == m[2] && Scores(u, ctx, env')[8 + 2] == m'[2];
    assert Scores(u, ctx, env)[8 + 3] == m[3] && Scores(u, ctx, env')[8 + 3] == m'[3];
  }

  /**
   * The scores computed from the URL text alone (features 1 to 6, 8, 11 and
   * 12) do not depend on any lookup: a failed WHOIS, DNS or page fetch
   * leaves them as they are.
   */
  lemma LexicalScoresIgnoreLookups(url: string, env: Env, env': Env)
    ensures forall i :: i in {0, 1, 2, 3, 4, 5, 7, 10, 11} ==> FeatureVector(url, env)[i] == FeatureVector(url, env')[i]
  {
    var u := Normalize(url);
    if Parse(u).Some? {
      VectorOfParsed(url, env);
      VectorOfParsed(url, env');
      ScoresIgnoreLookups(u, Parse(u).value, env, env');
    }
  }

  /** A host with an unmatched `[` is the parse error: every feature is -1. */
  lemma UnmatchedBracketAllPhishing(env: Env)
    ensures FeatureVector("[::1", env) == AllPhishing()
  {
    UnmatchedBracketIsMalformed();
  }

  /** Entry 2 of the first group is `URL_Length`. */
  lemma UrlGroupLength(u: string, ctx: UrlContext, env: Env)
    ensures UrlScores(u, ctx, env)[1] == UrlLength(u)
  {
  }

  /** Entry 2 of the scores is `URL_Length`. */
  lemma ScoresLength(u: string, ctx: UrlContext, env: Env)
    ensures Scores(u, ctx, env)[1] == UrlLength(u)
  {
    ScoresGroups(u, ctx, env);
    UrlGroupLength(u, ctx, env);
  }

  /** Feature 2 of a URL that parses is `URL_Length` of the normalised URL. */
  lemma LengthFeature(url: string, env: Env)
    requires Parse(Normalize(url)).Some?
    ensures FeatureVector(url, env)[1] == UrlLength(Normalize(url))
  {
    VectorOfParsed(url, env);
    ScoresLength(Normalize(url), Parse(Normalize(url)).value, env);
  }

  /** The empty input is no parse error: it is scored as `http://`, which is short. */
  lemma EmptyInputIsScored(env: Env)
    ensures FeatureVector("", env)[1] == 1
  {
    EmptyInputParses();
    LengthFeature("", env);
    assert Normalize("") == "http://";
  }
}
