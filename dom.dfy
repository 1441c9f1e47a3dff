/**
 * The scorers that read the parsed page: features 10 (`Favicon`), 13
 * (`Request_URL`), 14 (`URL_of_Anchor`), 15 (`Links_in_tags`), 16 (`SFH`)
 * and 23 (`Iframe`). Each is a specification function and a method with the
 * loop of `feature_extractor.py`, proved to compute it. A parser that raised counts
 * like the `except` branch: 1 for `Iframe`, -1 for the others.
 */
module Dom {
  import opened Scoring
  import opened Wrappers
  import opened Text
  import opened Html

  /** `ref.startswith('http') and domain not in ref`: a reference to another site. */
  predicate IsExternal(ref: string, domain: string) {
    StartsWith(ref, "http") && !Contains(ref, domain)
  }

  /** Comparing a ratio with a percentage by cross-multiplying, for a positive denominator. */
  lemma RatioBelow(part: nat, total: nat, pct: nat)
    ensures total > 0 ==>
      ((part as real) / (total as real) < (pct as real) / 100.0 <==> 100 * part < pct * total)
  {
    if total == 0 {
      return;
    }
    var x := (part as real) / (total as real);
    assert x * (total as real) == part as real;
    assert (100 * part) as real == 100.0 * x * (total as real);
    assert (pct * total) as real == (pct as real) / 100.0 * 100.0 * (total as real);
  }

  /**
   * The three buckets of `part / total` against `low%` and `high%`, compared
   * without division: below `low%` scores 1, below `high%` 0, otherwise -1;
   * an empty total scores 1.
   */
  function RatioBucket(part: nat, total: nat, low: nat, high: nat): (r: Score)
    requires part <= total && low <= high
    ensures total == 0 ==> r == 1
    ensures part == 0 && low > 0 ==> r == 1
  {
    if total == 0 then 1
    else if 100 * part < low * total then 1
    else if 100 * part < high * total then 0
    else -1
  }

  /** The integer comparisons agree with the float division the source performs. */
  lemma RatioBucketIsRatio(part: nat, total: nat, low: nat, high: nat)
    requires part <= total && low <= high && total > 0
    ensures RatioBucket(part, total, low, high) == 1 <==> (part as real) / (total as real) < (low as real) / 100.0
    ensures RatioBucket(part, total, low, high) == -1 <==> (high as real) / 100.0 <= (part as real) / (total as real)
    ensures RatioBucket(part, total, low, high) == 0 <==>
      ((low as real) / 100.0 <= (part as real) / (total as real) < (high as real) / 100.0)
  {
    RatioBelow(part, total, low);
    RatioBelow(part, total, high);
  }

  /** More of the total being external never improves the bucket. */
  lemma RatioBucketMonotone(part: nat, part': nat, total: nat, low: nat, high: nat)
    requires part <= part' <= total && low <= high
    ensures RatioBucket(part', total, low, high) <= RatioBucket(part, total, low, high)
  {
  }

  // Feature 10, `Favicon`.

  /** `soup.find_all('link', rel=lambda x: x and 'icon' in x.lower())`. */
  predicate IsFaviconLink(t: Tag) {
    t.name == "link" && t.rel.Some? && t.rel.value != "" && Contains(Lower(t.rel.value), "icon")
  }

  /** A favicon with a non-empty `href` to another site. */
  predicate ExternalFavicon(t: Tag, cleanDomain: string) {
    Attr(t.href) != "" && IsExternal(Attr(t.href), cleanDomain)
  }

  /** 1 exactly when the page has a favicon link and none of its favicon links leaves the site. */
  function FaviconScore(page: Option<Page>, cleanDomain: string): (r: Score)
    ensures r == 1 <==>
      (HasContent(page) && page.value.tags.Some?
       && (exists t :: t in page.value.tags.value && IsFaviconLink(t))
       && (forall t :: t in page.value.tags.value && IsFaviconLink(t) ==> !ExternalFavicon(t, cleanDomain)))
    ensures r == 1 || r == -1
  {
    if !HasContent(page) then -1
    else match page.value.tags
      case None => -1
      case Some(tags) =>
        var links := Filter(tags, IsFaviconLink);
        assert forall t :: t in tags && IsFaviconLink(t) <==> t in links;
        assert links != [] ==> links[0] in links;
        if links == [] then -1
        else if exists t :: t in links && ExternalFavicon(t, cleanDomain) then -1
        else 1
  }

  /** The scan over the favicon links that stops at the first external one. */
  method Favicon(page: Option<Page>, cleanDomain: string) returns (r: Score)
    ensures r == FaviconScore(page, cleanDomain)
  {
    if !HasContent(page) || page.value.tags.None? {
      return -1;
    }
    var links := Filter(page.value.tags.value, IsFaviconLink);
    if links == [] {
      return -1;
    }
    var i := 0;
    while i < |links|
      invariant 0 <= i <= |links|
      invariant forall k :: 0 <= k < i ==> !ExternalFavicon(links[k], cleanDomain)
    {
      if ExternalFavicon(links[i], cleanDomain) {
        return -1;
      }
      i := i + 1;
    }
    return 1;
  }

  // Feature 13, `Request_URL`.

  const RequestTagNames: set<string> := {"img", "script", "link", "iframe", "embed", "object"}

  predicate IsRequestTag(t: Tag) {
    t.name in RequestTagNames
  }

  /** `element.get('src') or element.get('href')`, with a missing value as the empty text. */
  function RequestRef(t: Tag): (ref: string)
    ensures t.src.Some? && t.src.value != "" ==> ref == t.src.value
    ensures t.src.None? || t.src.value == "" ==> ref == Attr(t.href)
  {
    if t.src.Some? && t.src.value != "" then t.src.value else Attr(t.href)
  }

  /** An element that makes a request at all: the ones counted in `total_requests`. */
  predicate HasRequestRef(t: Tag) {
    RequestRef(t) != ""
  }

  /** An element counted in `external_requests`. */
  function ExternalRequest(domain: string): Tag -> bool {
    (t: Tag) => RequestRef(t) != "" && IsExternal(RequestRef(t), domain)
  }

  /** Requesting elements, in document order. */
  function RequestElements(tags: seq<Tag>): seq<Tag> {
    Filter(tags, IsRequestTag)
  }

  /** Bucket of the share of requests that go to other sites, at 22% and 61%. */
  function RequestUrlScore(page: Option<Page>, domain: string): (r: Score)
    ensures !HasContent(page) || page.value.tags.None? ==> r == -1
    ensures (HasContent(page) && page.value.tags.Some?
             && forall t :: t in page.value.tags.value ==> !ExternalRequest(domain)(t))
            ==> r == 1
  {
    if !HasContent(page) then -1
    else match page.value.tags
      case None => -1
      case Some(tags) =>
        var elements := RequestElements(tags);
        var total := |Filter(elements, HasRequestRef)|;
        var external := |Filter(elements, ExternalRequest(domain))|;
        FilterWeaker(elements, ExternalRequest(domain), HasRequestRef);
        FilterKeepsNone(elements, ExternalRequest(domain));
        if total == 0 then 1 else RatioBucket(external, total, 22, 61)
  }

  /** External requests are among the counted requests, so the ratio never exceeds one. */
  lemma ExternalRequestsBounded(tags: seq<Tag>, domain: string)
    ensures |Filter(RequestElements(tags), ExternalRequest(domain))| <= |Filter(RequestElements(tags), HasRequestRef)|
  {
    FilterWeaker(RequestElements(tags), ExternalRequest(domain), HasRequestRef);
  }

  /** The counting loop over the requesting elements. */
  method RequestUrl(page: Option<Page>, domain: string) returns (r: Score)
    ensures r == RequestUrlScore(page, domain)
  {
    if !HasContent(page) || page.value.tags.None? {
      return -1;
    }
    var elements := RequestElements(page.value.tags.value);
    var totalRequests := 0;
    var externalRequests := 0;
    var i := 0;
    while i < |elements|
      invariant 0 <= i <= |elements|
      invariant totalRequests == |Filter(elements[..i], HasRequestRef)|
      invariant externalRequests == |Filter(elements[..i], ExternalRequest(domain))|
    {
      FilterPrefix(elements, i, HasRequestRef);
      FilterPrefix(elements, i, ExternalRequest(domain));
      var src := RequestRef(elements[i]);
      if src != "" {
        totalRequests := totalRequests + 1;
        if IsExternal(src, domain) {
          externalRequests := externalRequests + 1;
        }
      }
      i := i + 1;
    }
    assert elements[..i] == elements;
    if totalRequests == 0 {
      return 1;
    }
    FilterWeaker(elements, ExternalRequest(domain), HasRequestRef);
    r := RatioBucket(externalRequests, totalRequests, 22, 61);
  }

  /**
   * With content, `Request_URL` buckets the share of external requests at
   * 0.22 and 0.61; a page without requests scores 1.
   */
  lemma RequestUrlThresholds(page: Option<Page>, domain: string)
    requires HasContent(page) && page.value.tags.Some?
    ensures
      var elements := RequestElements(page.value.tags.value);
      var total := |Filter(elements, HasRequestRef)|;
      var external := |Filter(elements, ExternalRequest(domain))|;
      var r := RequestUrlScore(page, domain);
      && external <= total
      && (total == 0 ==> r == 1)
      && (total > 0 ==> (r == 1 <==> (external as real) / (total as real) < 0.22))
      && (total > 0 ==> (r == 0 <==> 0.22 <= (external as real) / (total as real) < 0.61))
      && (total > 0 ==> (r == -1 <==> 0.61 <= (external as real) / (total as real)))
  {
    var elements := RequestElements(page.value.tags.value);
    var total := |Filter(elements, HasRequestRef)|;
    var external := |Filter(elements, ExternalRequest(domain))|;
    ExternalRequestsBounded(page.value.tags.value, domain);
    if total > 0 {
      RatioBucketIsRatio(external, total, 22, 61);
    }
  }

  // Feature 14, `URL_of_Anchor`.

  /** `soup.find_all('a', href=True)`: anchors that carry an `href`, even an empty one. */
  predicate IsAnchor(t: Tag) {
    t.name == "a" && t.href.Some?
  }

  const PlaceholderHrefs: set<string> := {"#", "javascript:void(0)", "javascript:;", ""}

  /** An anchor whose `href` goes nowhere or to another site. */
  function SuspiciousAnchor(domain: string): Tag -> bool {
    (t: Tag) => Attr(t.href) in PlaceholderHrefs || IsExternal(Attr(t.href), domain)
  }

  /** Bucket of the share of suspicious anchors, at 31% and 67%; no anchors scores 1. */
  function AnchorScore(page: Option<Page>, domain: string): (r: Score)
    ensures !HasContent(page) || page.value.tags.None? ==> r == -1
    ensures (HasContent(page) && page.value.tags.Some?
             && (forall t :: t in page.value.tags.value && IsAnchor(t) ==> SuspiciousAnchor(domain)(t))
             && (exists t :: t in page.value.tags.value && IsAnchor(t)))
            ==> r == -1
  {
    if !HasContent(page) then -1
    else match page.value.tags
      case None => -1
      case Some(tags) =>
        var anchors := Filter(tags, IsAnchor);
        if anchors == [] then 1
        else
          var suspicious := Filter(anchors, SuspiciousAnchor(domain));
          FilterWeaker(anchors, SuspiciousAnchor(domain), (t: Tag) => true);
          FilterKeepsAll(anchors, SuspiciousAnchor(domain));
          RatioBucket(|suspicious|, |anchors|, 31, 67)
  }

  /** The counting loop over the anchors. */
  method UrlOfAnchor(page: Option<Page>, domain: string) returns (r: Score)
    ensures r == AnchorScore(page, domain)
  {
    if !HasContent(page) || page.value.tags.None? {
      return -1;
    }
    var anchors := Filter(page.value.tags.value, IsAnchor);
    if anchors == [] {
      return 1;
    }
    var suspiciousAnchors := 0;
    var i := 0;
    while i < |anchors|
      invariant 0 <= i <= |anchors|
      invariant suspiciousAnchors == |Filter(anchors[..i], SuspiciousAnchor(domain))|
    {
      FilterPrefix(anchors, i, SuspiciousAnchor(domain));
      var href := Attr(anchors[i].href);
      if href in PlaceholderHrefs {
        suspiciousAnchors := suspiciousAnchors + 1;
      } else if IsExternal(href, domain) {
        suspiciousAnchors := suspiciousAnchors + 1;
      }
      i := i + 1;
    }
    assert anchors[..i] == anchors;
    r := RatioBucket(suspiciousAnchors, |anchors|, 31, 67);
  }

  /**
   * With content, `URL_of_Anchor` buckets the share of suspicious anchors at
   * 0.31 and 0.67; a page without anchors scores 1.
   */
  lemma AnchorThresholds(page: Option<Page>, domain: string)
    requires HasContent(page) && page.value.tags.Some?
    ensures
      var anchors := Filter(page.value.tags.value, IsAnchor);
      var total := |anchors|;
      var suspicious := |Filter(anchors, SuspiciousAnchor(domain))|;
      var r := AnchorScore(page, domain);
      && suspicious <= total
      && (total == 0 ==> r == 1)
      && (total > 0 ==> (r == 1 <==> (suspicious as real) / (total as real) < 0.31))
      && (total > 0 ==> (r == 0 <==> 0.31 <= (suspicious as real) / (total as real) < 0.67))
      && (total > 0 ==> (r == -1 <==> 0.67 <= (suspicious as real) / (total as real)))
  {
    var anchors := Filter(page.value.tags.value, IsAnchor);
    var suspicious := |Filter(anchors, SuspiciousAnchor(domain))|;
    if |anchors| > 0 {
      RatioBucketIsRatio(suspicious, |anchors|, 31, 67);
    }
  }

  // Feature 15, `Links_in_tags`.

  /** The `meta`, then `script`, then `link` tags: the list the loop walks. */
  function LinkedTags(tags: seq<Tag>): seq<Tag> {
    Filter(tags, Named("meta")) + Filter(tags, Named("script")) + Filter(tags, Named("link"))
  }

  /** The attributes looked at, in order: `content`, `src`, `href`. */
  function LinkAttrs(t: Tag): (attrs: seq<Option<string>>)
    ensures |attrs| == 3
  {
    [t.content, t.src, t.href]
  }

  /** `value and value.startswith('http') and domain not in value`. */
  predicate IsExternalValue(v: Option<string>, domain: string) {
    Attr(v) != "" && IsExternal(Attr(v), domain)
  }

  /** A tag counted once in `external_tags`: one of its three attributes leaves the site. */
  function ExternalTag(domain: string): Tag -> bool {
    (t: Tag) => exists j :: 0 <= j < 3 && IsExternalValue(LinkAttrs(t)[j], domain)
  }

  /** Bucket of the share of linking tags with an external attribute, at 17% and 81%. */
  function LinksInTagsScore(page: Option<Page>, domain: string): (r: Score)
    ensures !HasContent(page) || page.value.tags.None? ==> r == -1
    ensures (HasContent(page) && page.value.tags.Some?
             && forall t :: t in page.value.tags.value ==> !ExternalTag(domain)(t))
            ==> r == 1
  {
    if !HasContent(page) then -1
    else match page.value.tags
      case None => -1
      case Some(tags) =>
        var linked := LinkedTags(tags);
        var external := Filter(linked, ExternalTag(domain));
        FilterKeepsNone(linked, ExternalTag(domain));
        if |linked| == 0 then 1 else RatioBucket(|external|, |linked|, 17, 81)
  }

  /**
   * The attribute loop for one tag: `content`, then `src`, then `href`,
   * stopping at the first external value.
   */
  method HasExternalAttr(t: Tag, domain: string) returns (found: bool)
    ensures found == ExternalTag(domain)(t)
  {
    var attrs := LinkAttrs(t);
    var j := 0;
    while j < |attrs|
      invariant 0 <= j <= |attrs|
      invariant forall m :: 0 <= m < j ==> !IsExternalValue(attrs[m], domain)
    {
      if IsExternalValue(attrs[j], domain) {
        return true;
      }
      j := j + 1;
    }
    return false;
  }

  /**
   * The loop over the linking tags: each tag adds at most one to the count,
   * because the attribute loop stops at the first external value.
   */
  method CountExternalTags(linked: seq<Tag>, domain: string) returns (externalTags: nat)
    ensures externalTags == |Filter(linked, ExternalTag(domain))|
  {
    externalTags := 0;
    var i := 0;
    while i < |linked|
      invariant 0 <= i <= |linked|
      invariant externalTags == |Filter(linked[..i], ExternalTag(domain))|
    {
      FilterPrefix(linked, i, ExternalTag(domain));
      var external := HasExternalAttr(linked[i], domain);
      if external {
        externalTags := externalTags + 1;
      }
      i := i + 1;
    }
    assert linked[..i] == linked;
  }

  /** `Links_in_tags` itself: the count over the linking tags, then the bucket. */
  method LinksInTags(page: Option<Page>, domain: string) returns (r: Score)
    ensures r == LinksInTagsScore(page, domain)
  {
    if !HasContent(page) || page.value.tags.None? {
      return -1;
    }
    var linked := LinkedTags(page.value.tags.value);
    var externalTags := CountExternalTags(linked, domain);
    if |linked| == 0 {
      return 1;
    }
    r := RatioBucket(externalTags, |linked|, 17, 81);
  }

  /**
   * With content, `Links_in_tags` buckets the share of linking tags with an
   * external attribute at 0.17 and 0.81, each tag counted at most once; a
   * page without linking tags scores 1.
   */
  lemma LinksThresholds(page: Option<Page>, domain: string)
    requires HasContent(page) && page.value.tags.Some?
    ensures
      var linked := LinkedTags(page.value.tags.value);
      var total := |linked|;
      var external := |Filter(linked, ExternalTag(domain))|;
      var r := LinksInTagsScore(page, domain);
      && external <= total
      && (total == 0 ==> r == 1)
      && (total > 0 ==> (r == 1 <==> (external as real) / (total as real) < 0.17))
      && (total > 0 ==> (r == 0 <==> 0.17 <= (external as real) / (total as real) < 0.81))
      && (total > 0 ==> (r == -1 <==> 0.81 <= (external as real) / (total as real)))
  {
    var linked := LinkedTags(page.value.tags.value);
    var external := |Filter(linked, ExternalTag(domain))|;
    if |linked| > 0 {
      RatioBucketIsRatio(external, |linked|, 17, 81);
    }
  }

  // Feature 16, `SFH`.

  /** An empty or `#` action, one to another site, or one that mails the form. */
  predicate BadAction(action: string, domain: string) {
    action == "" || action == "#" || IsExternal(action, domain) || Contains(action, "mailto:")
  }

  /** 1 exactly when the page was parsed and every form posts to a proper handler on the site. */
  function SfhScore(page: Option<Page>, domain: string): (r: Score)
    ensures r == -1 <==>
      (!HasContent(page) || page.value.tags.None?
       || exists t :: t in page.value.tags.value && t.name == "form" && BadAction(Attr(t.action), domain))
    ensures r == 1 || r == -1
  {
    if !HasContent(page) then -1
    else match page.value.tags
      case None => -1
      case Some(tags) =>
        var forms := Filter(tags, Named("form"));
        assert forall t :: t in tags && t.name == "form" <==> t in forms;
        if forms == [] then 1
        else if exists t :: t in forms && BadAction(Attr(t.action), domain) then -1
        else 1
  }

  /** The scan over the forms that stops at the first bad action. */
  method Sfh(page: Option<Page>, domain: string) returns (r: Score)
    ensures r == SfhScore(page, domain)
  {
    if !HasContent(page) || page.value.tags.None? {
      return -1;
    }
    var forms := Filter(page.value.tags.value, Named("form"));
    if forms == [] {
      return 1;
    }
    var i := 0;
    while i < |forms|
      invariant 0 <= i <= |forms|
      invariant forall k :: 0 <= k < i ==> !BadAction(Attr(forms[k].action), domain)
    {
      var action := Attr(forms[i].action);
      if action == "" || action == "#" {
        return -1;
      } else if IsExternal(action, domain) {
        return -1;
      } else if Contains(action, "mailto:") {
        return -1;
      }
      i := i + 1;
    }
    return 1;
  }

  // Feature 23, `Iframe`.

  /** A frame drawn at most one pixel wide or high, or hidden by its style. */
  predicate InvisibleFrame(t: Tag) {
    var width := t.width.GetOr("100");
    var height := t.height.GetOr("100");
    var style := ReplaceAll(Attr(t.style), " ", "");
    width in {"0", "1"} || height in {"0", "1"}
    || Contains(style, "display:none") || Contains(style, "visibility:hidden")
  }

  /** The `iframe` tags of a parsed page. */
  function Frames(tags: seq<Tag>): seq<Tag> {
    Filter(tags, Named("iframe"))
  }

  /** `0` invisible frames score 1, at most half of them 0, more -1. */
  function HalfBucket(suspicious: nat, total: nat): (r: Score)
    ensures r == 1 <==> suspicious == 0
    ensures r == 0 <==> 0 < suspicious && 2 * suspicious <= total
    ensures r == -1 <==> 0 < suspicious && 2 * suspicious > total
  {
    if suspicious == 0 then 1
    else if suspicious <= total / 2 then 0
    else -1
  }

  /**
   * 1 with no invisible frame, 0 when at most half the frames are invisible,
   * -1 when more than half are; no content or a parser error scores 1.
   */
  function IframeScore(page: Option<Page>): (r: Score)
    ensures !HasContent(page) || page.value.tags.None? ==> r == 1
    ensures r == -1 <==>
      (HasContent(page) && page.value.tags.Some?
       && 2 * |Filter(Frames(page.value.tags.value), InvisibleFrame)| > |Frames(page.value.tags.value)|)
    ensures r == 0 <==>
      (HasContent(page) && page.value.tags.Some?
       && 0 < |Filter(Frames(page.value.tags.value), InvisibleFrame)|
       && 2 * |Filter(Frames(page.value.tags.value), InvisibleFrame)| <= |Frames(page.value.tags.value)|)
  {
    if !HasContent(page) then 1
    else match page.value.tags
      case None => 1
      case Some(tags) =>
        var iframes := Frames(tags);
        if iframes == [] then 1
        else
          HalfBucket(|Filter(iframes, InvisibleFrame)|, |iframes|)
  }

  /** The counting loop over the frames. */
  method Iframe(page: Option<Page>) returns (r: Score)
    ensures r == IframeScore(page)
  {
    if !HasContent(page) || page.value.tags.None? {
      return 1;
    }
    var iframes := Frames(page.value.tags.value);
    if iframes == [] {
      return 1;
    }
    var suspiciousIframes := 0;
    var i := 0;
    while i < |iframes|
      invariant 0 <= i <= |iframes|
      invariant suspiciousIframes == |Filter(iframes[..i], InvisibleFrame)|
    {
      FilterPrefix(iframes, i, InvisibleFrame);
      if InvisibleFrame(iframes[i]) {
        suspiciousIframes := suspiciousIframes + 1;
      }
      i := i + 1;
    }
    assert iframes[..i] == iframes;
    r := HalfBucket(suspiciousIframes, |iframes|);
  }
}
