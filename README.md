# Phishing URL feature extractor, modelled in Dafny

This project models `extract_features_from_url` from
`networksecurity/utils/feature_extractor.py` together with its thirty nested scorers.
The function turns a URL into the thirty-entry vector that the phishing classifier reads.
Each entry is 1 (legitimate), 0 (suspicious) or -1 (phishing).

The extractor works in four steps:

1. It prepends `http://` when the URL has no scheme.
2. It takes the network location with `urlparse`, lower-cases it, and builds a `clean_domain` without `www.` and without the port.
3. It asks WHOIS about the host and fetches the page.
4. It appends the thirty scores in a fixed order, then pads with -1 and cuts the list to thirty.

A URL whose network location cannot be parsed gives thirty -1 entries.

The outside world is one value, `Features.Env`. It carries:

- the WHOIS answer and the DNS answer, both keyed by the cleaned host;
- the page fetch (status and page), the `tldextract` subdomain and the redirect probe, all keyed by the normalised URL;
- the current time in seconds.

A fetched page is its text plus the tags an HTML parser found in it, in document order.

Modules, one per file:

| module | file | contents |
|---|---|---|
| `Wrappers` | `wrappers.dfy` | the `Option` type |
| `Scoring` | `scoring.dfy` | the `Score` type |
| `Text` | `text.dfy` | the string operations the extractor uses: `in`, `startswith`, `find`, `split`, `replace`, `count`, ASCII `lower` |
| `Url` | `url.dfy` | scheme normalisation, the `urlsplit` network location and its port, `clean_domain` |
| `IpAddress` | `ip_address.dfy` | a scanner for the dotted-quad pattern of feature 1, proved to accept exactly the URLs that contain a match |
| `Regex` | `regex.dfy` | literal-and-`.*` patterns with `re.search` semantics, for the mouse-over and right-click patterns |
| `Lexical` | `lexical.dfy` | features 2–8, 11 and 12 |
| `Html` | `html.dfy` | tags, pages and an order-keeping `Filter` |
| `Dom` | `dom.dfy` | features 10, 13, 14, 15, 16 and 23, each as a function and as the loop of `feature_extractor.py` |
| `Script` | `script.dfy` | features 17, 20, 21 and 22 |
| `Records` | `records.dfy` | features 9, 18, 19, 24 and 25 |
| `Stubs` | `stubs.dfy` | features 26–30 |
| `Features` | `features.dfy` | the aggregator and the properties of the whole vector |

`urlparse` accepts the empty string and `://bad`.
They normalise to `http://` and `http://://bad`, whose network locations are empty and `:`.
`Url.EmptyInputParses`, `Url.SchemeOnlyInputParses` and `Features.EmptyInputIsScored` state this.
The only parse failure modelled is a network location with an unmatched `[` or `]` (`Features.UnmatchedBracketAllPhishing`).
`urlsplit` raises in two more cases, and the model scores those inputs instead of giving thirty -1 entries (see "Left out").

## Model

| member | source | states |
|---|---|---|
| Url.Normalize | networksecurity/utils/feature_extractor.py:50-52 | the result starts with `http://` or `https://`; an input that already does is returned unchanged; any other input becomes exactly `"http://" + input` |
| Url.NormalizeIdempotent | networksecurity/utils/feature_extractor.py:50-52 | normalising twice is normalising once |
| Url.CleanDomain | networksecurity/utils/feature_extractor.py:59-61 | `clean_domain` never contains `:`; when the netloc does not start with `www.` it is the netloc's text before its first `:` |
| Url.CleanDomainRemovesInnerWww | networksecurity/utils/feature_extractor.py:60 | with a leading `www.`, every `www.` is removed, not only the first: `www.a.www.b:port` cleans to `a.b` |
| Url.Parse | networksecurity/utils/feature_extractor.py:54-64 | parsing fails exactly when the netloc has an unmatched bracket, the only `urlsplit` error modelled; on success the domain is the lower-cased netloc and the cleaned host has no `:` |
| Url.PortOf | networksecurity/utils/feature_extractor.py:213 | `parsed_url.port`: a port read is at most 65535; a netloc without `:` has no port (which number is read is stated by `Url.PortOfHostPort`) |
| Url.PortTextOfHostPort | networksecurity/utils/feature_extractor.py:213 | in `host:p`, with no `@`, `[` or `:` in the host, the port text is all of `p` |
| Url.PortOfHostPort | networksecurity/utils/feature_extractor.py:213 | in `host:p`, a port of digits up to 65535 reads as its decimal value |
| Url.PortOutOfRange | networksecurity/utils/feature_extractor.py:213-221 | in `host:p`, a port of digits above 65535 makes the port lookup raise |
| Url.PortNotDigits | networksecurity/utils/feature_extractor.py:213-221 | in `host:p`, port text with a non-digit character makes the port lookup raise |
| Url.PortNumberExample | networksecurity/utils/feature_extractor.py:213 | `a:8080` has port 8080 |
| Url.PortErrorExample | networksecurity/utils/feature_extractor.py:213-221 | `a:80x` makes the port lookup raise |
| Url.EmptyInputParses | networksecurity/utils/feature_extractor.py:50-56 | the empty input normalises to `http://` and parses |
| Url.SchemeOnlyInputParses | networksecurity/utils/feature_extractor.py:50-56 | `://bad` normalises and parses |
| Url.UnmatchedBracketIsMalformed | networksecurity/utils/feature_extractor.py:54-64 | `[::1` normalises to a URL whose parse fails |
| IpAddress.OctetIsByte | networksecurity/utils/feature_extractor.py:68 | an octet of the pattern is exactly one to three digits with value at most 255 |
| IpAddress.MatchAtIff | networksecurity/utils/feature_extractor.py:68 | the scanner's test at a position holds exactly when some slice starting there is a dotted group of the given length |
| IpAddress.ScanFindsDottedQuad | networksecurity/utils/feature_extractor.py:68-69 | scanning every start position finds a match exactly when the URL contains a dotted quad of octets (`re.search`) |
| IpAddress.HavingIpAddress | networksecurity/utils/feature_extractor.py:66-69 | feature 1 is -1 exactly when the URL contains a dotted quad of octets, else 1 |
| IpAddress.DottedStartsWithDigit | networksecurity/utils/feature_extractor.py:68 | every dotted match starts with a digit |
| IpAddress.NoDigitNoAddress | networksecurity/utils/feature_extractor.py:66-69 | a URL without digits scores 1 |
| IpAddress.ExampleQuad | networksecurity/utils/feature_extractor.py:68 | `192.168.1.1` matches the pattern |
| IpAddress.ExampleIpUrl | networksecurity/utils/feature_extractor.py:66-69 | `http://192.168.1.1/login` scores -1 |
| Lexical.UrlLength | networksecurity/utils/feature_extractor.py:71-78 | 1 iff the length is under 54, 0 iff it is 54 to 74, -1 iff it is 75 or more |
| Lexical.UrlLengthMonotone | networksecurity/utils/feature_extractor.py:71-78 | a longer URL never scores higher |
| Lexical.ShorteningService | networksecurity/utils/feature_extractor.py:80-90 | the early-return scan gives -1 exactly when some service name occurs in the lower-cased URL, else 1 |
| Lexical.ShortenedWhenOccurs | networksecurity/utils/feature_extractor.py:87-89 | a service name found anywhere in the lower-cased URL makes the score -1 |
| Lexical.MicrosoftLooksShortened | networksecurity/utils/feature_extractor.py:87-89 | because the test is a substring test, `http://microsoft.com` scores -1 (it contains `t.co`) |
| Lexical.BitlyIsShortened | networksecurity/utils/feature_extractor.py:80-90 | a `bit.ly` URL scores -1 |
| Lexical.HavingAtSymbol | networksecurity/utils/feature_extractor.py:92-94 | -1 iff `@` occurs in the URL, 1 iff it does not |
| Lexical.DoubleSlashRedirecting | networksecurity/utils/feature_extractor.py:96-112 | -1 iff `//` occurs in the URL once its `http://` or `https://` prefix is removed, else 1 |
| Lexical.DoubleSlashFromFirstSlash | networksecurity/utils/feature_extractor.py:106-111 | searching from the first `/` finds `//` exactly when it occurs at all |
| Lexical.NoSlashNoDoubleSlash | networksecurity/utils/feature_extractor.py:107-112 | text without `/` has no `//` |
| Lexical.PrefixSuffix | networksecurity/utils/feature_extractor.py:114-117 | -1 iff the netloc before its first `:` contains `-`; it is given the whole netloc, subdomains included |
| Lexical.DashInSubdomainCounts | networksecurity/utils/feature_extractor.py:114-117 | a dash in a subdomain label (`my-shop.example.com`) scores -1 |
| Lexical.HavingSubDomain | networksecurity/utils/feature_extractor.py:119-135 | a failed lookup scores -1; an empty or dot-free subdomain 1; one dot 0; two or more dots -1 |
| Lexical.SubDomainMoreLabels | networksecurity/utils/feature_extractor.py:119-133 | adding a subdomain label never scores higher |
| Lexical.SslFinalState | networksecurity/utils/feature_extractor.py:137-146 | 1 iff the URL starts with `https://`, -1 otherwise; the host test of the second branch never decides anything |
| Lexical.PortScore | networksecurity/utils/feature_extractor.py:210-221 | -1 iff a port is read and it is neither 80 nor 443; no port and an unreadable port give 1 |
| Lexical.PortScoreOfHostPort | networksecurity/utils/feature_extractor.py:210-221 | in `host:p` with a port of digits, feature 11 is -1 exactly when the port is at most 65535 and is neither 80 nor 443 |
| Lexical.NoColonStandardPort | networksecurity/utils/feature_extractor.py:210-215 | a netloc without `:` scores 1 |
| Lexical.PortScoreExamples | networksecurity/utils/feature_extractor.py:210-221 | `a:8080` scores -1; `a:80x` raises and scores 1 |
| Lexical.HttpsToken | networksecurity/utils/feature_extractor.py:223-228 | -1 iff the netloc contains `https` and the URL does not start with `https://` |
| Lexical.HttpsTokenAgreesWithSsl | networksecurity/utils/feature_extractor.py:223-228 | a URL that passes `SSLfinal_State` passes `HTTPS_token`; with `https` in the host the two scores are equal |
| Records.RegistrationLength | networksecurity/utils/feature_extractor.py:155-174 | 1 iff the record is present, both dates are known and expiry minus creation is at least 365 days, else -1 |
| Records.ListDateUsesFirst | networksecurity/utils/feature_extractor.py:163-166 | a list of dates counts as its first element |
| Dom.FaviconScore | networksecurity/utils/feature_extractor.py:187-208 | 1 iff the page has content, has a favicon link and no favicon link has an external `href`; otherwise -1 |
| Dom.Favicon | networksecurity/utils/feature_extractor.py:187-208 | the early-return scan over the favicon links computes `FaviconScore` |
| Dom.RatioBucketIsRatio | networksecurity/utils/feature_extractor.py:254-261 | the integer cross-multiplication agrees with the float division and the strict `<` thresholds |
| Dom.RatioBucketMonotone | networksecurity/utils/feature_extractor.py:254-261 | a larger external count never scores higher |
| Dom.RequestUrlScore | networksecurity/utils/feature_extractor.py:230-263 | no content or a parser error scores -1; a page with no external request scores 1 |
| Dom.ExternalRequestsBounded | networksecurity/utils/feature_extractor.py:244-249 | the external requests never outnumber the counted requests |
| Dom.RequestUrl | networksecurity/utils/feature_extractor.py:241-261 | the counting loop computes `RequestUrlScore` |
| Dom.RequestUrlThresholds | networksecurity/utils/feature_extractor.py:241-261 | external ≤ total; no requests gives 1; otherwise the share buckets at 0.22 and 0.61 |
| Dom.AnchorScore | networksecurity/utils/feature_extractor.py:265-296 | no content scores -1; a page whose anchors are all suspicious scores -1 |
| Dom.UrlOfAnchor | networksecurity/utils/feature_extractor.py:272-294 | the counting loop computes `AnchorScore` |
| Dom.AnchorThresholds | networksecurity/utils/feature_extractor.py:272-294 | suspicious ≤ total; no anchors gives 1; otherwise the share buckets at 0.31 and 0.67 |
| Dom.LinksInTagsScore | networksecurity/utils/feature_extractor.py:298-333 | no content scores -1; a page without an external attribute scores 1 |
| Dom.HasExternalAttr | networksecurity/utils/feature_extractor.py:315-319 | the attribute loop with its `break` finds an external value exactly when one of `content`, `src`, `href` is external |
| Dom.CountExternalTags | networksecurity/utils/feature_extractor.py:312-319 | the tag loop counts exactly the tags with an external attribute, each at most once |
| Dom.LinksInTags | networksecurity/utils/feature_extractor.py:298-333 | the two loops and the bucket compute `LinksInTagsScore` |
| Dom.LinksThresholds | networksecurity/utils/feature_extractor.py:311-331 | external tags ≤ total tags; no tags gives 1; otherwise the share buckets at 0.17 and 0.81 |
| Dom.SfhScore | networksecurity/utils/feature_extractor.py:335-358 | -1 iff there is no content, the parser raised, or some form has an empty, `#`, external or `mailto:` action; else 1 |
| Dom.Sfh | networksecurity/utils/feature_extractor.py:347-356 | the early-return scan over the forms computes `SfhScore` |
| Dom.HalfBucket | networksecurity/utils/feature_extractor.py:509-514 | 1 iff no frame is invisible; 0 iff some but at most half are; -1 iff more than half are |
| Dom.IframeScore | networksecurity/utils/feature_extractor.py:484-516 | no content scores 1; -1 iff more than half the frames are invisible; 0 iff some but at most half are |
| Dom.Iframe | networksecurity/utils/feature_extractor.py:497-514 | the counting loop computes `IframeScore` |
| Script.SubmittingToEmail | networksecurity/utils/feature_extractor.py:360-370 | 1 iff there is content and the lower-cased text has no `mailto:`, else -1 |
| Script.MouseoverScore | networksecurity/utils/feature_extractor.py:413-433 | -1 iff there is content and one of the three patterns matches the lower-cased text, else 1 |
| Script.RightClickScore | networksecurity/utils/feature_extractor.py:435-456 | -1 iff there is content and one of the four patterns matches the lower-cased text, else 1 |
| Script.RightClickFirstPatternRedundant | networksecurity/utils/feature_extractor.py:442-447 | `oncontextmenu.*return false` matches only where `oncontextmenu.*false` does, so the first pattern never changes the score |
| Script.CountFound | networksecurity/utils/feature_extractor.py:473 | the count is at most the number of patterns and is zero iff no pattern occurs |
| Script.PopUpScore | networksecurity/utils/feature_extractor.py:458-482 | no content scores 1; otherwise 1 for no pattern, 0 for one or two, -1 for three or more |
| Script.PlainAlertNotCounted | networksecurity/utils/feature_extractor.py:468 | the pattern `alert\(` keeps its backslash, so a page reading `alert(1)` scores 1 |
| Records.AbnormalUrl | networksecurity/utils/feature_extractor.py:372-387 | 1 iff the record is present and the lower-cased cleaned host occurs in its lower-cased text, else -1 |
| Records.AbnormalUrlIgnoresCase | networksecurity/utils/feature_extractor.py:378-382 | the letter case of the host does not change the score |
| Records.Redirect | networksecurity/utils/feature_extractor.py:389-411 | a failed HEAD gives -1; 1 iff the status is not a redirect or at most one hop follows; 0 iff a redirect takes 2 to 4 hops |
| Records.RedirectMonotone | networksecurity/utils/feature_extractor.py:400-407 | more hops never score higher |
| Records.AgeOfDomain | networksecurity/utils/feature_extractor.py:518-538 | 1 iff the creation date is known and at least 180 days old; 0 iff it is 30 to 179 days old; -1 otherwise |
| Records.AgeOfDomainMonotone | networksecurity/utils/feature_extractor.py:518-538 | the same record scored later never scores lower |
| Records.DnsRecord | networksecurity/utils/feature_extractor.py:540-546 | 1 iff the host resolves, else -1 |
| Features.PageContent | networksecurity/utils/feature_extractor.py:176-185 | there is a page exactly when the fetch answered with status 200 |
| Features.Scores | networksecurity/utils/feature_extractor.py:587-616 | the thirty scores of a parsed URL; the last five are -1 |
| Features.Padded | networksecurity/utils/feature_extractor.py:622-626 | thirty entries: the input's entries first, then -1 |
| Features.PaddedFull | networksecurity/utils/feature_extractor.py:622-626 | padding and cutting leave a thirty-entry list unchanged |
| Features.PadAndTruncate | networksecurity/utils/feature_extractor.py:622-626 | the `while` loop and `features[:30]` compute `Padded` |
| Features.FeatureVector | networksecurity/utils/feature_extractor.py:50-626 | thirty entries, each -1, 0 or 1, the last five always -1, and all -1 when the URL does not parse |
| Features.CollectScores | networksecurity/utils/feature_extractor.py:579-616 | the thirty appends build `Scores` |
| Features.ExtractFeatures | networksecurity/utils/feature_extractor.py:50-626 | the extractor computes `FeatureVector` |
| Features.VectorOfParsed | networksecurity/utils/feature_extractor.py:587-626 | for a URL that parses, the vector is exactly the thirty scorer calls |
| Features.ScoresGroups | networksecurity/utils/feature_extractor.py:587-616 | entries 1–8 are the URL group, 9–12 the mixed group, 13–18 the reference group, 19–25 the behaviour group and 26–30 the stubs, so every scorer's result sits at its fixed position |
| Features.NoContentDefaults | networksecurity/utils/feature_extractor.py:187-516 | without page content, feature 10 and features 13–17 are -1 and features 20–23 are 1 |
| Features.ScoresWithoutContent | networksecurity/utils/feature_extractor.py:187-516 | the same defaults at the level of the thirty scores |
| Features.LexicalScoresIgnoreLookups | networksecurity/utils/feature_extractor.py:587-600 | features 1–6, 8, 11 and 12 do not depend on WHOIS, DNS, the fetch, the subdomain lookup or the clock |
| Features.UnmatchedBracketAllPhishing | networksecurity/utils/feature_extractor.py:54-64 | `[::1` gives thirty -1 entries |
| Features.LengthFeature | networksecurity/utils/feature_extractor.py:588 | feature 2 of a URL that parses is `URL_Length` of the normalised URL |
| Features.EmptyInputIsScored | networksecurity/utils/feature_extractor.py:50-56 | the empty input is not a parse error: its feature 2 is 1 |

## Left out

- Network I/O is not modelled. `whois.whois`, `requests.get`, `requests.head` and `socket.gethostbyname` become fields of `Features.Env`. A lookup that raised or timed out is `None` there.
- `datetime.now()` is the `now` field of `Features.Env`.
- Dates are whole seconds on one clock. Time zones and microseconds are not modelled. `.days` is floor division by 86400, the same as Dafny's `/` with a positive divisor.
- HTML parsing is an input. BeautifulSoup's tag list is given as the `tags` of `Html.Page`, with `None` standing for a parser that raised.
- A tag's `rel` is one text. BeautifulSoup gives a list of words, but the `'icon' in x.lower()` test decides the same either way.
- The `tldextract` subdomain is an input.
- `str(whois_info)` is the `text` field of `Records.WhoisRecord`. The truth value of a WHOIS answer is its `hasFields` field.
- `lower()` folds only ASCII letters. Unicode case folding is not modelled.
- Url.Parse: does not model two `ValueError`s of `urlsplit`, so the model scores these inputs where the code returns thirty -1 entries (lines 63-64). The first is a bracketed host that is not an IPv6 or IPvFuture address, such as `http://[abc]/`. The second is a non-ASCII netloc whose NFKC form gains one of `/?#@:`. Both need address grammars and Unicode normalisation tables that are outside this model. Scheme validation beyond the characters `urlsplit` allows is left out too.
- `re.search` is written out by hand. The dotted-quad pattern is in `IpAddress`. The mouse-over and right-click patterns are literals and `.*` in `Regex`. Other regular expressions are not modelled.
- Float division is replaced by exact integer cross-multiplication. `Dom.RatioBucketIsRatio` proves this agrees with exact real division. The rounding of Python floats is not modelled.
- Dom.RatioBucket: states only its two edge cases. Its buckets are stated against real division in `Dom.RatioBucketIsRatio`.
- Lexical.SslFinalState: returns `int` rather than `Score`. Its contract pins the result to 1 or -1.
- Lexical.ShorteningScore: states only that the result is 1 or -1. The method `Lexical.ShorteningService` and the lemmas beside it state when it is -1.
- Stubs.WebTraffic, Stubs.PageRank, Stubs.GoogleIndex, Stubs.LinksPointingToPage, Stubs.StatisticalReport: constant -1 with no contract of their own. `Features.Scores` and `Features.FeatureVector` state that entries 26–30 are -1.
- The `except` at lines 618-620 is not modelled. Every scorer already catches its own exceptions, so that branch cannot be reached. Its `print` is left out with it.
- The unused `path` variable (line 57) is left out.
- Source code outside `networksecurity/utils/feature_extractor.py` is not part of this model. That covers `app.py` (web service, data frames, model loading, database client) and `setup.py` (packaging).
