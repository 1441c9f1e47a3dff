/**
 * The fetched page as the scorers see it: the response text, and the tags an
 * HTML parser found in it. Attribute values are kept as the parser reports
 * them (`None` when the tag has no such attribute).
 */
module Html {
  import opened Wrappers

  datatype Tag = Tag(
    name: string,
    rel: Option<string>,
    href: Option<string>,
    src: Option<string>,
    content: Option<string>,
    action: Option<string>,
    width: Option<string>,
    height: Option<string>,
    style: Option<string>)

  /**
   * A page whose fetch answered 200: its text, and its tags in document
   * order (`None` when the parser raised on the text).
   */
  datatype Page = Page(text: string, tags: Option<seq<Tag>>)

  /** `if not page_content`: a page was fetched and its text is not empty. */
  predicate HasContent(page: Option<Page>) {
    page.Some? && page.value.text != ""
  }

  /** `tag.get(attr, '')`. */
  function Attr(v: Option<string>): (s: string)
    ensures v.None? ==> s == ""
    ensures v.Some? ==> s == v.value
  {
    v.GetOr("")
  }

  /** The elements of `s` satisfying `p`, in order: what `find_all` returns. */
  function Filter<T>(s: seq<T>, p: T -> bool): (r: seq<T>)
    ensures |r| <= |s|
    ensures forall x :: x in r ==> x in s && p(x)
    ensures forall x :: x in s && p(x) ==> x in r
    decreases |s|
  {
    if s == [] then []
    else Filter(s[..|s| - 1], p) + (if p(s[|s| - 1]) then [s[|s| - 1]] else [])
  }

  /** Filtering one more element extends the result by that element when it qualifies. */
  lemma FilterSnoc<T>(s: seq<T>, x: T, p: T -> bool)
    ensures Filter(s + [x], p) == Filter(s, p) + (if p(x) then [x] else [])
  {
    assert (s + [x])[..|s|] == s;
  }

  /** Filtering the prefix up to `i + 1` adds element `i` when it qualifies. */
  lemma FilterPrefix<T>(s: seq<T>, i: int, p: T -> bool)
    requires 0 <= i < |s|
    ensures |Filter(s[..i + 1], p)| == |Filter(s[..i], p)| + (if p(s[i]) then 1 else 0)
  {
    assert s[..i + 1] == s[..i] + [s[i]];
    FilterSnoc(s[..i], s[i], p);
  }

  /** A stronger test keeps no more elements than a weaker one. */
  lemma {:induction false} FilterWeaker<T>(s: seq<T>, p: T -> bool, q: T -> bool)
    requires forall x :: x in s && p(x) ==> q(x)
    ensures |Filter(s, p)| <= |Filter(s, q)|
    decreases |s|
  {
    if s != [] {
      FilterWeaker(s[..|s| - 1], p, q);
    }
  }

  /** A filter keeps everything exactly when every element qualifies. */
  lemma {:induction false} FilterKeepsAll<T>(s: seq<T>, p: T -> bool)
    ensures (forall x :: x in s ==> p(x)) ==> Filter(s, p) == s
    decreases |s|
  {
    if s != [] && forall x :: x in s ==> p(x) {
      var init := s[..|s| - 1];
      forall x | x in init
        ensures p(x)
      {
        var i :| 0 <= i < |init| && init[i] == x;
        assert s[i] == x;
      }
      FilterKeepsAll(init, p);
      assert init + [s[|s| - 1]] == s;
    }
  }

  /** A filter keeps nothing when no element qualifies. */
  lemma FilterKeepsNone<T>(s: seq<T>, p: T -> bool)
    ensures (forall x :: x in s ==> !p(x)) ==> Filter(s, p) == []
  {
    if Filter(s, p) != [] {
      assert Filter(s, p)[0] in Filter(s, p);
    }
  }

  /** Tags of one name, `soup.find_all(name)`. */
  function Named(name: string): Tag -> bool {
    (t: Tag) => t.name == name
  }
}
