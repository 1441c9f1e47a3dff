/**
 * The scorers that read the page text itself: features 17
 * (`Submitting_to_email`), 20 (`on_mouseover`), 21 (`RightClick`) and 22
 * (`popUpWidnow`). All of them work on the lower-cased text.
 */
module Script {
  import opened Scoring
  import opened Wrappers
  import opened Text
  import opened Regex
  import opened Html

  /** Feature 17: -1 without content or when `mailto:` occurs in the lower-cased text. */
  function SubmittingToEmail(page: Option<Page>): (r: Score)
    ensures r == 1 <==> HasContent(page) && !Contains(Lower(page.value.text), "mailto:")
    ensures r == 1 || r == -1
  {
    if !HasContent(page) then -1
    else if Contains(Lower(page.value.text), "mailto:") then -1
    else 1
  }

  /** `onmouseover.*window.status`, `onmouseover.*location.href`, `window.status.*onmouseover`; each `.` matches any character. */
  const MousePatterns: seq<seq<Atom>> := [
    Lits("onmouseover") + [AnyRun] + Lits("window") + [AnyChar] + Lits("status"),
    Lits("onmouseover") + [AnyRun] + Lits("location") + [AnyChar] + Lits("href"),
    Lits("window") + [AnyChar] + Lits("status") + [AnyRun] + Lits("onmouseover")
  ]

  /** `oncontextmenu.*return false`, `oncontextmenu.*false`, `event.button.*2`, `contextmenu.*preventdefault`. */
  const RightClickPatterns: seq<seq<Atom>> := [
    Lits("oncontextmenu") + [AnyRun] + Lits("return false"),
    Lits("oncontextmenu") + [AnyRun] + Lits("false"),
    Lits("event") + [AnyChar] + Lits("button") + [AnyRun] + Lits("2"),
    Lits("contextmenu") + [AnyRun] + Lits("preventdefault")
  ]

  /** Some pattern of the list is found in the text. */
  predicate AnyFound(patterns: seq<seq<Atom>>, text: string) {
    exists k :: 0 <= k < |patterns| && Search(patterns[k], text)
  }

  /** Feature 20: -1 exactly when the page has content and a mouse-over pattern is found in its lower-cased text. */
  function MouseoverScore(page: Option<Page>): (r: Score)
    ensures r == -1 <==> HasContent(page) && AnyFound(MousePatterns, Lower(page.value.text))
    ensures r == 1 <==> !(HasContent(page) && AnyFound(MousePatterns, Lower(page.value.text)))
  {
    if !HasContent(page) then 1
    else if AnyFound(MousePatterns, Lower(page.value.text)) then -1
    else 1
  }

  /** Feature 21: -1 exactly when the page has content and a right-click pattern is found in its lower-cased text. */
  function RightClickScore(page: Option<Page>): (r: Score)
    ensures r == -1 <==> HasContent(page) && AnyFound(RightClickPatterns, Lower(page.value.text))
    ensures r == 1 <==> !(HasContent(page) && AnyFound(RightClickPatterns, Lower(page.value.text)))
  {
    if !HasContent(page) then 1
    else if AnyFound(RightClickPatterns, Lower(page.value.text)) then -1
    else 1
  }

  /** The atoms of a word split in two are the atoms of the parts. */
  lemma LitsAppend(a: string, b: string)
    ensures Lits(a + b) == Lits(a) + Lits(b)
  {
  }

  /**
   * `oncontextmenu.*return false` adds nothing: wherever it is found,
   * `oncontextmenu.*false` is found too, so the three other patterns decide.
   */
  lemma RightClickFirstPatternRedundant(text: string)
    ensures AnyFound(RightClickPatterns, text) <==> AnyFound(RightClickPatterns[1..], text)
  {
    if Search(RightClickPatterns[0], text) {
      LitsAppend("return ", "false");
      assert "return " + "false" == "return false";
      var w, x, v := "oncontextmenu", "return ", Lits("false");
      assert RightClickPatterns[0] == Lits(w) + ([AnyRun] + (Lits(x) + v));
      assert RightClickPatterns[1] == Lits(w) + ([AnyRun] + v);
      SearchDropsLits(w, x, v, text);
      assert RightClickPatterns[1..][0] == RightClickPatterns[1];
    }
    if AnyFound(RightClickPatterns[1..], text) {
      var k :| 0 <= k < |RightClickPatterns[1..]| && Search(RightClickPatterns[1..][k], text);
      assert RightClickPatterns[1..][k] == RightClickPatterns[k + 1];
    }
  }

  /** `window.open`, `popup`, `alert\(` and `confirm\(`, tested as plain substrings: the last two keep their backslash. */
  const PopupPatterns: seq<string> := ["window.open", "popup", "alert\\(", "confirm\\("]

  /** How many of the patterns `pats` occur in `text`. */
  function CountFound(pats: seq<string>, text: string): (n: nat)
    ensures n <= |pats|
    ensures n == 0 <==> forall k :: 0 <= k < |pats| ==> !Contains(text, pats[k])
    decreases |pats|
  {
    if pats == [] then 0
    else (if Contains(text, pats[0]) then 1 else 0) + CountFound(pats[1..], text)
  }

  /** Feature 22: no pattern 1, one or two patterns 0, three or four -1; no content 1. */
  function PopUpScore(page: Option<Page>): (r: Score)
    ensures !HasContent(page) ==> r == 1
    ensures HasContent(page) ==>
      (r == 1 <==> forall k :: 0 <= k < |PopupPatterns| ==> !Contains(Lower(page.value.text), PopupPatterns[k]))
    ensures HasContent(page) ==> (r == -1 <==> CountFound(PopupPatterns, Lower(page.value.text)) >= 3)
  {
    if !HasContent(page) then 1
    else
      var popupCount := CountFound(PopupPatterns, Lower(page.value.text));
      if popupCount == 0 then 1
      else if popupCount <= 2 then 0
      else -1
  }

  /** A text missing a character of `sub` cannot contain `sub`. */
  lemma MissingCharNotContained(s: string, sub: string, c: char)
    requires c in sub && c !in s
    ensures !Contains(s, sub)
  {
    ContainsIffOccurs(s, sub);
    forall i | 0 <= i <= |s|
      ensures !OccursAt(s, sub, i)
    {
      if i + |sub| <= |s| {
        var j :| 0 <= j < |sub| && sub[j] == c;
        assert s[i..i + |sub|][j] == s[i + j];
      }
    }
  }

  /** `alert(1)` is already lower-case. */
  lemma PlainAlertLower()
    ensures Lower("alert(1)") == "alert(1)"
  {
    LowerFixesLower("alert(1)");
  }

  /** None of the four patterns occurs in `alert(1)`. */
  lemma PlainAlertMisses(k: int)
    requires 0 <= k < |PopupPatterns|
    ensures !Contains("alert(1)", PopupPatterns[k])
  {
    var t := "alert(1)";
    if k == 0 {
      assert 'w' !in t;
      MissingCharNotContained(t, PopupPatterns[0], 'w');
    } else if k == 1 {
      assert 'p' !in t;
      MissingCharNotContained(t, PopupPatterns[1], 'p');
    } else {
      assert '\\' !in t;
      assert PopupPatterns[k][|PopupPatterns[k]| - 2] == '\\';
      MissingCharNotContained(t, PopupPatterns[k], '\\');
    }
  }

  /** Because the patterns keep their backslash, a plain `alert(` call is not counted. */
  lemma PlainAlertNotCounted()
    ensures PopUpScore(Some(Page("alert(1)", None))) == 1
  {
    PlainAlertLower();
    forall k | 0 <= k < |PopupPatterns|
      ensures !Contains("alert(1)", PopupPatterns[k])
    {
      PlainAlertMisses(k);
    }
  }
}
