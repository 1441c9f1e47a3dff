/**
 * The `having_IP_Address` pattern,
 * `((25[0-5]|2[0-4][0-9]|[01]?[0-9][0-9]?)\.){3}(25[0-5]|2[0-4][0-9]|[01]?[0-9][0-9]?)`,
 * searched anywhere in the URL. The language of the pattern is written out as
 * predicates, and a left-to-right scanner is proved to find a match exactly
 * when some substring of the URL is in that language, which is what
 * `re.search` reports.
 */
module IpAddress {
  import opened Scoring
  import opened Text

  /** One octet: a whole-string match of `25[0-5]|2[0-4][0-9]|[01]?[0-9][0-9]?`. */
  predicate Octet(s: string) {
    || (|s| == 3 && s[0] == '2' && s[1] == '5' && '0' <= s[2] <= '5')
    || (|s| == 3 && s[0] == '2' && '0' <= s[1] <= '4' && IsDigit(s[2]))
    || (|s| == 3 && (s[0] == '0' || s[0] == '1') && IsDigit(s[1]) && IsDigit(s[2]))
    || (|s| == 2 && (s[0] == '0' || s[0] == '1') && IsDigit(s[1]))
    || (|s| == 2 && IsDigit(s[0]) && IsDigit(s[1]))
    || (|s| == 1 && IsDigit(s[0]))
  }

  function Digit(c: char): int {
    c as int - '0' as int
  }

  lemma ValueOfShort(s: string)
    requires 1 <= |s| <= 3 && AllDigits(s)
    ensures |s| == 1 ==> DecimalValue(s) == Digit(s[0])
    ensures |s| == 2 ==> DecimalValue(s) == 10 * Digit(s[0]) + Digit(s[1])
    ensures |s| == 3 ==> DecimalValue(s) == 100 * Digit(s[0]) + 10 * Digit(s[1]) + Digit(s[2])
  {
    var a := s[..|s| - 1];
    assert DecimalValue(s) == DecimalValue(a) * 10 + Digit(s[|s| - 1]);
    if |s| >= 2 {
      var b := a[..|a| - 1];
      assert DecimalValue(a) == DecimalValue(b) * 10 + Digit(a[|a| - 1]);
      if |s| == 3 {
        assert DecimalValue(b) == DecimalValue(b[..0]) * 10 + Digit(b[0]);
      }
    }
  }

  /** The octet alternatives accept exactly the decimal numerals of one to three digits up to 255. */
  lemma OctetIsByte(s: string)
    ensures Octet(s) <==> 1 <= |s| <= 3 && AllDigits(s) && DecimalValue(s) <= 255
  {
    if 1 <= |s| <= 3 && AllDigits(s) {
      ValueOfShort(s);
    }
  }

  /** The number of octets in an address. */
  const Parts: nat := 4

  /**
   * `s` is `k` parts joined by dots, `(part\.){k-1}part`, where every part is
   * one to three characters long and accepted by `part` (the octet pattern,
   * in this module).
   */
  predicate Dotted(part: string -> bool, s: string, k: nat)
    decreases k, 1
  {
    if k <= 1 then k == 1 && 1 <= |s| <= 3 && part(s)
    else DotAfter(part, s, 1, k) || DotAfter(part, s, 2, k) || DotAfter(part, s, 3, k)
  }

  /** `s` is a part of length `n`, a dot, and `k - 1` dotted parts. */
  predicate DotAfter(part: string -> bool, s: string, n: nat, k: nat)
    requires k >= 2
    decreases k, 0
  {
    n < |s| && part(s[..n]) && s[n] == '.' && Dotted(part, s[n + 1..], k - 1)
  }

  /** What `re.search` looks for: some substring of `u` is a dotted quad. */
  ghost predicate HasDottedQuad(u: string) {
    exists i, j :: 0 <= i <= j <= |u| && Dotted(Octet, u[i..j], Parts)
  }

  /**
   * `k` dotted parts start at index `i` of `u` (and end somewhere): the
   * backtracking matcher tries a part of each length at `i`, and for all but
   * the last part a dot and the rest of the pattern after it.
   */
  predicate MatchAt(part: string -> bool, u: string, i: nat, k: nat)
    requires i <= |u|
    decreases |u| - i, 1
  {
    PartAt(part, u, i, 1, k) || PartAt(part, u, i, 2, k) || PartAt(part, u, i, 3, k)
  }

  /** The alternative of `MatchAt` whose first part has length `n`. */
  predicate PartAt(part: string -> bool, u: string, i: nat, n: nat, k: nat)
    requires i <= |u|
    decreases |u| - i, 0
  {
    && i + n <= |u| && part(u[i..i + n])
    && (k <= 1 || (i + n < |u| && u[i + n] == '.' && MatchAt(part, u, i + n + 1, k - 1)))
  }

  /** Slicing a slice of `u` is slicing `u`. */
  lemma Slices(u: string, i: nat, j: nat, n: nat)
    requires i + n < j <= |u|
    ensures u[i..j][..n] == u[i..i + n]
    ensures u[i..j][n] == u[i + n]
    ensures u[i..j][n + 1..] == u[i + n + 1..j]
  {
  }

  /** A match found at `i` spans a substring in the language. */
  lemma {:induction false} MatchAtSound(part: string -> bool, u: string, i: nat, k: nat)
    requires i <= |u| && k >= 1
    requires MatchAt(part, u, i, k)
    ensures exists j :: i <= j <= |u| && Dotted(part, u[i..j], k)
    decreases k
  {
    var n := if PartAt(part, u, i, 1, k) then 1 else if PartAt(part, u, i, 2, k) then 2 else 3;
    assert PartAt(part, u, i, n, k);
    if k == 1 {
      assert Dotted(part, u[i..i + n], 1);
    } else {
      MatchAtSound(part, u, i + n + 1, k - 1);
      var j :| i + n + 1 <= j <= |u| && Dotted(part, u[i + n + 1..j], k - 1);
      Slices(u, i, j, n);
      assert DotAfter(part, u[i..j], n, k);
    }
  }

  /** A substring in the language starting at `i` is found by the matcher at `i`. */
  lemma {:induction false} MatchAtComplete(part: string -> bool, u: string, i: nat, j: nat, k: nat)
    requires i <= j <= |u| && k >= 1
    requires Dotted(part, u[i..j], k)
    ensures MatchAt(part, u, i, k)
    decreases k
  {
    if k == 1 {
      assert PartAt(part, u, i, j - i, k);
    } else {
      var s := u[i..j];
      var n := if DotAfter(part, s, 1, k) then 1 else if DotAfter(part, s, 2, k) then 2 else 3;
      assert DotAfter(part, s, n, k);
      Slices(u, i, j, n);
      MatchAtComplete(part, u, i + n + 1, j, k - 1);
      assert PartAt(part, u, i, n, k);
    }
  }

  /** A match starting at `i` is exactly a substring starting at `i` in the language. */
  lemma MatchAtIff(part: string -> bool, u: string, i: nat, k: nat)
    requires i <= |u| && k >= 1
    ensures MatchAt(part, u, i, k) <==> exists j :: i <= j <= |u| && Dotted(part, u[i..j], k)
  {
    if MatchAt(part, u, i, k) {
      MatchAtSound(part, u, i, k);
    }
    if exists j :: i <= j <= |u| && Dotted(part, u[i..j], k) {
      var j :| i <= j <= |u| && Dotted(part, u[i..j], k);
      MatchAtComplete(part, u, i, j, k);
    }
  }

  /** The scan from index `i` onwards: try a dotted quad at `i`, else move one character right. */
  function ScanFrom(u: string, i: nat): bool
    requires i <= |u|
    decreases |u| - i
  {
    MatchAt(Octet, u, i, Parts) || (i < |u| && ScanFrom(u, i + 1))
  }

  /** The scan from `i` succeeds exactly when a match starts at some index from `i` on. */
  lemma {:induction false} ScanFromIff(u: string, i: nat)
    requires i <= |u|
    ensures ScanFrom(u, i) <==> exists p :: i <= p <= |u| && MatchAt(Octet, u, p, Parts)
    decreases |u| - i
  {
    if MatchAt(Octet, u, i, Parts) {
      assert exists p :: i <= p <= |u| && MatchAt(Octet, u, p, Parts);
    } else if i < |u| {
      ScanFromIff(u, i + 1);
      if exists p :: i <= p <= |u| && MatchAt(Octet, u, p, Parts) {
        var p :| i <= p <= |u| && MatchAt(Octet, u, p, Parts);
        assert i + 1 <= p;
      }
    }
  }

  /** The scan finds a match exactly when `re.search` does. */
  lemma ScanFindsDottedQuad(u: string)
    ensures ScanFrom(u, 0) <==> HasDottedQuad(u)
  {
    ScanFromIff(u, 0);
    if ScanFrom(u, 0) {
      var p :| 0 <= p <= |u| && MatchAt(Octet, u, p, Parts);
      MatchAtIff(Octet, u, p, Parts);
    }
    if HasDottedQuad(u) {
      var i, j :| 0 <= i <= j <= |u| && Dotted(Octet, u[i..j], Parts);
      MatchAtIff(Octet, u, i, Parts);
    }
  }

  /** Feature 1, `having_IP_Address`: -1 when a dotted quad occurs anywhere in the URL, else 1. */
  function HavingIpAddress(url: string): (r: Score)
    ensures r == -1 <==> HasDottedQuad(url)
    ensures r == 1 <==> !HasDottedQuad(url)
  {
    ScanFindsDottedQuad(url);
    if ScanFrom(url, 0) then -1 else 1
  }

  /** Every dotted numeral starts with a digit. */
  lemma DottedStartsWithDigit(s: string, k: nat)
    ensures Dotted(Octet, s, k) ==> |s| > 0 && IsDigit(s[0])
  {
    if Dotted(Octet, s, k) && k > 1 {
      var n := if DotAfter(Octet, s, 1, k) then 1 else if DotAfter(Octet, s, 2, k) then 2 else 3;
      assert DotAfter(Octet, s, n, k);
      assert s[..n][0] == s[0];
    }
  }

  /** A URL with no digit at all never looks like an IP address. */
  lemma NoDigitNoAddress(url: string)
    requires forall i :: 0 <= i < |url| ==> !IsDigit(url[i])
    ensures HavingIpAddress(url) == 1
  {
    forall i, j | 0 <= i <= j <= |url|
      ensures !Dotted(Octet, url[i..j], Parts)
    {
      DottedStartsWithDigit(url[i..j], Parts);
    }
  }

  lemma OneDotOne()
    ensures Dotted(Octet, "1.1", 2)
  {
    var v := "1.1";
    assert Octet(v[..1]) && v[1] == '.';
    assert v[2..] == "1";
    assert Dotted(Octet, v[2..], 1);
    assert DotAfter(Octet, v, 1, 2);
  }

  lemma OneSixtyEight()
    ensures Dotted(Octet, "168.1.1", 3)
  {
    OneDotOne();
    var t := "168.1.1";
    assert t[..3] == "168";
    assert Octet(t[..3]) && t[3] == '.';
    assert t[4..] == "1.1";
    assert DotAfter(Octet, t, 3, 3);
  }

  /** "192.168.1.1" is a dotted quad. */
  lemma ExampleQuad()
    ensures Dotted(Octet, "192.168.1.1", 4)
  {
    OneSixtyEight();
    var s := "192.168.1.1";
    assert s[..3] == "192";
    assert Octet(s[..3]) && s[3] == '.';
    assert s[4..] == "168.1.1";
    assert DotAfter(Octet, s, 3, 4);
  }

  /** `having_IP_Address("http://192.168.1.1/login")` is -1. */
  lemma ExampleIpUrl()
    ensures HavingIpAddress("http://192.168.1.1/login") == -1
  {
    ExampleQuad();
    var u := "http://192.168.1.1/login";
    assert u[7..18] == "192.168.1.1";
    assert HasDottedQuad(u);
  }
}
