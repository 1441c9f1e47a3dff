/**
 * Text operations with the meaning of the Python `str` methods the feature
 * extractor calls: `startswith`, `in`, `find`, `split`, `partition`,
 * `rpartition`, `replace`, `count` and `lower`.
 */
module Text {

  /** `s.startswith(p)` */
  predicate StartsWith(s: string, p: string) {
    |p| <= |s| && s[..|p|] == p
  }

  /** `sub` occurs in `s` at index `i`. */
  predicate OccursAt(s: string, sub: string, i: int) {
    0 <= i && i + |sub| <= |s| && s[i..i + |sub|] == sub
  }

  /** `sub in s`, scanning from the left. */
  predicate Contains(s: string, sub: string)
    decreases |s|
  {
    StartsWith(s, sub) || (|s| > 0 && Contains(s[1..], sub))
  }

  /** `sub in s` holds exactly when `sub` occurs in `s` at some index. */
  lemma {:induction false} ContainsIffOccurs(s: string, sub: string)
    ensures Contains(s, sub) <==> exists i :: OccursAt(s, sub, i)
    decreases |s|
  {
    if Contains(s, sub) {
      if StartsWith(s, sub) {
        assert OccursAt(s, sub, 0);
      } else {
        ContainsIffOccurs(s[1..], sub);
        var i :| OccursAt(s[1..], sub, i);
        assert s[1..][i..i + |sub|] == s[i + 1..i + 1 + |sub|];
        assert OccursAt(s, sub, i + 1);
      }
    }
    if exists i :: OccursAt(s, sub, i) {
      var i :| OccursAt(s, sub, i);
      if i == 0 {
        assert StartsWith(s, sub);
      } else {
        assert s[1..][i - 1..i - 1 + |sub|] == s[i..i + |sub|];
        assert OccursAt(s[1..], sub, i - 1);
        ContainsIffOccurs(s[1..], sub);
      }
    }
  }

  /** An occurrence at a known index makes `sub in s` true. */
  lemma ContainsAt(s: string, sub: string, i: int)
    requires OccursAt(s, sub, i)
    ensures Contains(s, sub)
  {
    ContainsIffOccurs(s, sub);
  }

  /** An occurrence in a suffix is an occurrence in the whole text, shifted. */
  lemma OccursInSuffix(s: string, sub: string, f: int, i: int)
    requires 0 <= f <= |s| && OccursAt(s[f..], sub, i)
    ensures OccursAt(s, sub, f + i)
  {
    assert s[f..][i..i + |sub|] == s[f + i..f + i + |sub|];
  }

  /** An occurrence at or after `f` is an occurrence in the suffix from `f`. */
  lemma OccursInSuffixFrom(s: string, sub: string, f: int, i: int)
    requires 0 <= f <= i && OccursAt(s, sub, i)
    ensures OccursAt(s[f..], sub, i - f)
  {
    assert s[f..][i - f..i - f + |sub|] == s[i..i + |sub|];
  }

  /** `s.find(c)`: the index of the first `c`, or -1. */
  function FindChar(s: string, c: char): (r: int)
    ensures -1 <= r < |s|
    ensures r == -1 <==> c !in s
    ensures r >= 0 ==> s[r] == c && c !in s[..r]
  {
    if |s| == 0 then -1
    else if s[0] == c then 0
    else
      var k := FindChar(s[1..], c);
      if k == -1 then -1
      else
        assert s[..k + 1] == [s[0]] + s[1..][..k];
        k + 1
  }

  /** `s.split(c)[0]`, equally `s.partition(c)[0]`: the text before the first `c`. */
  function BeforeChar(s: string, c: char): (r: string)
    ensures c !in r
    ensures StartsWith(s, r)
    ensures |r| == |s| || s[|r|] == c
  {
    var k := FindChar(s, c);
    if k == -1 then s else s[..k]
  }

  /** `s.partition(c)[2]`: the text after the first `c`, or "" when there is none. */
  function AfterChar(s: string, c: char): (r: string)
    ensures c in s ==> s == BeforeChar(s, c) + [c] + r
    ensures c !in s ==> r == ""
  {
    var k := FindChar(s, c);
    if k == -1 then "" else s[k + 1..]
  }

  /** When the first `c` is at index `k`, `find` answers `k` and the text splits around it. */
  lemma {:induction false} FirstCharAt(s: string, c: char, k: nat)
    requires k < |s| && s[k] == c && forall j :: 0 <= j < k ==> s[j] != c
    ensures FindChar(s, c) == k
    ensures BeforeChar(s, c) == s[..k] && AfterChar(s, c) == s[k + 1..]
    decreases k
  {
    if k > 0 {
      FirstCharAt(s[1..], c, k - 1);
    }
  }

  /** A suffix of the suffix from `f` is a suffix of the whole text, with the same character before it. */
  lemma SuffixOfSuffix(s: string, f: nat, r: string)
    requires f <= |s| && |r| <= |s| - f && s[f..][|s| - f - |r|..] == r
    ensures s[|s| - |r|..] == r
    ensures |r| < |s| - f ==> s[f..][|s| - f - |r| - 1] == s[|s| - |r| - 1]
  {
    assert s[f..][|s| - f - |r|..] == s[|s| - |r|..];
  }

  /** `s.rpartition(c)[2]`: the text after the last `c`, or all of `s` when there is none. */
  function AfterLast(s: string, c: char): (r: string)
    ensures c !in r
    ensures |r| <= |s| && s[|s| - |r|..] == r
    ensures |r| < |s| ==> s[|s| - |r| - 1] == c
    decreases |s|
  {
    var k := FindChar(s, c);
    if k == -1 then s
    else
      var r := AfterLast(s[k + 1..], c);
      SuffixOfSuffix(s, k + 1, r);
      r
  }

  /** The text before the first character of `s` that is in `stops` (all of `s` when none is). */
  function UpToAny(s: string, stops: set<char>): (r: string)
    ensures StartsWith(s, r)
    ensures forall i :: 0 <= i < |r| ==> r[i] !in stops
    ensures |r| == |s| || s[|r|] in stops
  {
    if |s| == 0 || s[0] in stops then ""
    else
      var r := UpToAny(s[1..], stops);
      assert s[..|r| + 1] == [s[0]] + s[1..][..|r|];
      [s[0]] + r
  }

  /** `s` with every character of `drop` removed (repeated `s.replace(c, "")`). */
  function Without(s: string, drop: set<char>): (r: string)
    ensures forall i :: 0 <= i < |r| ==> r[i] !in drop
    ensures |r| <= |s|
    ensures (forall i :: 0 <= i < |s| ==> s[i] !in drop) ==> r == s
  {
    if |s| == 0 then ""
    else if s[0] in drop then Without(s[1..], drop)
    else [s[0]] + Without(s[1..], drop)
  }

  /** `s.replace(pat, repl)`: every non-overlapping occurrence, scanning from the left. */
  function ReplaceAll(s: string, pat: string, repl: string): (r: string)
    requires |pat| > 0
    ensures !Contains(s, pat) ==> r == s
    ensures repl == "" ==> |r| <= |s|
    decreases |s|
  {
    if |s| == 0 then ""
    else if StartsWith(s, pat) then repl + ReplaceAll(s[|pat|..], pat, repl)
    else [s[0]] + ReplaceAll(s[1..], pat, repl)
  }

  /** Deleting `pat` from a text that starts with it deletes it from the rest. */
  lemma DeleteAtStart(pat: string, rest: string)
    requires |pat| > 0
    ensures ReplaceAll(pat + rest, pat, "") == ReplaceAll(rest, pat, "")
  {
    assert (pat + rest)[..|pat|] == pat;
    assert (pat + rest)[|pat|..] == rest;
  }

  /** A first character that cannot start `pat` is kept. */
  lemma KeepFirst(c: char, rest: string, pat: string, repl: string)
    requires |pat| > 0 && pat[0] != c
    ensures ReplaceAll([c] + rest, pat, repl) == [c] + ReplaceAll(rest, pat, repl)
  {
    assert ([c] + rest)[1..] == rest;
    assert !StartsWith([c] + rest, pat) by {
      if |pat| <= |[c] + rest| {
        assert ([c] + rest)[..|pat|][0] == c;
      }
    }
  }

  /** A stretch of characters none of which can start `pat` is kept as it is. */
  lemma {:induction false} KeepAll(a: string, rest: string, pat: string, repl: string)
    requires |pat| > 0 && forall i :: 0 <= i < |a| ==> a[i] != pat[0]
    ensures ReplaceAll(a + rest, pat, repl) == a + ReplaceAll(rest, pat, repl)
    decreases |a|
  {
    if |a| == 0 {
      assert a + rest == rest;
    } else {
      var t := a[1..] + rest;
      assert a + rest == [a[0]] + t;
      KeepFirst(a[0], t, pat, repl);
      KeepAll(a[1..], rest, pat, repl);
      var r := ReplaceAll(rest, pat, repl);
      assert [a[0]] + (a[1..] + r) == a + r;
    }
  }

  /** `s.count(c)` for a one-character `c`. */
  function CountChar(s: string, c: char): (n: nat)
    ensures n <= |s|
    ensures n == 0 <==> c !in s
  {
    if |s| == 0 then 0
    else (if s[0] == c then 1 else 0) + CountChar(s[1..], c)
  }

  /** Counting distributes over concatenation. */
  lemma {:induction false} CountCharAppend(a: string, b: string, c: char)
    ensures CountChar(a + b, c) == CountChar(a, c) + CountChar(b, c)
    decreases |a|
  {
    if |a| > 0 {
      assert (a + b)[1..] == a[1..] + b;
      CountCharAppend(a[1..], b, c);
    } else {
      assert a + b == b;
    }
  }

  predicate IsUpper(c: char) {
    'A' <= c <= 'Z'
  }

  /** `c.lower()` on the ASCII range; other characters are kept. */
  function LowerChar(c: char): (d: char)
    ensures !IsUpper(d)
    ensures !IsUpper(c) ==> d == c
    ensures IsUpper(c) ==> d as int == c as int + 32
  {
    if IsUpper(c) then (c as int + 32) as char else c
  }

  /** `s.lower()` on the ASCII range. */
  function Lower(s: string): (r: string)
    ensures |r| == |s|
    ensures forall i :: 0 <= i < |s| ==> r[i] == LowerChar(s[i])
  {
    seq(|s|, i requires 0 <= i < |s| => LowerChar(s[i]))
  }

  /** No upper-case ASCII letter in `s`. */
  predicate IsLower(s: string) {
    forall i :: 0 <= i < |s| ==> !IsUpper(s[i])
  }

  /** Lower-casing yields lower-case text and leaves lower-case text alone, so it is idempotent. */
  lemma LowerFixesLower(s: string)
    ensures IsLower(Lower(s))
    ensures IsLower(s) ==> Lower(s) == s
    ensures Lower(Lower(s)) == Lower(s)
  {
  }

  /** Lower-casing works character by character, so it commutes with slicing. */
  lemma LowerSlice(s: string, i: int, j: int)
    requires 0 <= i <= j <= |s|
    ensures Lower(s)[i..j] == Lower(s[i..j])
  {
  }

  predicate IsDigit(c: char) {
    '0' <= c <= '9'
  }

  predicate AllDigits(s: string) {
    forall i :: 0 <= i < |s| ==> IsDigit(s[i])
  }

  /** `int(s)` for a string of ASCII digits. */
  function DecimalValue(s: string): (n: nat)
    requires AllDigits(s)
    decreases |s|
  {
    if |s| == 0 then 0
    else DecimalValue(s[..|s| - 1]) * 10 + (s[|s| - 1] as int - '0' as int)
  }
}
