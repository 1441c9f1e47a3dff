/**
 * The regular expressions of `on_mouseover` and `RightClick`. They use only
 * literal characters, `.` (any character but a newline, in Python's `re`)
 * and `.*`, so a pattern is a sequence of those three atoms, and `re.search`
 * is "some suffix of the text has a prefix that matches".
 */
module Regex {
  import opened Text

  datatype Atom =
    | Char(c: char)  // a literal character
    | AnyChar        // `.`
    | AnyRun         // `.*`

  /** The atoms of a literal word. */
  function Lits(w: string): (p: seq<Atom>)
    ensures |p| == |w|
    ensures forall i :: 0 <= i < |w| ==> p[i] == Char(w[i])
  {
    seq(|w|, i requires 0 <= i < |w| => Char(w[i]))
  }

  /** Some prefix of `s` matches the pattern `p`. */
  predicate MatchPrefix(p: seq<Atom>, s: string)
    decreases |p| + |s|
  {
    if p == [] then true
    else match p[0]
      case Char(c) => |s| > 0 && s[0] == c && MatchPrefix(p[1..], s[1..])
      case AnyChar => |s| > 0 && s[0] != '\n' && MatchPrefix(p[1..], s[1..])
      case AnyRun => MatchPrefix(p[1..], s) || (|s| > 0 && s[0] != '\n' && MatchPrefix(p, s[1..]))
  }

  /** `re.search(p, s) is not None`. */
  predicate Search(p: seq<Atom>, s: string) {
    exists i :: 0 <= i <= |s| && MatchPrefix(p, s[i..])
  }

  /** A literal word in front of a pattern matches exactly when the text starts with the word. */
  lemma {:induction false} LitsThen(w: string, q: seq<Atom>, s: string)
    ensures MatchPrefix(Lits(w) + q, s) <==> StartsWith(s, w) && MatchPrefix(q, s[|w|..])
    decreases |w|
  {
    if w != [] {
      var p := Lits(w) + q;
      assert p[0] == Char(w[0]);
      assert p[1..] == Lits(w[1..]) + q;
      if |s| > 0 {
        LitsThen(w[1..], q, s[1..]);
        if |w| <= |s| {
          assert s[1..][|w| - 1..] == s[|w|..];
          assert s[..|w|] == [s[0]] + s[1..][..|w| - 1];
        }
      }
    } else {
      assert Lits(w) + q == q;
    }
  }

  /** `.*` can swallow a run of characters without newline before the rest of the pattern. */
  lemma {:induction false} RunAbsorbs(q: seq<Atom>, s: string, m: nat)
    requires m <= |s|
    requires forall i :: 0 <= i < m ==> s[i] != '\n'
    requires MatchPrefix(q, s[m..])
    ensures MatchPrefix([AnyRun] + q, s)
    decreases m
  {
    var p := [AnyRun] + q;
    assert p[1..] == q;
    if m > 0 {
      assert s[1..][m - 1..] == s[m..];
      RunAbsorbs(q, s[1..], m - 1);
    }
  }

  /** After `.*`, a literal without newline may be dropped from the pattern: the run covers it. */
  lemma {:induction false} RunSkipsLits(x: string, v: seq<Atom>, s: string)
    requires '\n' !in x
    requires MatchPrefix([AnyRun] + (Lits(x) + v), s)
    ensures MatchPrefix([AnyRun] + v, s)
    decreases |s|
  {
    var p := [AnyRun] + (Lits(x) + v);
    assert p[0] == AnyRun && p[1..] == Lits(x) + v;
    if MatchPrefix(Lits(x) + v, s) {
      LitsThen(x, v, s);
      assert s[..|x|] == x;
      RunAbsorbs(v, s, |x|);
    } else {
      RunSkipsLits(x, v, s[1..]);
      var r := [AnyRun] + v;
      assert r[0] == AnyRun && r[1..] == v;
    }
  }

  /**
   * A search for `w.*xv` succeeds only where a search for `w.*v` does, when `x`
   * has no newline: the first pattern is then redundant next to the second.
   */
  lemma SearchDropsLits(w: string, x: string, v: seq<Atom>, s: string)
    requires '\n' !in x
    requires Search(Lits(w) + ([AnyRun] + (Lits(x) + v)), s)
    ensures Search(Lits(w) + ([AnyRun] + v), s)
  {
    var i :| 0 <= i <= |s| && MatchPrefix(Lits(w) + ([AnyRun] + (Lits(x) + v)), s[i..]);
    LitsThen(w, [AnyRun] + (Lits(x) + v), s[i..]);
    RunSkipsLits(x, v, s[i..][|w|..]);
    LitsThen(w, [AnyRun] + v, s[i..]);
  }
}
