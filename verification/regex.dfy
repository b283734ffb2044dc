/**
 The fragment of JavaScript regular expressions the plate validator uses:
 an anchored alternation `^(?:b0|b1|...)$` of branches, each a concatenation
 of character classes with an exact repeat count (`[A-Z]{3}`, `\d`, `\d{2}`).

 Without the `m` flag `^` and `$` match only at the ends of the input, so
 `test` holds exactly when some branch matches the whole string. An exact
 count `{n}` leaves the matcher no choice of how much to consume, so a branch
 matches by consuming `n` characters of the class and continuing with the rest.
 */
module Regex {
  import Ascii

  /** `[A-Z]` or `\d` */
  datatype CharClass = Upper | Digit

  predicate InClass(c: char, k: CharClass) {
    match k
    case Upper => Ascii.IsUpper(c)
    case Digit => Ascii.IsDigit(c)
  }

  /** `k{count}` (a bare class is `count == 1`) */
  datatype Term = Term(cls: CharClass, count: nat)

  predicate AllIn(s: string, k: CharClass) {
    forall i :: 0 <= i < |s| ==> InClass(s[i], k)
  }

  /** Whether the branch `b` matches all of `s`. */
  predicate MatchBranch(b: seq<Term>, s: string)
    decreases |b|
  {
    if b == [] then s == []
    else
      var n := b[0].count;
      n <= |s| && AllIn(s[..n], b[0].cls) && MatchBranch(b[1..], s[n..])
  }

  /** `/^(?:alts[0]|alts[1]|...)$/.test(s)` */
  predicate Test(alts: seq<seq<Term>>, s: string)
    ensures Test(alts, s) ==> exists j :: 0 <= j < |alts| && MatchBranch(alts[j], s)
    ensures alts != [] && MatchBranch(alts[0], s) ==> Test(alts, s)
    decreases |alts|
  {
    alts != [] && (MatchBranch(alts[0], s) || Test(alts[1..], s))
  }

  /** The classes a branch asks for, one per character it consumes. */
  function Expand(b: seq<Term>): (ks: seq<CharClass>)
    decreases |b|
  {
    if b == [] then [] else seq(b[0].count, _ => b[0].cls) + Expand(b[1..])
  }

  /** A branch matches exactly the strings of its expanded length whose every character is in the class at its position. */
  lemma {:induction false} MatchBranchPointwise(b: seq<Term>, s: string)
    ensures MatchBranch(b, s) <==>
              |s| == |Expand(b)| && forall i :: 0 <= i < |s| ==> InClass(s[i], Expand(b)[i])
    decreases |b|
  {
    if b != [] {
      var n := b[0].count;
      var head := seq(n, _ => b[0].cls);
      var rest := Expand(b[1..]);
      assert Expand(b) == head + rest;
      if n <= |s| {
        MatchBranchPointwise(b[1..], s[n..]);
        if MatchBranch(b, s) {
          forall i | 0 <= i < |s|
            ensures InClass(s[i], Expand(b)[i])
          {
            if i < n {
              assert s[i] == s[..n][i];
            } else {
              assert s[i] == s[n..][i - n];
            }
          }
        }
        if |s| == |Expand(b)| && forall i :: 0 <= i < |s| ==> InClass(s[i], Expand(b)[i]) {
          forall i | 0 <= i < n
            ensures InClass(s[..n][i], b[0].cls)
          {
            assert Expand(b)[i] == head[i];
          }
          forall i | 0 <= i < |s[n..]|
            ensures InClass(s[n..][i], rest[i])
          {
            assert Expand(b)[n + i] == rest[i];
          }
        }
      }
    }
  }

  /** An alternation matches iff one of its branches does. */
  lemma {:induction false} TestIffSomeBranch(alts: seq<seq<Term>>, s: string)
    ensures Test(alts, s) <==> exists j :: 0 <= j < |alts| && MatchBranch(alts[j], s)
    decreases |alts|
  {
    if alts != [] {
      TestIffSomeBranch(alts[1..], s);
      if Test(alts[1..], s) {
        var j :| 0 <= j < |alts[1..]| && MatchBranch(alts[1..][j], s);
        assert MatchBranch(alts[j + 1], s);
      }
      if exists j :: 0 <= j < |alts| && MatchBranch(alts[j], s) {
        var j :| 0 <= j < |alts| && MatchBranch(alts[j], s);
        if j > 0 {
          assert MatchBranch(alts[1..][j - 1], s);
        }
      }
    }
  }
}
