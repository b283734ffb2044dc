/**
 The dev-server proxy's path rewrite, `path.replace(/^\/api_placa/, '')`.

 `String.prototype.replace` with a non-global regex replaces the first
 (leftmost) match only. For a pattern that is a literal, possibly anchored
 with `^` (and without the `m` flag, so `^` matches only at index 0), the
 first match is the leftmost index where the literal occurs.
 */
module DevProxy {
  import opened Wrappers

  /** The proxy context, matched by the regex `/^\/api_placa/`. */
  const ApiPrefix: string := "/api_placa"

  /** `/^lit/` when `anchored`, `/lit/` otherwise; no flags. */
  datatype Pattern = Pattern(literal: string, anchored: bool)

  const RewritePattern: Pattern := Pattern(ApiPrefix, true)

  predicate StartsWith(s: string, p: string) {
    |p| <= |s| && s[..|p|] == p
  }

  /** The leftmost index at or after `from` where `lit` occurs in `s`. */
  function Search(s: string, lit: string, from: nat): (r: Option<nat>)
    requires from <= |s|
    ensures r.Some? ==> from <= r.value <= |s| && StartsWith(s[r.value..], lit)
    ensures r.Some? ==> forall j :: from <= j < r.value ==> !StartsWith(s[j..], lit)
    ensures r.None? ==> forall j :: from <= j <= |s| ==> !StartsWith(s[j..], lit)
    decreases |s| - from
  {
    if StartsWith(s[from..], lit) then Some(from)
    else if from == |s| then None
    else Search(s, lit, from + 1)
  }

  /** The index of the first match of `p` in `s`, if any. */
  function FirstMatch(s: string, p: Pattern): (r: Option<nat>)
    ensures r.Some? ==> r.value + |p.literal| <= |s| && StartsWith(s[r.value..], p.literal)
    ensures r.Some? && p.anchored ==> r.value == 0
    ensures r.Some? ==> forall j :: 0 <= j < r.value ==> !StartsWith(s[j..], p.literal)
    ensures r.None? && p.anchored ==> !StartsWith(s, p.literal)
    ensures r.None? && !p.anchored ==> forall j :: 0 <= j <= |s| ==> !StartsWith(s[j..], p.literal)
  {
    if p.anchored then (if StartsWith(s, p.literal) then Some(0) else None)
    else Search(s, p.literal, 0)
  }

  /**
   `s.replace(p, repl)` for a non-global literal pattern. The replacement is
   inserted literally: the `$&`, `$'`, `` $` `` and `$$` substitutions of a
   JavaScript replacement string are not expanded.
   */
  function Replace(s: string, p: Pattern, repl: string): (r: string)
    ensures FirstMatch(s, p).None? ==> r == s
    ensures FirstMatch(s, p).Some? ==>
              var i := FirstMatch(s, p).value;
              && |r| == |s| - |p.literal| + |repl|
              && r[..i] == s[..i]
              && r[i..i + |repl|] == repl
              && r[..i] + p.literal + r[i + |repl|..] == s
  {
    match FirstMatch(s, p)
    case None => s
    case Some(i) => s[..i] + repl + s[i + |p.literal|..]
  }

  /** The `rewrite` option of the `/api_placa` proxy entry. */
  function Rewrite(path: string): (r: string)
    ensures StartsWith(path, ApiPrefix) ==> r == path[|ApiPrefix|..] && ApiPrefix + r == path
    ensures !StartsWith(path, ApiPrefix) ==> r == path
  {
    Replace(path, RewritePattern, "")
  }

  /** The rewritten path is always a suffix of the request path, so never longer. */
  lemma RewriteIsSuffix(path: string)
    ensures |Rewrite(path)| <= |path|
    ensures Rewrite(path) == path[|path| - |Rewrite(path)|..]
  {
  }

  /** Only a leading occurrence is removed; the anchor keeps a later one in place. */
  lemma RewriteOnlyLeading()
    ensures Rewrite("/x/api_placa") == "/x/api_placa"
    ensures Rewrite("/api_placa/api_placa/y") == "/api_placa/y"
    ensures Rewrite(Rewrite("/api_placa/api_placa/y")) != Rewrite("/api_placa/api_placa/y")
  {
    assert !StartsWith("/x/api_placa", ApiPrefix) by {
      assert "/x/api_placa"[..10][1] == 'x';
    }
    assert StartsWith("/api_placa/api_placa/y", ApiPrefix);
    assert "/api_placa/api_placa/y"[10..] == "/api_placa/y";
    assert StartsWith("/api_placa/y", ApiPrefix);
    assert "/api_placa/y"[10..] == "/y";
  }

  /** The same literal without `^` would strip the later occurrence instead. */
  lemma UnanchoredWouldStripLater()
    ensures Replace("/x/api_placa", Pattern(ApiPrefix, false), "") == "/x"
  {
    var s := "/x/api_placa";
    assert StartsWith(s[2..], ApiPrefix);
    assert !StartsWith(s[0..], ApiPrefix) by { assert s[0..][..10][1] == 'x'; }
    assert !StartsWith(s[1..], ApiPrefix) by { assert s[1..][..10][0] == 'x'; }
    assert FirstMatch(s, Pattern(ApiPrefix, false)) == Some(2);
    assert s[..2] == "/x";
  }

  /** The match has no path-segment boundary: `/api_placaX` loses the prefix too. */
  lemma RewriteNoSegmentBoundary()
    ensures Rewrite("/api_placaX") == "X"
    ensures Rewrite("/api_placa") == ""
  {
  }
}
