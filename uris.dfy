/**
 * The string handling on endpoint URIs that the poll enricher relies on: Java's
 * String.trim, applied to string recipients, and the scheme of a URI.
 */
module Uris {
  import opened Results

  /** String.trim removes every leading and trailing character at or below U+0020. */
  predicate IsTrimSpace(c: char) {
    c <= ' '
  }

  /** The suffix of `s` left after its leading trimmed characters are removed. */
  function TrimStart(s: string): (r: string)
    ensures |r| <= |s| && r == s[|s| - |r|..]
    ensures forall i :: 0 <= i < |s| - |r| ==> IsTrimSpace(s[i])
    ensures r != [] ==> !IsTrimSpace(r[0])
  {
    if s != [] && IsTrimSpace(s[0]) then TrimStart(s[1..]) else s
  }

  /** The prefix of `s` left after its trailing trimmed characters are removed. */
  function TrimEnd(s: string): (r: string)
    ensures |r| <= |s| && r == s[..|r|]
    ensures forall i :: |r| <= i < |s| ==> IsTrimSpace(s[i])
    ensures r != [] ==> !IsTrimSpace(r[|r| - 1])
  {
    if s != [] && IsTrimSpace(s[|s| - 1]) then TrimEnd(s[..|s| - 1]) else s
  }

  /** String.trim(). */
  function Trim(s: string): (r: string)
    ensures |r| <= |s|
    ensures r != [] ==> !IsTrimSpace(r[0]) && !IsTrimSpace(r[|r| - 1])
    ensures r == [] <==> forall i :: 0 <= i < |s| ==> IsTrimSpace(s[i])
    ensures s != [] && !IsTrimSpace(s[0]) && !IsTrimSpace(s[|s| - 1]) ==> r == s
  {
    TrimEnd(TrimStart(s))
  }

  /** Trimming a trimmed string changes nothing. */
  lemma TrimIdempotent(s: string)
    ensures Trim(Trim(s)) == Trim(s)
  {
    var t := Trim(s);
    if t == [] {
      assert TrimStart(t) == [];
      assert TrimEnd(TrimStart(t)) == [];
    } else {
      assert !IsTrimSpace(t[0]) && !IsTrimSpace(t[|t| - 1]);
      assert TrimStart(t) == t;
      assert TrimEnd(t) == t;
    }
  }

  /** Everything of `s` before `lo` and from `hi` on is a character String.trim removes. */
  ghost predicate OnlySpaceOutside(s: string, lo: int, hi: int) {
    && 0 <= lo <= hi <= |s|
    && (forall i :: 0 <= i < lo ==> IsTrimSpace(s[i]))
    && (forall i :: hi <= i < |s| ==> IsTrimSpace(s[i]))
  }

  /** A trimmed string is a copy of the original with whitespace cut off both ends. */
  lemma {:induction false} TrimIsInfix(s: string)
    ensures exists lo, hi :: OnlySpaceOutside(s, lo, hi) && Trim(s) == s[lo..hi]
  {
    var t := TrimStart(s);
    var lo := |s| - |t|;
    var u := TrimEnd(t);
    var hi := lo + |u|;
    assert Trim(s) == s[lo..hi] by {
      assert t == s[lo..] && u == t[..|u|];
    }
    assert OnlySpaceOutside(s, lo, hi) by {
      forall i | hi <= i < |s|
        ensures IsTrimSpace(s[i])
      {
        assert t == s[lo..];
        assert s[i] == t[i - lo];
      }
    }
  }

  /** The text before the first ':' of `s`, or None when `s` has no ':'. */
  function BeforeColon(s: string): (r: Option<string>)
    ensures r.Some? ==> ':' !in r.value && |r.value| < |s| && s[..|r.value| + 1] == r.value + [':']
    ensures r.None? ==> ':' !in s
  {
    if s == [] then None
    else if s[0] == ':' then Some([])
    else
      match BeforeColon(s[1..])
      case None => None
      case Some(p) => Some([s[0]] + p)
  }

  /**
   * ExchangeHelper.resolveScheme: the scheme of a URI is the text before its first ':';
   * a null URI, or one without ':', has none.
   */
  function ResolveScheme(uri: Option<string>): (scheme: Option<string>)
    ensures scheme.Some? ==> uri.Some? && ':' !in scheme.value
    ensures scheme.Some? ==> |scheme.value| < |uri.value| && uri.value[..|scheme.value| + 1] == scheme.value + [':']
    ensures scheme.None? ==> uri.None? || ':' !in uri.value
  {
    if uri.None? then None else BeforeColon(uri.value)
  }
}
