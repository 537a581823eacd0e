/** String operations of JavaScript that the exporter relies on:
    `String.prototype.startsWith` and `String.prototype.replace` with a string
    pattern, which replaces only the FIRST occurrence of the pattern. */
module Text {
  import opened Wrappers

  /** `s.startsWith(prefix)` */
  predicate StartsWith(s: string, prefix: string)
  {
    |prefix| <= |s| && s[..|prefix|] == prefix
  }

  /** `pat` occurs in `s` at index `i`. */
  predicate OccursAt(s: string, pat: string, i: nat)
  {
    i + |pat| <= |s| && s[i..i + |pat|] == pat
  }

  /** `i` is the index of the first occurrence of `pat` in `s`. */
  predicate IsFirstOccurrence(s: string, pat: string, i: nat)
  {
    OccursAt(s, pat, i) && forall k: nat | k < i :: !OccursAt(s, pat, k)
  }

  /** `s.indexOf(pat, from)`, with `None` for JavaScript's -1, for a `from`
      within the string (JavaScript clamps a larger `from` to `|s|`, which
      only matters for the empty pattern); the exporter only searches from
      index 0. */
  function IndexOfFrom(s: string, pat: string, from: nat): (r: Option<nat>)
    ensures r.Some? ==> from <= r.value && OccursAt(s, pat, r.value)
    ensures r.Some? ==> forall k: nat | from <= k < r.value :: !OccursAt(s, pat, k)
    ensures r.None? ==> forall k: nat | from <= k :: !OccursAt(s, pat, k)
    decreases |s| - from
  {
    if from + |pat| > |s| then None
    else if OccursAt(s, pat, from) then Some(from)
    else IndexOfFrom(s, pat, from + 1)
  }

  /** `s.replace(pat, rep)` for a string `pat`: only the first occurrence is
      replaced; without an occurrence the string is returned unchanged. `rep`
      is inserted literally: JavaScript's `$&`, `$$`, ... replacement
      patterns are not interpreted, and the exporter only replaces with ""
      and "_". */
  function ReplaceFirst(s: string, pat: string, rep: string): (r: string)
    ensures forall i: nat | IsFirstOccurrence(s, pat, i) :: r == s[..i] + rep + s[i + |pat|..]
    ensures (forall k: nat :: !OccursAt(s, pat, k)) ==> r == s
    ensures |r| == |s| || |r| + |pat| == |s| + |rep|
  {
    match IndexOfFrom(s, pat, 0)
    case Some(i) => s[..i] + rep + s[i + |pat|..]
    case None => s
  }

  /** The first occurrence of a prefix is at index 0, so replacing it with the
      empty string strips the prefix. */
  lemma ReplacePrefixWithEmpty(s: string, prefix: string)
    requires StartsWith(s, prefix)
    ensures ReplaceFirst(s, prefix, "") == s[|prefix|..]
  {
    assert IsFirstOccurrence(s, prefix, 0);
    assert s[..0] + "" + s[|prefix|..] == s[|prefix|..];
  }

  /** A string in which `c` does not occur. */
  predicate Lacks(s: string, c: char)
  {
    forall i | 0 <= i < |s| :: s[i] != c
  }

  /** A pattern starting with `c` cannot occur in a string without `c`, so
      `replace` leaves such a string alone. */
  lemma ReplaceAbsent(s: string, pat: string, rep: string)
    requires |pat| > 0 && Lacks(s, pat[0])
    ensures ReplaceFirst(s, pat, rep) == s
  {
    forall k: nat | OccursAt(s, pat, k) ensures s[k] == pat[0] {
      assert s[k..k + |pat|][0] == pat[0];
    }
  }
}
