/** The parts of Go's `strings` package that the model needs: `Index`, `Contains` and
    `Replace(s, old, new, 1)`. Strings are sequences of characters. */
module Strings {
  import opened Results

  /** `pat` occurs in `s` starting at position `j`. */
  predicate OccursAt(s: string, pat: string, j: nat) {
    j + |pat| <= |s| && s[j..j + |pat|] == pat
  }

  /** Position of the first occurrence of `pat` in `s` (`strings.Index`), if any. */
  function IndexOf(s: string, pat: string): (r: Option<nat>)
    ensures r.Some? ==> OccursAt(s, pat, r.value)
    ensures r.Some? ==> forall j :: 0 <= j < r.value ==> !OccursAt(s, pat, j)
    ensures r.None? ==> forall j :: 0 <= j <= |s| ==> !OccursAt(s, pat, j)
    decreases |s|
  {
    if |s| < |pat| then None
    else if s[..|pat|] == pat then Some(0)
    else
      match IndexOf(s[1..], pat)
      case None =>
        assert forall j :: 1 <= j <= |s| ==> OccursAt(s, pat, j) == OccursAt(s[1..], pat, j - 1);
        None
      case Some(k) =>
        assert forall j :: 1 <= j <= |s| ==> OccursAt(s, pat, j) == OccursAt(s[1..], pat, j - 1);
        Some(k + 1)
  }

  /** IndexOf finds the occurrence that no other precedes. */
  lemma IndexOfFirst(s: string, pat: string, k: nat)
    requires OccursAt(s, pat, k)
    requires forall j :: 0 <= j < k ==> !OccursAt(s, pat, j)
    ensures IndexOf(s, pat) == Some(k)
  {
    assert k <= |s|;
  }

  /** A pattern whose first character does not recur in it occurs in `s + pat` first at
      the end, when `s` itself does not contain it. */
  lemma FirstOccurrenceIsAppended(s: string, pat: string)
    requires pat != [] && forall m :: 0 < m < |pat| ==> pat[m] != pat[0]
    requires IndexOf(s, pat).None?
    ensures IndexOf(s + pat, pat) == Some(|s|)
  {
    NoOccurrenceBeforeAppended(s, pat);
    assert OccursAt(s + pat, pat, |s|);
    IndexOfFirst(s + pat, pat, |s|);
  }

  lemma NoOccurrenceBeforeAppended(s: string, pat: string)
    requires pat != [] && forall m :: 0 < m < |pat| ==> pat[m] != pat[0]
    requires forall j :: 0 <= j <= |s| ==> !OccursAt(s, pat, j)
    ensures forall j :: 0 <= j < |s| ==> !OccursAt(s + pat, pat, j)
  {
    var t := s + pat;
    forall j | 0 <= j < |s|
      ensures !OccursAt(t, pat, j)
    {
      if j + |pat| <= |s| {
        assert t[j..j + |pat|] == s[j..j + |pat|];
        assert !OccursAt(s, pat, j);
      } else if j + |pat| <= |t| {
        // the occurrence would straddle the end of `s`, putting pat[0] inside pat
        assert t[j..j + |pat|][|s| - j] == t[|s|] == pat[0];
      }
    }
  }

  /** `strings.Contains`: `sub` occurs at the start of `s` or further on. */
  predicate Contains(s: string, sub: string)
    decreases |s|
  {
    OccursAt(s, sub, 0) || (|s| > 0 && Contains(s[1..], sub))
  }

  /** An occurrence anywhere makes Contains hold. */
  lemma {:induction false} OccursThenContains(s: string, sub: string, j: nat)
    requires OccursAt(s, sub, j)
    ensures Contains(s, sub)
    decreases j
  {
    if j > 0 {
      assert s[1..][j - 1..j - 1 + |sub|] == s[j..j + |sub|];
      OccursThenContains(s[1..], sub, j - 1);
    }
  }

  /** A text that lacks one of the characters of `sub` does not contain it. */
  lemma {:induction false} MissingCharNotContained(s: string, sub: string, k: nat)
    requires k < |sub| && sub[k] !in s
    ensures !Contains(s, sub)
    decreases |s|
  {
    if |s| > 0 {
      assert forall c :: c in s[1..] ==> c in s;
      MissingCharNotContained(s[1..], sub, k);
    }
  }

  /** Contains agrees with searching every position, and with IndexOf finding one. */
  lemma {:induction false} ContainsIff(s: string, sub: string)
    ensures Contains(s, sub) <==> exists j :: 0 <= j <= |s| && OccursAt(s, sub, j)
    ensures Contains(s, sub) <==> IndexOf(s, sub).Some?
    decreases |s|
  {
    if |s| > 0 {
      ContainsIff(s[1..], sub);
      assert forall j :: 1 <= j <= |s| ==> OccursAt(s, sub, j) == OccursAt(s[1..], sub, j - 1);
      if OccursAt(s[1..], sub, 0) {
        assert OccursAt(s, sub, 1);
      }
    }
    if IndexOf(s, sub).Some? {
      assert OccursAt(s, sub, IndexOf(s, sub).value);
    }
  }

  /** `strings.Replace(s, pat, rep, 1)` for a non-empty `pat`: only the first occurrence
      is replaced, and `s` is returned as it is when `pat` does not occur. */
  function ReplaceFirst(s: string, pat: string, rep: string): (r: string)
    requires pat != ""
    ensures IndexOf(s, pat).None? ==> r == s
    ensures IndexOf(s, pat).Some? ==>
      var i := IndexOf(s, pat).value;
      && |r| == |s| - |pat| + |rep|
      && r[..i] == s[..i]
      && r[i..i + |rep|] == rep
      && r[i + |rep|..] == s[i + |pat|..]
  {
    match IndexOf(s, pat)
    case None => s
    case Some(i) => s[..i] + rep + s[i + |pat|..]
  }
}
