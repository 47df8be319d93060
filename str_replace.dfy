/**
 * Literal, replace-all substitution on text, as the formatter uses it:
 * matches are found from the left, do not overlap, and every one of them
 * is replaced (src/vendors.rs:97-98).
 */
module StrReplace {

  /** `pat` is a prefix of `s`. */
  predicate StartsWith(s: string, pat: string) {
    |pat| <= |s| && s[..|pat|] == pat
  }

  /** `pat` occurs somewhere in `s`. */
  predicate Occurs(pat: string, s: string) {
    exists i :: 0 <= i <= |s| && StartsWith(s[i..], pat)
  }

  /**
   * Every occurrence of the non-empty pattern `pat` in `s`, scanning from
   * the left and resuming after each match, is replaced by `rep`.
   */
  function Replace(s: string, pat: string, rep: string): (r: string)
    requires pat != []
    ensures |pat| == |rep| ==> |r| == |s|
    decreases |s|
  {
    if s == [] then []
    else if StartsWith(s, pat) then rep + Replace(s[|pat|..], pat, rep)
    else [s[0]] + Replace(s[1..], pat, rep)
  }

  /** Text that does not contain the pattern comes back unchanged. */
  lemma {:induction false} ReplaceAbsent(s: string, pat: string, rep: string)
    requires pat != []
    requires !Occurs(pat, s)
    ensures Replace(s, pat, rep) == s
  {
    if s != [] {
      assert !StartsWith(s[0..], pat) by { assert s[0..] == s; }
      ReplaceAbsent(s[1..], pat, rep);
    }
  }

  /**
   * Leftmost match: when the first occurrence of `pat` starts at `k`, the
   * text before it is kept, `rep` takes the place of that occurrence, and
   * the scan resumes right after it.
   */
  lemma {:induction false} ReplaceFirstMatch(s: string, pat: string, rep: string, k: nat)
    requires pat != []
    requires k + |pat| <= |s| && StartsWith(s[k..], pat)
    requires forall i :: 0 <= i < k ==> !StartsWith(s[i..], pat)
    ensures Replace(s, pat, rep) == s[..k] + rep + Replace(s[k + |pat|..], pat, rep)
  {
    if k == 0 {
      assert s[0..] == s;
    } else {
      assert !StartsWith(s, pat) by { assert s[0..] == s; }
      var t := s[1..];
      forall i | 0 <= i < k - 1
        ensures !StartsWith(t[i..], pat)
      {
        assert t[i..] == s[i + 1..];
      }
      assert t[k - 1..] == s[k..];
      ReplaceFirstMatch(t, pat, rep, k - 1);
      assert t[k - 1 + |pat|..] == s[k + |pat|..];
      calc {
        Replace(s, pat, rep);
        [s[0]] + Replace(t, pat, rep);
        [s[0]] + (t[..k - 1] + rep + Replace(s[k + |pat|..], pat, rep));
        { assert [s[0]] + t[..k - 1] == s[..k]; }
        s[..k] + rep + Replace(s[k + |pat|..], pat, rep);
      }
    }
  }

  /**
   * Text in which the pattern's first character does not occur is copied
   * through, and substitution carries on with what follows it.
   */
  lemma {:induction false} ReplaceSkips(a: string, b: string, pat: string, rep: string)
    requires pat != [] && pat[0] !in a
    ensures Replace(a + b, pat, rep) == a + Replace(b, pat, rep)
  {
    if a != [] {
      assert (a + b)[0] == a[0] != pat[0];
      assert !StartsWith(a + b, pat);
      assert (a + b)[1..] == a[1..] + b;
      ReplaceSkips(a[1..], b, pat, rep);
      calc {
        Replace(a + b, pat, rep);
        [a[0]] + Replace(a[1..] + b, pat, rep);
        [a[0]] + (a[1..] + Replace(b, pat, rep));
        { assert [a[0]] + a[1..] == a; }
        a + Replace(b, pat, rep);
      }
    } else {
      assert a + b == b;
    }
  }

  /**
   * A piece of text that starts like the pattern but departs from it at its
   * second character is copied through as well (so "$args" survives the
   * substitution of "$yes", and the other way round).
   */
  lemma ReplaceSkipsOther(h: string, b: string, pat: string, rep: string)
    requires |pat| >= 2 && |h| >= 2 && h[1] != pat[1] && pat[0] !in h[1..]
    ensures Replace(h + b, pat, rep) == h + Replace(b, pat, rep)
  {
    assert (h + b)[1..] == h[1..] + b;
    assert !StartsWith(h + b, pat) by {
      if |pat| <= |h + b| { assert (h + b)[..|pat|][1] == h[1]; }
    }
    ReplaceSkips(h[1..], b, pat, rep);
    assert [h[0]] + h[1..] == h;
  }

  /** Text shorter than the pattern holds no occurrence and is kept. */
  lemma ReplaceShort(s: string, pat: string, rep: string)
    requires pat != [] && |s| < |pat|
    ensures Replace(s, pat, rep) == s
  {
    ReplaceAbsent(s, pat, rep);
  }

  /** Text that does not begin with the pattern's first character keeps its first character. */
  lemma ReplaceKeepsHead(s: string, pat: string, rep: string)
    requires pat != [] && s != [] && s[0] != pat[0]
    ensures Replace(s, pat, rep) != [] && Replace(s, pat, rep)[0] == s[0]
  {
    assert !StartsWith(s, pat);
  }
}
