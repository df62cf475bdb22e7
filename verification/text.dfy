/**
 * Foundation's `trimmingCharacters(in:)` for the two character sets the
 * service uses: `.whitespaces` (display-name fallback) and
 * `.whitespacesAndNewlines` (every piece of script output).
 */
module Text {

  /** The two Foundation character sets the source trims with. */
  datatype CharClass = Whitespaces | WhitespacesAndNewlines

  /** Unicode general category Zs (space separators). */
  predicate IsSpaceSeparator(c: char) {
    || c == ' '
    || c == '\U{A0}'
    || c == '\U{1680}'
    || ('\U{2000}' <= c <= '\U{200A}')
    || c == '\U{202F}'
    || c == '\U{205F}'
    || c == '\U{3000}'
  }

  /**
   * `.whitespaces` is category Zs plus the horizontal tab;
   * `.whitespacesAndNewlines` adds line feed, vertical tab, form feed,
   * carriage return, NEL and the line and paragraph separators.
   */
  predicate InClass(c: char, k: CharClass) {
    match k
    case Whitespaces => c == '\t' || IsSpaceSeparator(c)
    case WhitespacesAndNewlines =>
      || c == '\t'
      || IsSpaceSeparator(c)
      || ('\n' <= c <= '\r')
      || c == '\U{85}'
      || c == '\U{2028}'
      || c == '\U{2029}'
  }

  /** Every character of `s` belongs to `k`. */
  ghost predicate AllIn(s: string, k: CharClass) {
    forall i :: 0 <= i < |s| ==> InClass(s[i], k)
  }

  /** Every character of `s` at an index in `[lo, hi)` belongs to `k`. */
  ghost predicate RangeIn(s: string, lo: int, hi: int, k: CharClass) {
    forall i :: lo <= i < hi && 0 <= i < |s| ==> InClass(s[i], k)
  }

  /** `r` has no character of `k` at either end. */
  predicate Trimmed(r: string, k: CharClass) {
    r == [] || (!InClass(r[0], k) && !InClass(r[|r| - 1], k))
  }

  /** `r` is what is left of `s` once a run of `k` is cut from each end. */
  ghost predicate IsTrimOf(r: string, s: string, k: CharClass) {
    && Trimmed(r, k)
    && exists i :: 0 <= i <= |s| - |r| && r == s[i..i + |r|] && RangeIn(s, 0, i, k) && RangeIn(s, i + |r|, |s|, k)
  }

  /** Drops the leading run of characters of `k`. */
  function TrimStart(s: string, k: CharClass): (r: string)
    ensures |r| <= |s| && r == s[|s| - |r|..]
    ensures RangeIn(s, 0, |s| - |r|, k)
    ensures r != [] ==> !InClass(r[0], k)
    decreases |s|
  {
    if s != [] && InClass(s[0], k) then TrimStart(s[1..], k) else s
  }

  /** Drops the trailing run of characters of `k`. */
  function TrimEnd(s: string, k: CharClass): (r: string)
    ensures |r| <= |s| && r == s[..|r|]
    ensures RangeIn(s, |r|, |s|, k)
    ensures r != [] ==> !InClass(r[|r| - 1], k)
    decreases |s|
  {
    if s != [] && InClass(s[|s| - 1], k) then TrimEnd(s[..|s| - 1], k) else s
  }

  /** `s.trimmingCharacters(in: k)`. */
  function Trim(s: string, k: CharClass): (r: string)
    ensures IsTrimOf(r, s, k)
  {
    TrimBothEnds(s, k);
    TrimEnd(TrimStart(s, k), k)
  }

  lemma TrimBothEnds(s: string, k: CharClass)
    ensures IsTrimOf(TrimEnd(TrimStart(s, k), k), s, k)
  {
    var t := TrimStart(s, k);
    TrimPieces(s, t, TrimEnd(t, k), k);
  }

  /** A leading run cut from `s`, then a trailing run cut from what is left, is a trim of `s`. */
  lemma TrimPieces(s: string, t: string, r: string, k: CharClass)
    requires |t| <= |s| && t == s[|s| - |t|..] && RangeIn(s, 0, |s| - |t|, k) && (t != [] ==> !InClass(t[0], k))
    requires |r| <= |t| && r == t[..|r|] && RangeIn(t, |r|, |t|, k) && (r != [] ==> !InClass(r[|r| - 1], k))
    ensures IsTrimOf(r, s, k)
  {
    var i := |s| - |t|;
    assert r == s[i..i + |r|] by {
      var m := s[i..i + |r|];
      forall j | 0 <= j < |r| ensures r[j] == m[j] {
        assert r[j] == t[j] && t[j] == s[i + j];
      }
    }
    assert Trimmed(r, k) by {
      if r != [] { assert r[0] == t[0]; }
    }
    assert RangeIn(s, i + |r|, |s|, k) by {
      forall j | i + |r| <= j < |s| ensures InClass(s[j], k) {
        assert s[j] == t[j - i];
      }
    }
  }

  lemma {:induction false} TrimStartOfRun(p: string, t: string, k: CharClass)
    requires AllIn(p, k)
    requires t == [] || !InClass(t[0], k)
    ensures TrimStart(p + t, k) == t
    decreases |p|
  {
    if p != [] {
      assert (p + t)[1..] == p[1..] + t;
      TrimStartOfRun(p[1..], t, k);
    } else {
      assert p + t == t;
    }
  }

  lemma {:induction false} TrimEndOfRun(t: string, q: string, k: CharClass)
    requires AllIn(q, k)
    requires t == [] || !InClass(t[|t| - 1], k)
    ensures TrimEnd(t + q, k) == t
    decreases |q|
  {
    if q != [] {
      assert (t + q)[..|t + q| - 1] == t + q[..|q| - 1];
      TrimEndOfRun(t, q[..|q| - 1], k);
    } else {
      assert t + q == t;
    }
  }

  /**
   * Trimming is characterised by the decomposition it finds: whenever `s`
   * is a run of `k`, then a core with no `k` at either end, then another
   * run of `k`, the trim of `s` is exactly that core.
   */
  lemma {:induction false} TrimUnique(p: string, r: string, q: string, k: CharClass)
    requires AllIn(p, k) && AllIn(q, k) && Trimmed(r, k)
    ensures Trim(p + r + q, k) == r
  {
    if r == [] {
      assert p + r + q == (p + q) + [];
      TrimStartOfRun(p + q, [], k);
    } else {
      assert p + r + q == p + (r + q);
      TrimStartOfRun(p, r + q, k);
      TrimEndOfRun(r, q, k);
    }
  }

  /** A string with no character of the class at either end trims to itself. */
  lemma TrimOfTrimmed(r: string, k: CharClass)
    requires Trimmed(r, k)
    ensures Trim(r, k) == r
  {
    assert [] + r + [] == r;
    TrimUnique([], r, [], k);
  }

  /** Trimming twice is trimming once. */
  lemma TrimIdempotent(s: string, k: CharClass)
    ensures Trim(Trim(s, k), k) == Trim(s, k)
  {
    TrimOfTrimmed(Trim(s, k), k);
  }

  /** The trim is empty exactly when every character belongs to the class. */
  lemma TrimEmptyIff(s: string, k: CharClass)
    ensures Trim(s, k) == [] <==> AllIn(s, k)
  {
    if AllIn(s, k) {
      assert s + [] + [] == s;
      TrimUnique(s, [], [], k);
    }
    if Trim(s, k) == [] {
      var i :| 0 <= i <= |s| && AllIn(s[..i], k) && AllIn(s[i..], k);
      assert s == s[..i] + s[i..];
      forall j | 0 <= j < |s| ensures InClass(s[j], k) {
        if j < i { assert s[j] == s[..i][j]; } else { assert s[j] == s[i..][j - i]; }
      }
    }
  }

  /** A trim result comes with explicit leading and trailing runs. */
  lemma SplitAroundTrim(s: string, r: string, k: CharClass) returns (p: string, q: string)
    requires IsTrimOf(r, s, k)
    ensures AllIn(p, k) && AllIn(q, k)
    ensures s == p + r + q
  {
    var i :| 0 <= i <= |s| - |r| && r == s[i..i + |r|] && RangeIn(s, 0, i, k) && RangeIn(s, i + |r|, |s|, k);
    p := s[..i];
    q := s[i + |r|..];
    assert AllIn(p, k) by {
      forall j | 0 <= j < |p| ensures InClass(p[j], k) { assert p[j] == s[j]; }
    }
    assert AllIn(q, k) by {
      forall j | 0 <= j < |q| ensures InClass(q[j], k) { assert q[j] == s[i + |r| + j]; }
    }
    SplitAt(s, i, i + |r|);
  }

  /** Cutting a sequence at two points and gluing the pieces back gives it unchanged. */
  lemma SplitAt(s: string, i: nat, j: nat)
    requires i <= j <= |s|
    ensures s == s[..i] + s[i..j] + s[j..]
  {
    assert s[..j] == s[..i] + s[i..j];
    assert s == s[..j] + s[j..];
  }

  lemma AllInConcat(a: string, b: string, k: CharClass)
    requires AllIn(a, k) && AllIn(b, k)
    ensures AllIn(a + b, k)
  {
    forall j | 0 <= j < |a + b| ensures InClass((a + b)[j], k) {
      if j < |a| { assert (a + b)[j] == a[j]; } else { assert (a + b)[j] == b[j - |a|]; }
    }
  }

  lemma Regroup(p: string, p': string, r: string, q': string, q: string)
    ensures p + (p' + r + q') + q == (p + p') + r + (q' + q)
  {
  }

  /** Runs of `k` added at either end do not change the trim. */
  lemma TrimPadded(p: string, s: string, q: string, k: CharClass)
    requires AllIn(p, k) && AllIn(q, k)
    ensures Trim(p + s + q, k) == Trim(s, k)
  {
    var r := Trim(s, k);
    var p', q' := SplitAroundTrim(s, r, k);
    Regroup(p, p', r, q', q);
    AllInConcat(p, p', k);
    AllInConcat(q', q, k);
    TrimUnique(p + p', r, q' + q, k);
  }

  /** Two strings joined by a space are all `k` exactly when both parts are (the space being in `k`). */
  lemma AllInJoin(a: string, b: string, k: CharClass)
    ensures AllIn(a + " " + b, k) <==> AllIn(a, k) && AllIn(b, k)
  {
    var j := a + " " + b;
    assert forall i :: 0 <= i < |a| ==> j[i] == a[i];
    assert forall i :: 0 <= i < |b| ==> j[|a| + 1 + i] == b[i];
    assert j[|a|] == ' ' && InClass(' ', k);
    if AllIn(a, k) && AllIn(b, k) {
      forall i | 0 <= i < |j| ensures InClass(j[i], k) {
        if i < |a| {
        } else if i == |a| {
        } else {
          assert j[i] == b[i - |a| - 1];
        }
      }
    }
  }
}
