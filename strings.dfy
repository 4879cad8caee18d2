/**
 The few Python `str` operations the tween relies on, over `seq<char>`:
 `startswith`, `replace(old, new, 1)` (with `Find`, the search for the
 occurrence it replaces), `rstrip(c)`, `lower()` and the substring test
 `sub in s`.
 */
module Strings {

  datatype Option<T> = None | Some(value: T)

  function GetOr<T>(o: Option<T>, default: T): T
  {
    match o
    case Some(v) => v
    case None => default
  }

  /** Python's `s.startswith(p)`. */
  predicate StartsWith(s: string, p: string)
  {
    |p| <= |s| && s[..|p|] == p
  }

  /** The first index at which `pat` occurs in `s`: the occurrence `s.replace(pat, rep, 1)` replaces. */
  function Find(s: string, pat: string): (r: Option<nat>)
    ensures r.Some? ==> r.value <= |s| && StartsWith(s[r.value..], pat)
    ensures r.Some? ==> forall j :: 0 <= j < r.value ==> !StartsWith(s[j..], pat)
    ensures r.None? ==> forall j :: 0 <= j <= |s| ==> !StartsWith(s[j..], pat)
    decreases |s|
  {
    if StartsWith(s, pat) then Some(0)
    else if s == [] then None
    else
      var rest := Find(s[1..], pat);
      assert forall j :: 1 <= j <= |s| ==> s[1..][j - 1..] == s[j..];
      match rest
      case None => None
      case Some(i) => Some(i + 1)
  }

  /** Python's `sub in s`. */
  predicate Contains(s: string, sub: string)
  {
    Find(s, sub).Some?
  }

  /** `sub in s` holds exactly when `sub` starts at some position of `s`. */
  lemma ContainsIff(s: string, sub: string)
    ensures Contains(s, sub) <==> exists i :: 0 <= i <= |s| && StartsWith(s[i..], sub)
  {
    if Contains(s, sub) {
      var i := Find(s, sub).value;
      assert 0 <= i <= |s| && StartsWith(s[i..], sub);
    }
  }

  /** Python's `s.replace(pat, rep, 1)`: the first occurrence of `pat` is replaced. */
  function ReplaceFirst(s: string, pat: string, rep: string): string
  {
    match Find(s, pat)
    case None => s
    case Some(i) => s[..i] + rep + s[i + |pat|..]
  }

  /** When `s` starts with `pat`, the first occurrence is the leading one. */
  lemma ReplaceLeading(s: string, pat: string, rep: string)
    requires StartsWith(s, pat)
    ensures ReplaceFirst(s, pat, rep) == rep + s[|pat|..]
  {
    assert Find(s, pat) == Some(0);
    assert s[..0] == [];
  }

  /** Removing a leading `pat` and putting it back gives the original string. */
  lemma ReplaceLeadingRoundTrip(s: string, pat: string)
    requires StartsWith(s, pat)
    ensures pat + ReplaceFirst(s, pat, "") == s
  {
    ReplaceLeading(s, pat, "");
    assert s == s[..|pat|] + s[|pat|..];
  }

  /** Python's `s.rstrip(c)` for a single character `c`. */
  function RStrip(s: string, c: char): (r: string)
    ensures StartsWith(s, r)
    ensures r == [] || r[|r| - 1] != c
    ensures forall i :: |r| <= i < |s| ==> s[i] == c
    decreases |s|
  {
    if s != [] && s[|s| - 1] == c then RStrip(s[..|s| - 1], c) else s
  }

  /**
   The three properties of `RStrip` determine it: any prefix of `s` that does
   not end in `c` and is followed only by `c`s is `RStrip(s, c)`.
   */
  lemma {:induction false} RStripUnique(s: string, c: char, t: string)
    requires StartsWith(s, t)
    requires t == [] || t[|t| - 1] != c
    requires forall i :: |t| <= i < |s| ==> s[i] == c
    ensures RStrip(s, c) == t
    decreases |s|
  {
    if |s| == |t| {
      assert s == t;
    } else {
      assert s[|s| - 1] == c;
      var s' := s[..|s| - 1];
      assert s'[..|t|] == s[..|t|];
      RStripUnique(s', c, t);
    }
  }

  /** Stripping twice is stripping once. */
  lemma RStripIdempotent(s: string, c: char)
    ensures RStrip(RStrip(s, c), c) == RStrip(s, c)
  {
    var r := RStrip(s, c);
    assert r[..|r|] == r;
    RStripUnique(r, c, r);
  }

  /** Trailing copies of `c` do not change the result. */
  lemma RStripAppend(s: string, c: char)
    ensures RStrip(s + [c], c) == RStrip(s, c)
  {
    var r := RStrip(s, c);
    var s' := s + [c];
    assert s'[..|r|] == s[..|r|];
    RStripUnique(s', c, r);
  }

  function LowerChar(ch: char): char
  {
    if 'A' <= ch <= 'Z' then (ch as int + 32) as char else ch
  }

  /** Python's `s.lower()`, restricted to the ASCII letters. */
  function Lower(s: string): (r: string)
    ensures |r| == |s|
    ensures forall i :: 0 <= i < |r| ==> !('A' <= r[i] <= 'Z')
    ensures forall i :: 0 <= i < |s| && !('A' <= s[i] <= 'Z') ==> r[i] == s[i]
  {
    seq(|s|, i requires 0 <= i < |s| => LowerChar(s[i]))
  }

  /** `Lower` turns an upper-case ASCII letter into the matching lower-case one. */
  lemma LowerUpperCase(s: string, i: nat)
    requires i < |s| && 'A' <= s[i] <= 'Z'
    ensures Lower(s)[i] as int == s[i] as int + ('a' as int - 'A' as int)
  {
  }

  /** Lower-casing a lower-case string changes nothing. */
  lemma LowerIdempotent(s: string)
    ensures Lower(Lower(s)) == Lower(s)
  {
  }
}
