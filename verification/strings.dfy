/**
 * The pieces of Go's `strings` package that the platform clients use:
 * `strings.Join` with a one-character separator, and `strings.Replace`
 * with a count of one. `Split` and `IndexOf` are reference definitions
 * that the lemmas compare them with.
 */
module Strings {
  import opened Outcomes

  /** `strings.Join(parts, sep)`: the parts with `sep` between consecutive ones. */
  function Join(parts: seq<string>, sep: char): (joined: string)
  {
    if |parts| == 0 then ""
    else if |parts| == 1 then parts[0]
    else parts[0] + [sep] + Join(parts[1..], sep)
  }

  /** Cuts `s` at every occurrence of `sep`; always yields at least one field. */
  function Split(s: string, sep: char): (fields: seq<string>)
    ensures |fields| >= 1
  {
    if |s| == 0 then [""]
    else if s[0] == sep then [""] + Split(s[1..], sep)
    else
      var rest := Split(s[1..], sep);
      [[s[0]] + rest[0]] + rest[1..]
  }

  /** `pat` occurs in `s` starting at index `i`. */
  predicate OccursAt(s: string, pat: string, i: nat)
  {
    i + |pat| <= |s| && s[i..i + |pat|] == pat
  }

  /** `strings.Index`: the first index at which `pat` occurs in `s`, if any. */
  function IndexOf(s: string, pat: string): (r: Option<nat>)
    ensures r.Some? ==> OccursAt(s, pat, r.value)
    ensures r.Some? ==> forall j: nat :: j < r.value ==> !OccursAt(s, pat, j)
    ensures r.None? ==> forall j: nat :: !OccursAt(s, pat, j)
    decreases |s|
  {
    if OccursAt(s, pat, 0) then Some(0)
    else if |s| == 0 then None
    else
      OccursShift(s, pat);
      match IndexOf(s[1..], pat)
      case None => None
      case Some(i) => Some(i + 1)
  }

  /** An occurrence in the tail of `s` is an occurrence in `s`, one place later. */
  lemma OccursShift(s: string, pat: string)
    requires |s| > 0
    ensures forall j: nat :: 1 <= j ==> (OccursAt(s, pat, j) <==> OccursAt(s[1..], pat, j - 1))
  {
    forall j: nat | 1 <= j
      ensures OccursAt(s, pat, j) <==> OccursAt(s[1..], pat, j - 1)
    {
      if j + |pat| <= |s| {
        assert s[1..][j - 1..j - 1 + |pat|] == s[j..j + |pat|];
      }
    }
  }

  /** `strings.Replace(s, pat, rep, 1)`: replaces the first occurrence of `pat` only. */
  function ReplaceFirst(s: string, pat: string, rep: string): (r: string)
    decreases |s|
  {
    if OccursAt(s, pat, 0) then rep + s[|pat|..]
    else if |s| == 0 then s
    else [s[0]] + ReplaceFirst(s[1..], pat, rep)
  }

  /** With no occurrence of `pat`, ReplaceFirst returns the string unchanged. */
  lemma {:induction false} ReplaceFirstAbsent(s: string, pat: string, rep: string)
    requires IndexOf(s, pat).None?
    ensures ReplaceFirst(s, pat, rep) == s
    decreases |s|
  {
    if |s| > 0 {
      assert IndexOf(s[1..], pat).None?;
      ReplaceFirstAbsent(s[1..], pat, rep);
      assert [s[0]] + s[1..] == s;
    }
  }

  /**
   * ReplaceFirst splices `rep` in place of the first occurrence of `pat`,
   * the one IndexOf finds, and keeps everything else, later occurrences
   * included.
   */
  lemma {:induction false} ReplaceFirstPresent(s: string, pat: string, rep: string, i: nat)
    requires IndexOf(s, pat) == Some(i)
    ensures ReplaceFirst(s, pat, rep) == s[..i] + rep + s[i + |pat|..]
    decreases |s|
  {
    if i > 0 {
      assert IndexOf(s[1..], pat) == Some(i - 1);
      ReplaceFirstPresent(s[1..], pat, rep, i - 1);
      SpliceCons(s, i - 1, pat, rep);
    }
  }

  /** Splicing into the tail of `s` and putting the head back is splicing into `s` one place later. */
  lemma SpliceCons(s: string, i: nat, pat: string, rep: string)
    requires |s| > 0 && i + |pat| <= |s| - 1
    ensures [s[0]] + (s[1..][..i] + rep + s[1..][i + |pat|..]) == s[..i + 1] + rep + s[i + 1 + |pat|..]
  {
    assert [s[0]] + s[1..][..i] == s[..i + 1];
    assert s[1..][i + |pat|..] == s[i + 1 + |pat|..];
  }

  /** No later character of `pat` equals its first, so no two occurrences of `pat` can overlap. */
  predicate FirstCharUnique(pat: string)
  {
    |pat| > 0 && forall k :: 0 < k < |pat| ==> pat[k] != pat[0]
  }

  /**
   * When `pat` does not occur in `x` and cannot overlap itself, the first
   * occurrence of `pat` in `x + pat + y` is at `|x|`.
   */
  lemma FirstOccurrence(x: string, pat: string, y: string)
    requires FirstCharUnique(pat)
    requires IndexOf(x, pat).None?
    ensures IndexOf(x + pat + y, pat) == Some(|x|)
  {
    var s := x + pat + y;
    assert s[|x|..|x| + |pat|] == pat;
    assert OccursAt(s, pat, |x|);
    forall j: nat | j < |x|
      ensures !OccursAt(s, pat, j)
    {
      if j + |pat| <= |x| {
        assert s[j..j + |pat|] == x[j..j + |pat|];
        assert !OccursAt(x, pat, j);
      } else {
        assert s[|x|] == pat[0] != pat[|x| - j];
        assert j + |pat| <= |s| ==> s[j..j + |pat|][|x| - j] == s[|x|];
      }
    }
  }

  /** Replacing the first occurrence of `pat` in `x + pat + y`, when `x` holds none. */
  lemma ReplaceFirstAfter(x: string, pat: string, y: string, rep: string)
    requires FirstCharUnique(pat)
    requires IndexOf(x, pat).None?
    ensures ReplaceFirst(x + pat + y, pat, rep) == x + rep + y
  {
    FirstOccurrence(x, pat, y);
    ReplaceFirstPresent(x + pat + y, pat, rep, |x|);
    var s := x + pat + y;
    assert s[..|x|] == x;
    assert s[|x| + |pat|..] == y;
  }

  /** Splitting a field free of `sep` gives back that single field. */
  lemma {:induction false} SplitField(p: string, sep: char)
    requires sep !in p
    ensures Split(p, sep) == [p]
  {
    if |p| > 0 {
      SplitField(p[1..], sep);
      assert [p[0]] + p[1..] == p;
    }
  }

  /** Splitting stops exactly at the first separator after a field free of it. */
  lemma {:induction false} SplitFieldThen(p: string, rest: string, sep: char)
    requires sep !in p
    ensures Split(p + [sep] + rest, sep) == [p] + Split(rest, sep)
  {
    var s := p + [sep] + rest;
    if |p| == 0 {
      assert s == [sep] + rest;
      assert s[1..] == rest;
    } else {
      assert s[0] == p[0];
      assert s[1..] == p[1..] + [sep] + rest;
      SplitFieldThen(p[1..], rest, sep);
      assert [p[0]] + p[1..] == p;
    }
  }

  /** Join and Split are inverse when no part contains the separator. */
  lemma {:induction false} SplitJoin(parts: seq<string>, sep: char)
    requires |parts| >= 1
    requires forall k :: 0 <= k < |parts| ==> sep !in parts[k]
    ensures Split(Join(parts, sep), sep) == parts
  {
    if |parts| == 1 {
      SplitField(parts[0], sep);
    } else {
      SplitJoin(parts[1..], sep);
      SplitFieldThen(parts[0], Join(parts[1..], sep), sep);
      assert [parts[0]] + parts[1..] == parts;
    }
  }
}
