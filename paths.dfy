/**
 * The part of System.IO.Path that the editor tools rely on, with the
 * semantics .NET gives it on a Unix host: '/' is the only directory
 * separator and a path is rooted when it starts with '/'.
 */
module Paths {

  import opened Wrappers

  const Separator: char := '/'

  predicate IsRooted(p: string) {
    |p| > 0 && p[0] == Separator
  }

  predicate HasSeparator(s: string) {
    exists k :: 0 <= k < |s| && s[k] == Separator
  }

  /** Path.Combine(a, b): an empty part yields the other, a rooted b wins, and one separator is inserted when a lacks a trailing one. */
  function Combine(a: string, b: string): string {
    if |b| == 0 then a
    else if |a| == 0 || IsRooted(b) then b
    else if a[|a| - 1] == Separator then a + b
    else a + [Separator] + b
  }

  /** The combined path ends with b, and starts with a followed by a separator unless b is rooted. */
  lemma CombineParts(a: string, b: string)
    ensures var r := Combine(a, b);
      && (|b| > 0 ==> |r| >= |b| && r[|r| - |b|..] == b)
      && (|b| == 0 ==> r == a)
      && (|b| > 0 && !IsRooted(b) && |a| > 0 ==> |r| > |a| && r[..|a|] == a)
      && (|b| > 0 && !IsRooted(b) && |a| > 0 && a[|a| - 1] != Separator ==> r[|a|] == Separator)
  {
  }

  /** Combining one directory with two different relative names gives two different paths, both different from the directory. */
  lemma CombineDistinct(a: string, b1: string, b2: string)
    requires |b1| > 0 && |b2| > 0 && !IsRooted(b1) && !IsRooted(b2)
    requires b1 != b2
    ensures Combine(a, b1) != Combine(a, b2)
    ensures Combine(a, b1) != a && Combine(a, b2) != a
  {
    CombineParts(a, b1);
    CombineParts(a, b2);
  }

  /** Index of the last separator in s, if any. */
  function LastSeparator(s: string): (r: Option<nat>)
    ensures r.Some? ==> r.value < |s| && s[r.value] == Separator && forall k :: r.value < k < |s| ==> s[k] != Separator
    ensures r.None? ==> !HasSeparator(s)
  {
    if |s| == 0 then None
    else if s[|s| - 1] == Separator then Some(|s| - 1)
    else
      var r := LastSeparator(s[..|s| - 1]);
      assert forall k :: 0 <= k < |s| - 1 ==> s[..|s| - 1][k] == s[k];
      r
  }

  /** Path.GetFileName: the text after the last separator (the whole path when there is none). */
  function GetFileName(p: string): string {
    match LastSeparator(p)
    case None => p
    case Some(k) => p[k + 1..]
  }

  /** A file name holds no separator and ends the path. */
  lemma GetFileNameParts(p: string)
    ensures !HasSeparator(GetFileName(p))
    ensures |GetFileName(p)| <= |p| && GetFileName(p) == p[|p| - |GetFileName(p)|..]
  {
  }

  /** The end of s[..e] once the separators that close it are dropped. */
  function TrimSeparators(s: string, e: nat): (r: nat)
    requires e <= |s|
    ensures r <= e
    ensures forall j :: r <= j < e ==> s[j] == Separator
    ensures r > 0 ==> s[r - 1] != Separator
  {
    if e > 0 && s[e - 1] == Separator then TrimSeparators(s, e - 1) else e
  }

  /**
   * Path.GetDirectoryName: the text before the last separator, without the
   * separators that run up to it; the root when only separators precede the
   * file name; "" when the path has no separator.
   */
  function GetDirectoryName(p: string): (r: string)
    ensures !HasSeparator(p) ==> r == ""
    ensures HasSeparator(p) && r == [Separator] ==>
      forall j :: 0 <= j < |p| - |GetFileName(p)| ==> p[j] == Separator
    ensures HasSeparator(p) && r != [Separator] ==>
      && 0 < |r| < |p| - |GetFileName(p)|
      && r == p[..|r|]
      && r[|r| - 1] != Separator
      && forall j :: |r| <= j < |p| - |GetFileName(p)| ==> p[j] == Separator
  {
    match LastSeparator(p)
    case None => ""
    case Some(k) =>
      var e := TrimSeparators(p, k);
      if e == 0 then [Separator] else p[..e]
  }

  /** Splitting a combined path gives back its directory and its file name. */
  lemma {:induction false} SplitCombined(dir: string, name: string)
    requires |dir| > 0 && dir[|dir| - 1] != Separator
    requires |name| > 0 && !HasSeparator(name)
    ensures GetFileName(Combine(dir, name)) == name
    ensures GetDirectoryName(Combine(dir, name)) == dir
  {
    var p := Combine(dir, name);
    assert p == dir + [Separator] + name;
    var k := |dir|;
    assert p[k] == Separator;
    assert forall j :: k < j < |p| ==> p[j] == name[j - k - 1];
    var last := LastSeparator(p);
    assert last.Some?;
    assert last.value == k;
    assert p[k + 1..] == name;
    assert p[..k] == dir;
  }
}
