/**
 * String operations shared by the Go and the Python programs: substring
 * search, prefix removal, splitting on a separator, trimming.
 *
 * A Go string is a sequence of bytes, and Go indexes and slices it by byte;
 * where this model speaks of a Go string (`GoString`) every `char` stands for
 * one byte of it. A Python `str` is a sequence of code points and is modelled
 * as `string` directly. The operations are generic in the element type where
 * they do not depend on it.
 */
module Strings {
  import opened Wrappers

  /** A Go string, one `char` per byte. */
  type GoString = string

  /** `p` occurs in `s` starting at position `i`. */
  predicate OccursAt<T(==)>(s: seq<T>, p: seq<T>, i: int) {
    0 <= i && i + |p| <= |s| && s[i..i + |p|] == p
  }

  lemma OccursAtTail<T>(s: seq<T>, p: seq<T>, j: int)
    requires |s| > 0 && j >= 0
    ensures OccursAt(s[1..], p, j) <==> OccursAt(s, p, j + 1)
  {
    if 0 <= j && j + |p| <= |s| - 1 {
      assert s[1..][j..j + |p|] == s[j + 1..j + 1 + |p|];
    }
  }

  /** Past a mismatch at the front, the occurrences are those of the tail, shifted by one. */
  lemma OccursAfterHead<T>(s: seq<T>, p: seq<T>)
    requires |s| >= |p| && s[..|p|] != p
    ensures !OccursAt(s, p, 0)
    ensures forall j :: OccursAt(s, p, j) ==> j >= 1 && OccursAt(s[1..], p, j - 1)
    ensures forall j :: OccursAt(s[1..], p, j) ==> OccursAt(s, p, j + 1)
  {
    forall j | OccursAt(s, p, j) ensures j >= 1 && OccursAt(s[1..], p, j - 1) {
      OccursAtTail(s, p, j - 1);
    }
    forall j | OccursAt(s[1..], p, j) ensures OccursAt(s, p, j + 1) {
      OccursAtTail(s, p, j);
    }
  }

  /** The first position where `p` occurs in `s` (Go `strings.Index`, Python `str.find`). */
  function IndexOf<T(==)>(s: seq<T>, p: seq<T>): (r: Option<nat>)
    ensures r.Some? ==> OccursAt(s, p, r.value)
    ensures r.Some? ==> forall j :: 0 <= j < r.value ==> !OccursAt(s, p, j)
    ensures r.None? ==> forall j :: !OccursAt(s, p, j)
    decreases |s|
  {
    if |s| < |p| then None
    else if s[..|p|] == p then Some(0)
    else
      OccursAfterHead(s, p);
      match IndexOf(s[1..], p)
      case None => None
      case Some(i) => Some(i + 1)
  }

  /** Go `strings.Contains`, Python `in`. */
  predicate Contains<T(==)>(s: seq<T>, p: seq<T>) {
    IndexOf(s, p).Some?
  }

  lemma ContainsIff<T>(s: seq<T>, p: seq<T>)
    ensures Contains(s, p) <==> exists i :: OccursAt(s, p, i)
  {
  }

  /** Go `strings.HasPrefix`. */
  predicate HasPrefix<T(==)>(s: seq<T>, p: seq<T>) {
    |p| <= |s| && s[..|p|] == p
  }

  /** The three pieces of a concatenation are found again by slicing. */
  lemma Concat3<T>(a: seq<T>, b: seq<T>, c: seq<T>)
    ensures (a + b + c)[..|a|] == a
    ensures (a + b + c)[|a|..|a| + |b|] == b
    ensures (a + b + c)[|a| + |b|..] == c
  {
    var s := a + b + c;
    assert s[..|a|] == a;
    assert s[|a|..|a| + |b|] == b;
    assert s[|a| + |b|..] == c;
  }

  /** Go `strings.HasSuffix`. */
  predicate HasSuffix<T(==)>(s: seq<T>, p: seq<T>) {
    |p| <= |s| && s[|s| - |p|..] == p
  }

  /** Go `strings.TrimPrefix`: drops `p` only when `s` starts with it. */
  function TrimPrefix<T(==)>(s: seq<T>, p: seq<T>): (r: seq<T>)
    ensures HasPrefix(s, p) ==> p + r == s
    ensures !HasPrefix(s, p) ==> r == s
  {
    if HasPrefix(s, p) then s[|p|..] else s
  }

  /**
   * Go `strings.Split(s, sep)` and Python `s.split(sep)` for a non-empty
   * separator: the pieces between the occurrences of `sep`, found from left
   * to right without overlap.
   */
  function Split<T(==)>(s: seq<T>, sep: seq<T>): (parts: seq<seq<T>>)
    requires |sep| > 0
    ensures |parts| >= 1
    decreases |s|
  {
    match IndexOf(s, sep)
    case None => [s]
    case Some(i) => [s[..i]] + Split(s[i + |sep|..], sep)
  }

  /** The inverse of `Split`: the pieces with `sep` between consecutive ones. */
  function Join<T>(parts: seq<seq<T>>, sep: seq<T>): seq<T>
    requires |parts| >= 1
    decreases |parts|
  {
    if |parts| == 1 then parts[0] else parts[0] + sep + Join(parts[1..], sep)
  }

  /** Splitting loses nothing but the separators. */
  lemma {:induction false} SplitJoin<T>(s: seq<T>, sep: seq<T>)
    requires |sep| > 0
    ensures Join(Split(s, sep), sep) == s
    decreases |s|
  {
    match IndexOf(s, sep)
    case None =>
    case Some(i) =>
      var rest := s[i + |sep|..];
      SplitJoin(rest, sep);
      assert s[i..i + |sep|] == sep;
      assert s == s[..i] + sep + rest;
      SplitStep(s, sep, i);
  }

  lemma SplitStep<T>(s: seq<T>, sep: seq<T>, i: nat)
    requires |sep| > 0 && IndexOf(s, sep) == Some(i)
    ensures Split(s, sep) == [s[..i]] + Split(s[i + |sep|..], sep)
    ensures Split(s, sep)[0] == s[..i] && Split(s, sep)[1..] == Split(s[i + |sep|..], sep)
  {
  }

  /** No piece of a split holds the separator. */
  lemma {:induction false} SplitPiecesLackSeparator<T>(s: seq<T>, sep: seq<T>)
    requires |sep| > 0
    ensures forall k :: 0 <= k < |Split(s, sep)| ==> !Contains(Split(s, sep)[k], sep)
    decreases |s|
  {
    match IndexOf(s, sep)
    case None =>
    case Some(i) =>
      var rest := s[i + |sep|..];
      SplitPiecesLackSeparator(rest, sep);
      PrefixBeforeFirstOccurrence(s, sep, i);
      SplitStep(s, sep, i);
      var parts := Split(s, sep);
      forall k | 0 < k < |parts| ensures !Contains(parts[k], sep) {
        assert parts[k] == Split(rest, sep)[k - 1];
      }
  }

  /** The text before the first occurrence of `p` does not contain `p`. */
  lemma PrefixBeforeFirstOccurrence<T>(s: seq<T>, p: seq<T>, i: nat)
    requires |p| > 0 && IndexOf(s, p) == Some(i)
    ensures !Contains(s[..i], p)
  {
    forall j | OccursAt(s[..i], p, j) ensures false {
      assert s[..i][j..j + |p|] == s[j..j + |p|];
      assert OccursAt(s, p, j);
    }
  }

  /** A sequence without the first element of `sep` holds no occurrence of it. */
  lemma LacksHead<T>(s: seq<T>, sep: seq<T>)
    requires |sep| > 0 && sep[0] !in s
    ensures !Contains(s, sep)
  {
    ContainsIff(s, sep);
    forall i | 0 <= i ensures !OccursAt(s, sep, i) {
      if i + |sep| <= |s| {
        assert s[i..i + |sep|][0] == s[i];
      }
    }
  }

  /** A sequence without `sep` splits into itself alone. */
  lemma SplitWithoutSeparator<T>(s: seq<T>, sep: seq<T>)
    requires |sep| > 0 && !Contains(s, sep)
    ensures Split(s, sep) == [s]
  {
  }

  /**
   * When the first element of `sep` does not occur in `a`, the first
   * occurrence of `sep` in `a + sep + b` is the one right after `a`.
   */
  lemma FirstOccurrenceAfter<T>(a: seq<T>, sep: seq<T>, b: seq<T>)
    requires |sep| > 0 && sep[0] !in a
    ensures IndexOf(a + sep + b, sep) == Some(|a|)
  {
    var s := a + sep + b;
    assert OccursAt(s, sep, |a|) by {
      assert s[|a|..|a| + |sep|] == sep;
    }
    forall j | 0 <= j < |a| ensures !OccursAt(s, sep, j) {
      assert s[j] == a[j];
      if j + |sep| <= |s| {
        assert s[j..j + |sep|][0] == s[j];
      }
    }
  }

  /** Splitting `a + sep + b` when `a` cannot start an occurrence. */
  lemma SplitAround<T>(a: seq<T>, sep: seq<T>, b: seq<T>)
    requires |sep| > 0 && sep[0] !in a
    ensures Split(a + sep + b, sep) == [a] + Split(b, sep)
  {
    var s := a + sep + b;
    FirstOccurrenceAfter(a, sep, b);
    assert s[..|a|] == a;
    assert s[|a| + |sep|..] == b;
  }

  /** Go `strings.SplitN(s, sep, 2)`: split at the first occurrence only. */
  function SplitFirst<T(==)>(s: seq<T>, sep: seq<T>): (parts: seq<seq<T>>)
    requires |sep| > 0
    ensures |parts| == 2 <==> Contains(s, sep)
    ensures |parts| == 1 <==> !Contains(s, sep)
    ensures |parts| == 1 ==> parts[0] == s
    ensures |parts| == 2 ==> parts[0] + sep + parts[1] == s && !Contains(parts[0], sep)
  {
    match IndexOf(s, sep)
    case None => [s]
    case Some(i) =>
      assert s == s[..i] + sep + s[i + |sep|..] by {
        assert s[i..i + |sep|] == sep;
      }
      PrefixBeforeFirstOccurrence(s, sep, i);
      [s[..i], s[i + |sep|..]]
  }

  /** Number of elements of `s` equal to `c`. */
  function CountOf<T(==)>(s: seq<T>, c: T): nat
    decreases |s|
  {
    if s == [] then 0 else (if s[0] == c then 1 else 0) + CountOf(s[1..], c)
  }

  lemma CountOfAppend<T>(a: seq<T>, b: seq<T>, c: T)
    ensures CountOf(a + b, c) == CountOf(a, c) + CountOf(b, c)
    decreases |a|
  {
    if a != [] {
      assert (a + b)[0] == a[0];
      assert (a + b)[1..] == a[1..] + b;
      CountOfAppend(a[1..], b, c);
    } else {
      assert a + b == b;
    }
  }

  lemma CountOfAbsent<T>(s: seq<T>, c: T)
    requires c !in s
    ensures CountOf(s, c) == 0
    decreases |s|
  {
    if s != [] {
      CountOfAbsent(s[1..], c);
    }
  }

  lemma ContainsSingle<T>(s: seq<T>, c: T)
    ensures Contains(s, [c]) <==> c in s
  {
    if c in s {
      var i :| 0 <= i < |s| && s[i] == c;
      assert OccursAt(s, [c], i);
    }
    if Contains(s, [c]) {
      var i := IndexOf(s, [c]).value;
      assert s[i..i + 1][0] == s[i];
    }
  }

  /** Splitting on a one-element separator gives one piece more than it has separators. */
  lemma {:induction false} SplitCount<T>(s: seq<T>, c: T)
    ensures |Split(s, [c])| == CountOf(s, c) + 1
    decreases |s|
  {
    match IndexOf(s, [c])
    case None =>
      ContainsSingle(s, c);
      CountOfAbsent(s, c);
    case Some(i) =>
      var rest := s[i + 1..];
      SplitCount(rest, c);
      assert s == s[..i] + [c] + rest by {
        assert s[i..i + 1] == [c];
      }
      PrefixBeforeFirstOccurrence(s, [c], i);
      ContainsSingle(s[..i], c);
      CountOfAbsent(s[..i], c);
      CountOfAppend(s[..i] + [c], rest, c);
      CountOfAppend(s[..i], [c], c);
  }

  /** How many leading elements of `s` satisfy `space`. */
  function LeadingCount<T>(s: seq<T>, space: T -> bool): (n: nat)
    ensures n <= |s|
    ensures forall i :: 0 <= i < n ==> space(s[i])
    ensures n < |s| ==> !space(s[n])
    decreases |s|
  {
    if s == [] || !space(s[0]) then 0 else 1 + LeadingCount(s[1..], space)
  }

  /** How many trailing elements of `s` satisfy `space`. */
  function TrailingCount<T>(s: seq<T>, space: T -> bool): (n: nat)
    ensures n <= |s|
    ensures forall i :: |s| - n <= i < |s| ==> space(s[i])
    ensures n < |s| ==> !space(s[|s| - n - 1])
    decreases |s|
  {
    if s == [] || !space(s[|s| - 1]) then 0 else 1 + TrailingCount(s[..|s| - 1], space)
  }

  /**
   * Drops the leading and trailing elements that satisfy `space`: the result
   * is the slice of `s` after its leading spaces, it is empty or starts and
   * ends with a non-space, and everything after it is space.
   */
  function Trim<T>(s: seq<T>, space: T -> bool): (r: seq<T>)
    ensures LeadingCount(s, space) + |r| <= |s|
    ensures r == s[LeadingCount(s, space)..LeadingCount(s, space) + |r|]
    ensures forall i :: LeadingCount(s, space) + |r| <= i < |s| ==> space(s[i])
    ensures r != [] ==> !space(r[0]) && !space(r[|r| - 1])
    ensures (forall i :: 0 <= i < |s| ==> !space(s[i])) ==> r == s
  {
    var a := LeadingCount(s, space);
    var rest := s[a..];
    var t := TrailingCount(rest, space);
    assert forall i :: a + |rest| - t <= i < |s| ==> s[i] == rest[i - a];
    rest[..|rest| - t]
  }

  /** Trimming leaves alone a sequence that starts and ends with a non-space. */
  lemma TrimOfTrimmed<T>(s: seq<T>, space: T -> bool)
    requires s != [] && !space(s[0]) && !space(s[|s| - 1])
    ensures Trim(s, space) == s
  {
    assert LeadingCount(s, space) == 0;
  }

  /** A leading space is trimmed away. */
  lemma TrimLeadingSpace<T>(x: T, s: seq<T>, space: T -> bool)
    requires space(x)
    ensures Trim([x] + s, space) == Trim(s, space)
  {
    assert ([x] + s)[1..] == s;
    assert LeadingCount([x] + s, space) == 1 + LeadingCount(s, space);
    assert ([x] + s)[1 + LeadingCount(s, space)..] == s[LeadingCount(s, space)..];
  }

  /** The bytes Go's `strings.TrimSpace` removes: ASCII white space. */
  predicate IsGoSpace(c: char) {
    c == ' ' || c == '\t' || c == '\n' || c == '\r' || c == '\U{B}' || c == '\U{C}'
  }

  /** Go `strings.TrimSpace` on a byte string. */
  function TrimSpace(s: GoString): (r: GoString)
    ensures r != [] ==> !IsGoSpace(r[0]) && !IsGoSpace(r[|r| - 1])
  {
    Trim(s, IsGoSpace)
  }
}
