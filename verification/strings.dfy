/**
 * Splitting a string at every occurrence of a separator character and joining
 * pieces back with it.  The client builds its URL paths, form bodies and the
 * canonical signing string by gluing fields together with '/' or '&'; these
 * lemmas say when the fields can be read back.
 */
module Strings {

  /** Where the first `sep` in `s` is, or |s| when there is none. */
  function IndexOf(s: string, sep: char): (i: nat)
    ensures i <= |s|
    ensures i < |s| ==> s[i] == sep
    ensures forall j :: 0 <= j < i ==> s[j] != sep
    decreases |s|
  {
    if |s| == 0 || s[0] == sep then 0 else 1 + IndexOf(s[1..], sep)
  }

  /** The pieces of `s` between occurrences of `sep` (PHP's `explode`). */
  function Split(s: string, sep: char): (parts: seq<string>)
    ensures |parts| > 0
    decreases |s|
  {
    var i := IndexOf(s, sep);
    if i == |s| then [s] else [s[..i]] + Split(s[i + 1..], sep)
  }

  /** The pieces glued together with `sep` between neighbours (PHP's `implode`). */
  function Join(parts: seq<string>, sep: char): string
    requires |parts| > 0
    decreases |parts|
  {
    if |parts| == 1 then parts[0] else parts[0] + [sep] + Join(parts[1..], sep)
  }

  /** No piece contains the separator. */
  predicate Separable(parts: seq<string>, sep: char) {
    forall i :: 0 <= i < |parts| ==> sep !in parts[i]
  }

  predicate HasPrefix(s: string, prefix: string) {
    |prefix| <= |s| && s[..|prefix|] == prefix
  }

  /** A separator placed after a separator-free string is the first one. */
  lemma IndexOfAfter(a: string, b: string, sep: char)
    requires sep !in a
    ensures IndexOf(a + [sep] + b, sep) == |a|
  {
    var s := a + [sep] + b;
    assert s[|a|] == sep;
    assert forall j :: 0 <= j < |a| ==> s[j] == a[j];
  }

  lemma SplitWithoutSeparator(s: string, sep: char)
    requires sep !in s
    ensures Split(s, sep) == [s]
  {
    assert forall j :: 0 <= j < |s| ==> s[j] != sep;
  }

  /**
   * Joining pieces whose first ones are free of the separator and splitting
   * again gives those pieces back, followed by whatever the last piece splits into.
   */
  lemma {:induction false} SplitJoinLast(parts: seq<string>, sep: char)
    requires |parts| > 0
    requires Separable(parts[..|parts| - 1], sep)
    ensures Split(Join(parts, sep), sep) == parts[..|parts| - 1] + Split(parts[|parts| - 1], sep)
    decreases |parts|
  {
    if |parts| > 1 {
      var head, tail := parts[0], parts[1..];
      var firsts, tailFirsts := parts[..|parts| - 1], tail[..|tail| - 1];
      assert firsts == [head] + tailFirsts;
      SeparableParts(firsts, sep);
      assert firsts[1..] == tailFirsts;
      assert parts == [head] + tail;
      JoinCons(head, tail, sep);
      SplitFirst(head, Join(tail, sep), sep);
      SplitJoinLast(tail, sep);
      assert tail[|tail| - 1] == parts[|parts| - 1];
      AppendAssociative([head], tailFirsts, Split(parts[|parts| - 1], sep));
    }
  }

  /** The first piece and the others of separator-free pieces are separator-free. */
  lemma SeparableParts(parts: seq<string>, sep: char)
    requires |parts| > 0 && Separable(parts, sep)
    ensures sep !in parts[0] && Separable(parts[1..], sep)
  {
    assert forall i :: 0 <= i < |parts| - 1 ==> parts[1..][i] == parts[i + 1];
  }

  lemma AppendAssociative<T>(a: seq<T>, b: seq<T>, c: seq<T>)
    ensures a + (b + c) == (a + b) + c
  {
  }

  /** Joining a piece in front of others puts it before a separator. */
  lemma JoinCons(head: string, rest: seq<string>, sep: char)
    requires |rest| > 0
    ensures Join([head] + rest, sep) == head + [sep] + Join(rest, sep)
  {
    assert ([head] + rest)[1..] == rest;
  }

  /** A separator-free piece before a separator is the first piece of the split. */
  lemma SplitFirst(head: string, rest: string, sep: char)
    requires sep !in head
    ensures Split(head + [sep] + rest, sep) == [head] + Split(rest, sep)
  {
    var s := head + [sep] + rest;
    IndexOfAfter(head, rest, sep);
    assert s[..|head|] == head;
    assert s[|head| + 1..] == rest;
  }

  /** `SplitJoin`, for parts that may or may not be free of the separator. */
  lemma SplitJoinIfSeparable(parts: seq<string>, sep: char)
    requires |parts| > 0
    ensures Separable(parts, sep) ==> Split(Join(parts, sep), sep) == parts
  {
    if Separable(parts, sep) {
      SplitJoin(parts, sep);
    }
  }

  /** Split undoes Join exactly when no piece contains the separator. */
  lemma SplitJoin(parts: seq<string>, sep: char)
    requires |parts| > 0 && Separable(parts, sep)
    ensures Split(Join(parts, sep), sep) == parts
  {
    var n := |parts|;
    var firsts := parts[..n - 1];
    assert Separable(firsts, sep) by {
      forall i | 0 <= i < |firsts| ensures sep !in firsts[i] {
        assert firsts[i] == parts[i];
      }
    }
    SplitJoinLast(parts, sep);
    SplitWithoutSeparator(parts[n - 1], sep);
    assert firsts + [parts[n - 1]] == parts;
  }

  /** Join undoes Split for every string. */
  lemma {:induction false} JoinSplit(s: string, sep: char)
    ensures Join(Split(s, sep), sep) == s
    decreases |s|
  {
    var i := IndexOf(s, sep);
    if i < |s| {
      var rest := Split(s[i + 1..], sep);
      assert Split(s, sep) == [s[..i]] + rest;
      JoinCons(s[..i], rest, sep);
      JoinSplit(s[i + 1..], sep);
      assert s == s[..i] + [sep] + s[i + 1..];
    }
  }

  /** No piece produced by Split contains the separator. */
  lemma {:induction false} SplitSeparable(s: string, sep: char)
    ensures Separable(Split(s, sep), sep)
    decreases |s|
  {
    var i := IndexOf(s, sep);
    if i < |s| {
      SplitSeparable(s[i + 1..], sep);
      var rest := Split(s[i + 1..], sep);
      var parts := [s[..i]] + rest;
      assert Split(s, sep) == parts;
      forall k | 0 <= k < |parts| ensures sep !in parts[k] {
        if k > 0 {
          assert parts[k] == rest[k - 1];
        }
      }
    }
  }

  /** Joining a suffix of the pieces first and then the rest gives the same string. */
  lemma {:induction false} JoinSuffix(parts: seq<string>, k: nat, sep: char)
    requires k < |parts|
    ensures Join(parts[..k] + [Join(parts[k..], sep)], sep) == Join(parts, sep)
    decreases k
  {
    if k > 0 {
      var tail := parts[1..];
      JoinSuffix(tail, k - 1, sep);
      var xs := parts[..k] + [Join(parts[k..], sep)];
      assert xs[1..] == tail[..k - 1] + [Join(tail[k - 1..], sep)];
      assert tail[k - 1..] == parts[k..];
    } else {
      assert parts[..0] + [Join(parts[0..], sep)] == [Join(parts, sep)];
      assert parts[0..] == parts;
    }
  }
}
