/**
 * The Python string operations the request handler relies on:
 * `str.strip()`, `str.strip(chars)`, `str.rstrip(chars)` and `str.split(sep)`.
 */
module Text {

  /** The characters Python's `str.strip()` removes (those for which `str.isspace()` holds). */
  predicate IsPythonSpace(c: char) {
    || ('\t' <= c <= '\r')
    || ('\U{1C}' <= c <= '\U{1F}')
    || c == ' '
    || c == '\U{85}'
    || c == '\U{A0}'
    || c == '\U{1680}'
    || ('\U{2000}' <= c <= '\U{200A}')
    || c == '\U{2028}'
    || c == '\U{2029}'
    || c == '\U{202F}'
    || c == '\U{205F}'
    || c == '\U{3000}'
  }

  predicate IsSlash(c: char) {
    c == '/'
  }

  /** `s.lstrip(...)`: the longest prefix of dropped characters is removed. */
  function LStrip(s: string, drop: char -> bool): (r: string)
    ensures |r| <= |s| && r == s[|s| - |r|..]
    ensures forall k :: 0 <= k < |s| - |r| ==> drop(s[k])
    ensures r == [] || !drop(r[0])
    decreases |s|
  {
    if s != [] && drop(s[0]) then LStrip(s[1..], drop) else s
  }

  /** `s.rstrip(...)`: the longest suffix of dropped characters is removed. */
  function RStrip(s: string, drop: char -> bool): (r: string)
    ensures |r| <= |s| && r == s[..|r|]
    ensures forall k :: |r| <= k < |s| ==> drop(s[k])
    ensures r == [] || !drop(r[|r| - 1])
    decreases |s|
  {
    if s != [] && drop(s[|s| - 1]) then RStrip(s[..|s| - 1], drop) else s
  }

  /** `s.strip(...)`: both ends. */
  function Strip(s: string, drop: char -> bool): string {
    RStrip(LStrip(s, drop), drop)
  }

  /** Removing dropped characters from the end of a value that ends in a kept character gives that value. */
  lemma {:induction false} RStripOfKeptEnd(s: string, tail: string, drop: char -> bool)
    requires s == [] || !drop(s[|s| - 1])
    requires forall k :: 0 <= k < |tail| ==> drop(tail[k])
    ensures RStrip(s + tail, drop) == s
    decreases |tail|
  {
    if tail == [] {
      assert s + tail == s;
    } else {
      var u := s + tail;
      assert u[|u| - 1] == tail[|tail| - 1];
      assert u[..|u| - 1] == s + tail[..|tail| - 1];
      RStripOfKeptEnd(s, tail[..|tail| - 1], drop);
    }
  }

  /** Removing dropped characters from the start of a value that starts with a kept character gives that value. */
  lemma {:induction false} LStripOfKeptStart(head: string, s: string, drop: char -> bool)
    requires forall k :: 0 <= k < |head| ==> drop(head[k])
    requires s == [] || !drop(s[0])
    ensures LStrip(head + s, drop) == s
    decreases |head|
  {
    if head == [] {
      assert head + s == s;
    } else {
      var u := head + s;
      assert u[0] == head[0];
      assert u[1..] == head[1..] + s;
      LStripOfKeptStart(head[1..], s, drop);
    }
  }

  /** Stripping a value surrounded by dropped characters, and kept at both of its own ends, gives that value. */
  lemma StripSurrounded(head: string, s: string, tail: string, drop: char -> bool)
    requires forall k :: 0 <= k < |head| ==> drop(head[k])
    requires forall k :: 0 <= k < |tail| ==> drop(tail[k])
    requires s != [] && !drop(s[0]) && !drop(s[|s| - 1])
    ensures Strip(head + s + tail, drop) == s
  {
    assert head + s + tail == head + (s + tail);
    LStripOfKeptStart(head, s + tail, drop);
    RStripOfKeptEnd(s, tail, drop);
  }

  /** A stripped value is blank exactly when every character of the input is dropped. */
  lemma StripEmptyIff(s: string, drop: char -> bool)
    ensures Strip(s, drop) == [] <==> forall k :: 0 <= k < |s| ==> drop(s[k])
  {
    var l := LStrip(s, drop);
    if Strip(s, drop) == [] {
      forall k | 0 <= k < |s| ensures drop(s[k]) {
        if k >= |s| - |l| {
          assert s[k] == l[k - (|s| - |l|)];
        }
      }
    } else {
      var r := Strip(s, drop);
      assert r[0] == l[0] == s[|s| - |l|];
    }
  }

  /** Index of the first `sep` in `s`. */
  function IndexOf(s: string, sep: char): (i: nat)
    requires sep in s
    ensures i < |s| && s[i] == sep && sep !in s[..i]
  {
    if s[0] == sep then 0 else 1 + IndexOf(s[1..], sep)
  }

  /** Glue parts back together with `sep` between consecutive ones (`sep.join(parts)`). */
  function Join(parts: seq<string>, sep: char): string
    requires |parts| >= 1
    decreases |parts|
  {
    if |parts| == 1 then parts[0] else parts[0] + [sep] + Join(parts[1..], sep)
  }

  /**
   * `s.split(sep)`: never empty, no part contains `sep`, and joining the
   * parts with `sep` gives `s` back; empty parts are kept.
   */
  function Split(s: string, sep: char): (parts: seq<string>)
    ensures |parts| >= 1
    ensures forall i :: 0 <= i < |parts| ==> sep !in parts[i]
    ensures Join(parts, sep) == s
    decreases |s|
  {
    if sep in s then
      var i := IndexOf(s, sep);
      var rest := Split(s[i + 1..], sep);
      assert s == s[..i] + [sep] + s[i + 1..];
      assert ([s[..i]] + rest)[1..] == rest;
      [s[..i]] + rest
    else
      [s]
  }

  /** The first `sep` of `a + [sep] + rest` is the one after `a` when `a` has none. */
  lemma {:induction false} IndexOfAfter(a: string, rest: string, sep: char)
    requires sep !in a
    ensures sep in a + [sep] + rest && IndexOf(a + [sep] + rest, sep) == |a|
    decreases |a|
  {
    var u := a + [sep] + rest;
    assert u[|a|] == sep;
    if a != [] {
      assert u[0] == a[0];
      assert u[1..] == a[1..] + [sep] + rest;
      IndexOfAfter(a[1..], rest, sep);
    }
  }

  /** The other round trip: splitting a join of separator-free parts gives the parts. */
  lemma {:induction false} SplitJoin(parts: seq<string>, sep: char)
    requires |parts| >= 1
    requires forall i :: 0 <= i < |parts| ==> sep !in parts[i]
    ensures Split(Join(parts, sep), sep) == parts
    decreases |parts|
  {
    if |parts| == 1 {
      assert sep !in parts[0];
    } else {
      var tail := Join(parts[1..], sep);
      SplitCons(parts[0], tail, sep);
      SplitJoin(parts[1..], sep);
      assert parts == [parts[0]] + parts[1..];
    }
  }

  /** Splitting `head + sep + rest` where `head` has no `sep` peels `head` off first. */
  lemma SplitCons(head: string, rest: string, sep: char)
    requires sep !in head
    ensures Split(head + [sep] + rest, sep) == [head] + Split(rest, sep)
  {
    var s := head + [sep] + rest;
    IndexOfAfter(head, rest, sep);
    assert s[..|head|] == head;
    assert s[|head| + 1..] == rest;
  }
}
