/** The few JavaScript string operations the request handlers rely on:
    `startsWith`, `indexOf` of a single character, and `split`/`join` on a
    one-character separator.
 */
module Strings {

  /** `s.startsWith(prefix)`: case-sensitive, character by character. */
  predicate StartsWith(s: string, prefix: string) {
    |prefix| <= |s| && s[..|prefix|] == prefix
  }

  /** Position of the first `c` in `s`, or `|s|` when `s` has none
      (JavaScript answers -1 there; `|s|` keeps the result a valid cut point). */
  function IndexOf(s: string, c: char): (i: nat)
    ensures i <= |s|
    ensures i < |s| ==> s[i] == c
    ensures forall j :: 0 <= j < i ==> s[j] != c
  {
    if |s| == 0 then 0
    else if s[0] == c then 0
    else 1 + IndexOf(s[1..], c)
  }

  /** `parts.join(sep)` for a one-character separator. */
  function Join(parts: seq<string>, sep: char): string
  {
    if |parts| == 0 then ""
    else if |parts| == 1 then parts[0]
    else parts[0] + [sep] + Join(parts[1..], sep)
  }

  /** `s.split(sep)` for a one-character separator: the maximal runs of
      non-separator characters between separators, empty runs included, so
      `"".split(" ")` is `[""]` and `" ".split(" ")` is `["", ""]`.
      Splitting never loses or invents text: joining the fields gives `s` back. */
  function Split(s: string, sep: char): (parts: seq<string>)
    ensures |parts| >= 1
    ensures forall k :: 0 <= k < |parts| ==> sep !in parts[k]
    ensures Join(parts, sep) == s
    decreases |s|
  {
    var i := IndexOf(s, sep);
    if i == |s| then
      [s]
    else
      var rest := Split(s[i + 1..], sep);
      assert s == s[..i] + [sep] + s[i + 1..];
      [s[..i]] + rest
  }

  /** The character search lands exactly at the first separator of a
      concatenation whose left part holds no separator. */
  lemma IndexOfAfterSeparatorFree(a: string, c: char, b: string)
    requires c !in a
    ensures IndexOf(a + [c] + b, c) == |a|
  {
    var s := a + [c] + b;
    assert s[|a|] == c;
    assert forall j :: 0 <= j < |a| ==> s[j] == a[j];
  }

  /** Splitting undoes joining when no field contains the separator. */
  lemma {:induction false} SplitJoin(parts: seq<string>, sep: char)
    requires |parts| >= 1
    requires forall k :: 0 <= k < |parts| ==> sep !in parts[k]
    ensures Split(Join(parts, sep), sep) == parts
    decreases |parts|
  {
    if |parts| == 1 {
      var s := parts[0];
      assert forall j :: 0 <= j < |s| ==> s[j] != sep;
    } else {
      var rest := Join(parts[1..], sep);
      var s := parts[0] + [sep] + rest;
      assert Join(parts, sep) == s;
      IndexOfAfterSeparatorFree(parts[0], sep, rest);
      assert s[..|parts[0]|] == parts[0];
      assert s[|parts[0]| + 1..] == rest;
      SplitJoin(parts[1..], sep);
      assert parts == [parts[0]] + parts[1..];
    }
  }

  /** A separator right after a separator-free head splits off that head. */
  lemma SplitAfterHead(head: string, sep: char, rest: string)
    requires sep !in head
    ensures Split(head + [sep] + rest, sep) == [head] + Split(rest, sep)
  {
    var s := head + [sep] + rest;
    IndexOfAfterSeparatorFree(head, sep, rest);
    assert s[..|head|] == head;
    assert s[|head| + 1..] == rest;
  }

  /** The first field of a split is the text before the first separator. */
  lemma SplitHead(s: string, sep: char)
    ensures Split(s, sep)[0] == s[..IndexOf(s, sep)]
  {
  }
}
