/** The JavaScript string built-ins the providers rely on, with their
    ECMAScript semantics. Positions count `char`s, which in Dafny are
    Unicode scalar values rather than UTF-16 code units. */
module JsString {

  /** `s.startsWith(prefix)`. */
  predicate StartsWith(s: string, prefix: string) {
    |prefix| <= |s| && s[..|prefix|] == prefix
  }

  /** `s.indexOf(c)` for a one-character needle: the first position of `c`, or -1. */
  function IndexOf(s: string, c: char): (r: int)
    ensures r == -1 <==> c !in s
    ensures r != -1 ==> 0 <= r < |s| && s[r] == c && c !in s[..r]
  {
    if s == [] then -1
    else if s[0] == c then 0
    else
      var k := IndexOf(s[1..], c);
      if k == -1 then -1
      else
        assert s[1..][..k] == s[1..k + 1];
        k + 1
  }

  /** `s.lastIndexOf(c)` for a one-character needle: the last position of `c`, or -1. */
  function LastIndexOf(s: string, c: char): (r: int)
    ensures r == -1 <==> c !in s
    ensures r != -1 ==> 0 <= r < |s| && s[r] == c && c !in s[r + 1..]
  {
    if s == [] then -1
    else if s[|s| - 1] == c then |s| - 1
    else
      var init := s[..|s| - 1];
      assert s == init + [s[|s| - 1]];
      var k := LastIndexOf(init, c);
      if k != -1 then
        assert s[k + 1..] == init[k + 1..] + [s[|s| - 1]];
        k
      else
        k
  }

  /** `sep` occurs in `s` starting at position `i`. */
  predicate OccursAt(s: string, sep: string, i: int) {
    0 <= i && i + |sep| <= |s| && s[i..i + |sep|] == sep
  }

  ghost predicate Occurs(s: string, sep: string) {
    exists i :: OccursAt(s, sep, i)
  }

  lemma OccursAtTail(s: string, sep: string, j: int)
    requires |s| > 0 && 0 <= j
    ensures OccursAt(s[1..], sep, j) <==> OccursAt(s, sep, j + 1)
  {
    if j + |sep| <= |s| - 1 {
      assert s[1..][j..j + |sep|] == s[j + 1..j + 1 + |sep|];
    }
  }

  /** `s.indexOf(sep)` for a non-empty needle: the first position where `sep`
      occurs in `s`, or -1. */
  function Find(s: string, sep: string): (r: int)
    requires |sep| > 0
    ensures r == -1 <==> !Occurs(s, sep)
    ensures r != -1 ==> OccursAt(s, sep, r) && forall j :: 0 <= j < r ==> !OccursAt(s, sep, j)
    decreases |s|
  {
    if |s| < |sep| then
      assert forall i :: !OccursAt(s, sep, i);
      -1
    else if s[..|sep|] == sep then
      assert OccursAt(s, sep, 0);
      0
    else
      var k := Find(s[1..], sep);
      if k == -1 then
        forall i | OccursAt(s, sep, i) ensures false {
          assert i != 0;
          OccursAtTail(s, sep, i - 1);
        }
        -1
      else
        OccursAtTail(s, sep, k);
        forall j | 0 <= j < k + 1 ensures !OccursAt(s, sep, j) {
          if j > 0 { OccursAtTail(s, sep, j - 1); }
        }
        k + 1
  }

  /** `s.split(sep)` for a non-empty string separator: the pieces between
      successive non-overlapping occurrences of `sep`, scanning left to right. */
  function Split(s: string, sep: string): (parts: seq<string>)
    requires |sep| > 0
    ensures |parts| >= 1
    ensures |parts| > 1 <==> Occurs(s, sep)
    decreases |s|
  {
    var i := Find(s, sep);
    if i == -1 then [s]
    else [s[..i]] + Split(s[i + |sep|..], sep)
  }

  /** `parts.join(sep)`. */
  function Join(parts: seq<string>, sep: string): string
  {
    if |parts| == 0 then ""
    else if |parts| == 1 then parts[0]
    else parts[0] + sep + Join(parts[1..], sep)
  }

  /** Joining a head and a non-empty tail puts the separator between them. */
  lemma JoinCons(head: string, tail: seq<string>, sep: string)
    requires |tail| >= 1
    ensures Join([head] + tail, sep) == head + sep + Join(tail, sep)
  {
    assert ([head] + tail)[1..] == tail;
  }

  /** A string is the text before an occurrence of `sep`, `sep`, and the text after. */
  lemma Reassemble(s: string, sep: string, i: int)
    requires OccursAt(s, sep, i)
    ensures s == s[..i] + sep + s[i + |sep|..]
  {
    assert s == s[..i] + s[i..i + |sep|] + s[i + |sep|..];
  }

  /** One unfolding of `Split` at an occurrence of the separator. */
  lemma SplitUnfold(s: string, sep: string)
    requires |sep| > 0 && Find(s, sep) != -1
    ensures var i := Find(s, sep);
            Split(s, sep) == [s[..i]] + Split(s[i + |sep|..], sep)
  {
  }

  /** The first piece and the remaining pieces of a split at an occurrence. */
  lemma SplitParts(s: string, sep: string)
    requires |sep| > 0 && Find(s, sep) != -1
    ensures var i := Find(s, sep);
            Split(s, sep)[0] == s[..i] && Split(s, sep)[1..] == Split(s[i + |sep|..], sep)
  {
    var i := Find(s, sep);
    SplitUnfold(s, sep);
    assert ([s[..i]] + Split(s[i + |sep|..], sep))[1..] == Split(s[i + |sep|..], sep);
  }

  /** Splitting and re-joining with the same separator gives back the string. */
  lemma {:induction false} JoinSplit(s: string, sep: string)
    requires |sep| > 0
    ensures Join(Split(s, sep), sep) == s
    decreases |s|
  {
    var i := Find(s, sep);
    if i != -1 {
      var rest := s[i + |sep|..];
      JoinSplit(rest, sep);
      SplitUnfold(s, sep);
      JoinCons(s[..i], Split(rest, sep), sep);
      Reassemble(s, sep, i);
    }
  }

  /** When `sep` occurs in `s`, the first piece is the text before its first
      occurrence and the remaining pieces re-joined are the text after it. */
  lemma SplitHeadTail(s: string, sep: string)
    requires |sep| > 0 && Occurs(s, sep)
    ensures var i := Find(s, sep);
            var parts := Split(s, sep);
            parts[0] == s[..i] && Join(parts[1..], sep) == s[i + |sep|..]
  {
    var i := Find(s, sep);
    var rest := s[i + |sep|..];
    var parts := Split(s, sep);
    SplitParts(s, sep);
    assert parts[1..] == Split(rest, sep);
    JoinSplit(rest, sep);
    assert Join(parts[1..], sep) == rest;
  }
}
