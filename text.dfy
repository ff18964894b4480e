/** The Python string operations the record mapper relies on: `str.strip()`,
    `str.split(sep)` with a one-character separator, and `sep.join(parts)`. */
module Text {

  /** `str.isspace()` for one character: the characters Python strips by default. */
  predicate IsSpace(c: char) {
    || c == ' '
    || ('\t' <= c <= '\r')
    || ('\U{1C}' <= c <= '\U{1F}')
    || c == '\U{85}' || c == '\U{A0}' || c == '\U{1680}'
    || ('\U{2000}' <= c <= '\U{200A}')
    || c == '\U{2028}' || c == '\U{2029}' || c == '\U{202F}' || c == '\U{205F}'
    || c == '\U{3000}'
  }

  /** Index of the first character of `s` at or after `i` that is not whitespace. */
  function SkipSpace(s: string, i: nat): (k: nat)
    requires i <= |s|
    ensures i <= k <= |s|
    ensures forall m :: i <= m < k ==> IsSpace(s[m])
    ensures k < |s| ==> !IsSpace(s[k])
    decreases |s| - i
  {
    if i < |s| && IsSpace(s[i]) then SkipSpace(s, i + 1) else i
  }

  /** One past the last character of `s[..j]` that is not whitespace. */
  function SkipSpaceBack(s: string, j: nat): (k: nat)
    requires j <= |s|
    ensures k <= j
    ensures forall m :: k <= m < j ==> IsSpace(s[m])
    ensures k > 0 ==> !IsSpace(s[k - 1])
  {
    if j > 0 && IsSpace(s[j - 1]) then SkipSpaceBack(s, j - 1) else j
  }

  /** `s.strip()`: `s` without its leading and trailing whitespace. */
  function Strip(s: string): (r: string)
    ensures |r| <= |s|
    ensures r != [] ==> !IsSpace(r[0]) && !IsSpace(r[|r| - 1])
    ensures r == [] <==> forall m :: 0 <= m < |s| ==> IsSpace(s[m])
    ensures var i := SkipSpace(s, 0);
      && i + |r| <= |s| && s[i..i + |r|] == r
      && (forall m :: i + |r| <= m < |s| ==> IsSpace(s[m]))
  {
    var i := SkipSpace(s, 0);
    if i == |s| then
      []
    else
      var j := SkipSpaceBack(s, |s|);
      assert !IsSpace(s[i]);
      assert i < j;
      assert s[i..i + (j - i)] == s[i..j];
      s[i..j]
  }

  /** Index of the first `c` in `s`, or `|s|` when there is none. */
  function IndexOf(s: string, c: char): (i: nat)
    ensures i <= |s|
    ensures i < |s| ==> s[i] == c
    ensures forall k :: 0 <= k < i ==> s[k] != c
    ensures i == |s| <==> c !in s
  {
    if s == [] then 0
    else if s[0] == c then 0
    else 1 + IndexOf(s[1..], c)
  }

  /** The text before the first `c` (all of `s` when `c` does not occur). */
  function BeforeFirst(s: string, c: char): (r: string)
    ensures c !in r
    ensures c !in s ==> r == s
    ensures c in s ==> s == r + [c] + AfterFirst(s, c)
  {
    s[..IndexOf(s, c)]
  }

  /** The text after the first `c` (empty when `c` does not occur). */
  function AfterFirst(s: string, c: char): (r: string)
    ensures |r| < |s| || c !in s
  {
    if IndexOf(s, c) < |s| then s[IndexOf(s, c) + 1..] else []
  }

  /** `s.split(c)`: the pieces between occurrences of `c`, empty pieces kept. */
  function Split(s: string, c: char): (parts: seq<string>)
    ensures |parts| >= 1
    ensures forall k :: 0 <= k < |parts| ==> c !in parts[k]
    decreases |s|
  {
    var i := IndexOf(s, c);
    if i == |s| then [s] else [s[..i]] + Split(s[i + 1..], c)
  }

  /** `sep.join(parts)`. */
  function Join(parts: seq<string>, sep: string): string
  {
    if parts == [] then []
    else if |parts| == 1 then parts[0]
    else parts[0] + sep + Join(parts[1..], sep)
  }

  /** Joining the pieces of a split with the separator gives the string back. */
  lemma {:induction false} JoinSplit(s: string, c: char)
    ensures Join(Split(s, c), [c]) == s
    decreases |s|
  {
    var i := IndexOf(s, c);
    if i < |s| {
      var rest := s[i + 1..];
      JoinSplit(rest, c);
      assert Split(s, c) == [s[..i]] + Split(rest, c);
      AroundIndex(s, i);
    }
  }

  /** Concatenation is associative. */
  lemma Associative<T>(a: seq<T>, b: seq<T>, c: seq<T>)
    ensures a + (b + c) == (a + b) + c
  {
  }

  /** A sequence is what lies before, at and after one of its indices. */
  lemma AroundIndex<T>(s: seq<T>, i: nat)
    requires i < |s|
    ensures s == s[..i] + [s[i]] + s[i + 1..]
  {
  }

  /** Splitting a join of pieces free of the separator gives the pieces back. */
  lemma {:induction false} SplitJoin(parts: seq<string>, c: char)
    requires |parts| >= 1
    requires forall k :: 0 <= k < |parts| ==> c !in parts[k]
    ensures Split(Join(parts, [c]), c) == parts
    decreases |parts|
  {
    if |parts| > 1 {
      var tail := parts[1..];
      var rest := Join(tail, [c]);
      var s := parts[0] + [c] + rest;
      assert Join(parts, [c]) == s;
      assert c !in parts[0];
      IndexAfterPrefix(parts[0], c, rest);
      assert s[..|parts[0]|] == parts[0];
      assert s[|parts[0]| + 1..] == rest;
      assert Split(s, c) == [parts[0]] + Split(rest, c);
      assert forall k :: 0 <= k < |tail| ==> tail[k] == parts[k + 1];
      SplitJoin(tail, c);
      assert parts == [parts[0]] + tail;
    } else {
      assert IndexOf(parts[0], c) == |parts[0]|;
    }
  }

  /** Cutting `p + [c] + t` at its first `c` gives `p` and `t` back, when `p`
      holds no `c`. */
  lemma CutAtFirst(p: string, c: char, t: string)
    requires c !in p
    ensures c in p + [c] + t
    ensures BeforeFirst(p + [c] + t, c) == p
    ensures AfterFirst(p + [c] + t, c) == t
  {
    var s := p + [c] + t;
    IndexAfterPrefix(p, c, t);
    assert s[|p|] == c;
    assert s[..|p|] == p;
    assert s[|p| + 1..] == t;
  }

  /** The first `c` of `p + [c] + t` is the one after `p`, when `p` holds none. */
  lemma {:induction false} IndexAfterPrefix(p: string, c: char, t: string)
    requires c !in p
    ensures IndexOf(p + [c] + t, c) == |p|
    decreases |p|
  {
    if p != [] {
      assert (p + [c] + t)[1..] == p[1..] + [c] + t;
      IndexAfterPrefix(p[1..], c, t);
    }
  }

  /** The first piece of a split is the text before the first separator. */
  lemma SplitFirst(s: string, c: char)
    ensures Split(s, c)[0] == BeforeFirst(s, c)
  {
  }

  /** A split has more than one piece exactly when the separator occurs. */
  lemma SplitMany(s: string, c: char)
    ensures |Split(s, c)| > 1 <==> c in s
  {
    if c in s {
      assert Split(s, c) == [BeforeFirst(s, c)] + Split(AfterFirst(s, c), c);
    }
  }

  /** The second piece of a split is the text between the first and the second
      separator (or the end). */
  lemma SplitSecond(s: string, c: char)
    requires c in s
    ensures |Split(s, c)| > 1 && Split(s, c)[1] == BeforeFirst(AfterFirst(s, c), c)
  {
    var i := IndexOf(s, c);
    var rest := s[i + 1..];
    assert AfterFirst(s, c) == rest;
    assert Split(s, c) == [s[..i]] + Split(rest, c);
    SplitFirst(rest, c);
    assert Split(s, c)[1] == Split(rest, c)[0];
  }

  /** Re-joining every piece after the first gives the text after the first
      separator, as `sep.join(parts[1:])` does. */
  lemma SplitRestJoin(s: string, c: char)
    requires c in s
    ensures Join(Split(s, c)[1..], [c]) == AfterFirst(s, c)
  {
    var i := IndexOf(s, c);
    var rest := s[i + 1..];
    assert AfterFirst(s, c) == rest;
    assert Split(s, c) == [s[..i]] + Split(rest, c);
    assert Split(s, c)[1..] == Split(rest, c);
    JoinSplit(rest, c);
  }
}
