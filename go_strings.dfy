/**
 * The few functions of Go's `strings` package that the engine and the
 * garbage collector rely on, over strings as sequences of characters.
 * Every separator and substring used by the core is a single ASCII
 * character, so separators are modelled as a `char`.
 */
module GoStrings {

  /** strings.Index(s, string(c)): the first position of `c` in `s`, or -1. */
  function Index(s: string, c: char): (r: int)
    ensures -1 <= r < |s|
    ensures r == -1 <==> c !in s
    ensures 0 <= r ==> s[r] == c && c !in s[..r]
  {
    if |s| == 0 then -1
    else if s[0] == c then 0
    else
      var k := Index(s[1..], c);
      assert s[1..] == s[..|s|][1..];
      if k == -1 then -1
      else
        assert s[..k + 1] == [s[0]] + s[1..][..k];
        k + 1
  }

  /** strings.Count(s, string(c)): the number of occurrences of `c` in `s`. */
  function Count(s: string, c: char): nat
  {
    if |s| == 0 then 0
    else (if s[0] == c then 1 else 0) + Count(s[1..], c)
  }

  lemma {:induction false} CountZero(s: string, c: char)
    ensures Count(s, c) == 0 <==> c !in s
  {
    if |s| > 0 {
      CountZero(s[1..], c);
      assert s == [s[0]] + s[1..];
    }
  }

  lemma {:induction false} CountConcat(a: string, b: string, c: char)
    ensures Count(a + b, c) == Count(a, c) + Count(b, c)
  {
    if |a| == 0 {
      assert a + b == b;
    } else {
      assert (a + b)[1..] == a[1..] + b;
      CountConcat(a[1..], b, c);
    }
  }

  /**
   * strings.Split(s, string(sep)): the pieces of `s` between the
   * occurrences of `sep`; the empty string splits into one empty piece.
   */
  function Split(s: string, sep: char): (parts: seq<string>)
    ensures |parts| >= 1
    ensures forall k :: 0 <= k < |parts| ==> sep !in parts[k]
    decreases |s|
  {
    var i := Index(s, sep);
    if i == -1 then [s] else [s[..i]] + Split(s[i + 1..], sep)
  }

  /** strings.Join(parts, string(sep)): the parts with `sep` between neighbours. */
  function Join(parts: seq<string>, sep: char): string
  {
    if |parts| == 0 then ""
    else if |parts| == 1 then parts[0]
    else parts[0] + [sep] + Join(parts[1..], sep)
  }

  /** Joining the pieces of a split gives back the string that was split. */
  lemma {:induction false} JoinSplit(s: string, sep: char)
    ensures Join(Split(s, sep), sep) == s
    decreases |s|
  {
    var i := Index(s, sep);
    if i != -1 {
      var head, rest := s[..i], s[i + 1..];
      var parts := Split(s, sep);
      assert parts == [head] + Split(rest, sep);
      assert |parts| > 1 && parts[0] == head && parts[1..] == Split(rest, sep);
      JoinSplit(rest, sep);
      assert Join(parts, sep) == head + [sep] + rest;
      assert s == head + [sep] + rest;
    }
  }

  /** Splitting a join of separator-free pieces gives back those pieces. */
  lemma {:induction false} SplitJoin(parts: seq<string>, sep: char)
    requires |parts| >= 1
    requires forall k :: 0 <= k < |parts| ==> sep !in parts[k]
    ensures Split(Join(parts, sep), sep) == parts
  {
    if |parts| > 1 {
      var s := Join(parts, sep);
      var head := parts[0];
      var tail := Join(parts[1..], sep);
      assert s == head + [sep] + tail;
      assert s[..|head|] == head;
      assert s[|head|] == sep;
      assert Index(s, sep) == |head|;
      assert s[|head| + 1..] == tail;
      SplitJoin(parts[1..], sep);
      assert Split(s, sep) == [head] + parts[1..];
    }
  }

  /** A split has one more piece than there are separators in the string. */
  lemma {:induction false} SplitCount(s: string, sep: char)
    ensures |Split(s, sep)| == Count(s, sep) + 1
    decreases |s|
  {
    var i := Index(s, sep);
    if i == -1 {
      CountZero(s, sep);
    } else {
      var rest := s[i + 1..];
      SplitCount(rest, sep);
      assert s == s[..i] + ([sep] + rest);
      CountConcat(s[..i], [sep] + rest, sep);
      CountZero(s[..i], sep);
      CountConcat([sep], rest, sep);
      assert Count([sep], sep) == 1;
    }
  }

  /** Joining n separator-free pieces puts exactly n - 1 separators in the result. */
  lemma JoinCount(parts: seq<string>, sep: char)
    requires |parts| >= 1
    requires forall k :: 0 <= k < |parts| ==> sep !in parts[k]
    ensures Count(Join(parts, sep), sep) == |parts| - 1
  {
    SplitJoin(parts, sep);
    SplitCount(Join(parts, sep), sep);
  }

  /** The first position at or after `i` whose character is not in `cutset`, or |s|. */
  function SkipLeading(s: string, cutset: set<char>, i: nat): (j: nat)
    requires i <= |s|
    ensures i <= j <= |s|
    ensures forall k :: i <= k < j ==> s[k] in cutset
    ensures j < |s| ==> s[j] !in cutset
    decreases |s| - i
  {
    if i < |s| && s[i] in cutset then SkipLeading(s, cutset, i + 1) else i
  }

  /** The end of `s[lo..j]` once its trailing characters from `cutset` are dropped. */
  function SkipTrailing(s: string, cutset: set<char>, lo: nat, j: nat): (e: nat)
    requires lo <= j <= |s|
    ensures lo <= e <= j
    ensures forall k :: e <= k < j ==> s[k] in cutset
    ensures lo < e ==> s[e - 1] !in cutset
    decreases j - lo
  {
    if lo < j && s[j - 1] in cutset then SkipTrailing(s, cutset, lo, j - 1) else j
  }

  /**
   * strings.Trim(s, cutset): `s` without its leading and trailing
   * characters from `cutset`. The result is a slice s[lo..hi] of `s`
   * whose two ends are not in `cutset` while everything outside it is.
   */
  function Trim(s: string, cutset: set<char>): (r: string)
    ensures var lo := SkipLeading(s, cutset, 0);
      && lo + |r| <= |s|
      && r == s[lo..lo + |r|]
      && (forall k :: 0 <= k < lo ==> s[k] in cutset)
      && (forall k :: lo + |r| <= k < |s| ==> s[k] in cutset)
    ensures |r| > 0 ==> r[0] !in cutset && r[|r| - 1] !in cutset
  {
    var lo := SkipLeading(s, cutset, 0);
    s[lo..SkipTrailing(s, cutset, lo, |s|)]
  }

  /** Trimming twice is trimming once. */
  lemma TrimIdempotent(s: string, cutset: set<char>)
    ensures Trim(Trim(s, cutset), cutset) == Trim(s, cutset)
  {
    var t := Trim(s, cutset);
    if |t| > 0 {
      assert SkipLeading(t, cutset, 0) == 0;
      assert SkipTrailing(t, cutset, 0, |t|) == |t|;
    }
  }
}
