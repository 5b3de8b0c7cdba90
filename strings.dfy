/** Go's `strings` helpers used by the core, over `seq<char>` and a one-character separator. */
module Strings {

  /** strings.HasPrefix */
  predicate HasPrefix(s: string, prefix: string) {
    |prefix| <= |s| && s[..|prefix|] == prefix
  }

  /** strings.HasSuffix */
  predicate HasSuffix(s: string, suffix: string) {
    |suffix| <= |s| && s[|s| - |suffix|..] == suffix
  }

  /** `s` has the prefix exactly when it is the prefix followed by something. */
  lemma PrefixIsConcat(s: string, prefix: string)
    ensures HasPrefix(s, prefix) <==> exists t :: s == prefix + t
  {
    if HasPrefix(s, prefix) {
      assert s == prefix + s[|prefix|..];
    }
    forall t | s == prefix + t ensures HasPrefix(s, prefix) {
      assert s[..|prefix|] == prefix;
    }
  }

  /** `s` has the suffix exactly when it is something followed by the suffix. */
  lemma SuffixIsConcat(s: string, suffix: string)
    ensures HasSuffix(s, suffix) <==> exists t :: s == t + suffix
  {
    if HasSuffix(s, suffix) {
      assert s == s[..|s| - |suffix|] + suffix;
    }
    forall t | s == t + suffix ensures HasSuffix(s, suffix) {
      assert s[|t|..] == suffix;
    }
  }

  /** Index of the first occurrence of `c` in `s`, or `|s|` when there is none. */
  function IndexOf(s: string, c: char): (i: nat)
    ensures i <= |s|
    ensures i < |s| <==> c in s
    ensures i < |s| ==> s[i] == c
    ensures c !in s[..i]
  {
    if s == [] then 0
    else if s[0] == c then 0
    else
      var j := IndexOf(s[1..], c);
      assert s[1..][..j] == s[1..j + 1];
      assert s[..j + 1] == [s[0]] + s[1..][..j];
      1 + j
  }

  /** strings.Split(s, sep) for a one-character separator: the maximal
      pieces of `s` between occurrences of `sep`; never empty. */
  function Split(s: string, sep: char): (r: seq<string>)
    ensures |r| >= 1
    decreases |s|
  {
    var i := IndexOf(s, sep);
    if i == |s| then [s] else [s[..i]] + Split(s[i + 1..], sep)
  }

  /** strings.Join(parts, sep) for a one-character separator. */
  function JoinWith(parts: seq<string>, sep: char): string {
    if parts == [] then ""
    else if |parts| == 1 then parts[0]
    else parts[0] + [sep] + JoinWith(parts[1..], sep)
  }

  /** Splitting and joining on the same separator gives the input back. */
  lemma {:induction false} JoinSplit(s: string, sep: char)
    ensures JoinWith(Split(s, sep), sep) == s
    decreases |s|
  {
    var i := IndexOf(s, sep);
    if i < |s| {
      var head, rest := s[..i], s[i + 1..];
      var r := Split(rest, sep);
      assert Split(s, sep) == [head] + r;
      JoinSplit(rest, sep);
      JoinWithCons(head, r, sep);
      AroundIndex(s, i);
    } else {
      SplitNone(s, sep);
    }
  }

  /** A string is what comes before index `i`, the character there, and
      what follows. */
  lemma AroundIndex(s: string, i: nat)
    requires i < |s|
    ensures s[..i] + [s[i]] + s[i + 1..] == s
  {
  }

  /** Joining a piece in front of a non-empty list adds the piece and the
      separator. */
  lemma JoinWithCons(x: string, parts: seq<string>, sep: char)
    requires parts != []
    ensures JoinWith([x] + parts, sep) == x + [sep] + JoinWith(parts, sep)
  {
    assert ([x] + parts)[1..] == parts;
  }

  /** No piece produced by Split contains the separator. */
  lemma {:induction false} SplitPiecesFree(s: string, sep: char)
    ensures forall k :: 0 <= k < |Split(s, sep)| ==> sep !in Split(s, sep)[k]
    decreases |s|
  {
    var i := IndexOf(s, sep);
    if i < |s| {
      SplitPiecesFree(s[i + 1..], sep);
    }
  }

  /** The number of pieces is one more than the number of separators. */
  lemma {:induction false} SplitCount(s: string, sep: char)
    ensures |Split(s, sep)| == multiset(s)[sep] + 1
    decreases |s|
  {
    var i := IndexOf(s, sep);
    if i < |s| {
      var head, rest := s[..i], s[i + 1..];
      assert Split(s, sep) == [head] + Split(rest, sep);
      SplitCount(rest, sep);
      AroundIndex(s, i);
      CountAround(head, sep, rest);
    } else {
      SplitNone(s, sep);
    }
  }

  /** Without a separator there is one piece, the whole string. */
  lemma SplitNone(s: string, sep: char)
    requires sep !in s
    ensures Split(s, sep) == [s] && multiset(s)[sep] == 0
  {
  }

  lemma CountAround(a: string, c: char, b: string)
    requires c !in a
    ensures multiset(a + [c] + b)[c] == 1 + multiset(b)[c]
  {
    assert multiset(a + [c] + b) == multiset(a) + multiset([c]) + multiset(b);
  }

  /** A piece free of the separator followed by the separator is split off first. */
  lemma SplitCons(a: string, sep: char, b: string)
    requires sep !in a
    ensures Split(a + [sep] + b, sep) == [a] + Split(b, sep)
  {
    var s := a + [sep] + b;
    assert s[..|a|] == a && s[|a|] == sep;
    assert s[|a| + 1..] == b;
  }

  /** The first piece runs up to the first separator; the others are the
      pieces of what follows it. */
  lemma SplitFirst(s: string, sep: char)
    ensures Split(s, sep)[0] == s[..IndexOf(s, sep)]
    ensures sep in s ==> Split(s, sep)[1..] == Split(s[IndexOf(s, sep) + 1..], sep)
  {
    var i := IndexOf(s, sep);
    if i < |s| {
      var r := Split(s[i + 1..], sep);
      assert Split(s, sep) == [s[..i]] + r;
      assert ([s[..i]] + r)[1..] == r;
    } else {
      SplitNone(s, sep);
      assert s[..i] == s;
    }
  }

  /** Joining a list extended by one piece adds the separator and that piece. */
  lemma {:induction false} JoinWithSnoc(parts: seq<string>, x: string, sep: char)
    requires parts != []
    ensures JoinWith(parts + [x], sep) == JoinWith(parts, sep) + [sep] + x
    decreases |parts|
  {
    if |parts| == 1 {
      assert parts + [x] == [parts[0], x];
    } else {
      assert (parts + [x])[1..] == parts[1..] + [x];
      JoinWithSnoc(parts[1..], x, sep);
    }
  }

  /** Splitting the join of pieces free of the separator gives them back. */
  lemma {:induction false} SplitJoin(parts: seq<string>, sep: char)
    requires parts != []
    requires forall k :: 0 <= k < |parts| ==> sep !in parts[k]
    ensures Split(JoinWith(parts, sep), sep) == parts
    decreases |parts|
  {
    if |parts| > 1 {
      SplitJoin(parts[1..], sep);
      SplitCons(parts[0], sep, JoinWith(parts[1..], sep));
    }
  }

  /** Joining pieces free of a character with another separator yields a
      string free of that character. */
  lemma {:induction false} JoinWithFree(parts: seq<string>, sep: char, c: char)
    requires sep != c
    requires forall k :: 0 <= k < |parts| ==> c !in parts[k]
    ensures c !in JoinWith(parts, sep)
    decreases |parts|
  {
    if |parts| > 1 {
      JoinWithFree(parts[1..], sep, c);
    }
  }
}
