/** strings.NewReplacer(old1, new1, old2, new2, ...).Replace(s) for
    non-empty old strings: one left-to-right pass; at each position the
    first pair in argument order whose old string starts there is replaced,
    the scan resumes after the matched text, and inserted text is never
    scanned again. */
module Replacer {
  import opened Strings
  import opened Seqs

  datatype Pair = Pair(pattern: string, replacement: string)

  /** Every old string is non-empty (the core never passes an empty one). */
  predicate ValidPairs(pairs: seq<Pair>) {
    forall k :: 0 <= k < |pairs| ==> pairs[k].pattern != ""
  }

  /** Some pair's old string starts `s`. */
  predicate MatchesAt(s: string, pairs: seq<Pair>) {
    exists k :: 0 <= k < |pairs| && HasPrefix(s, pairs[k].pattern)
  }

  /** The first pair, in argument order, whose old string starts `s`;
      -1 when there is none. */
  function FirstMatch(s: string, pairs: seq<Pair>): (k: int)
    ensures -1 <= k < |pairs|
    ensures k >= 0 ==> HasPrefix(s, pairs[k].pattern)
    ensures forall j :: 0 <= j < k || (k < 0 && 0 <= j < |pairs|) ==> !HasPrefix(s, pairs[j].pattern)
    decreases |pairs|
  {
    if pairs == [] then -1
    else if HasPrefix(s, pairs[0].pattern) then 0
    else
      var k := FirstMatch(s, pairs[1..]);
      if k < 0 then -1 else k + 1
  }

  /** No old string occurs anywhere in `s`. */
  predicate NoMatchIn(s: string, pairs: seq<Pair>) {
    forall i :: 0 <= i < |s| ==> !MatchesAt(s[i..], pairs)
  }

  /** The replacer's single pass over `s`. A string in which no old string
      occurs is left as it is. */
  function Replace(s: string, pairs: seq<Pair>): (r: string)
    requires ValidPairs(pairs)
    ensures NoMatchIn(s, pairs) ==> r == s
    decreases |s|
  {
    if s == [] then []
    else
      var k := FirstMatch(s, pairs);
      NoMatchTail(s, pairs);
      if k < 0 then [s[0]] + Replace(s[1..], pairs)
      else pairs[k].replacement + Replace(s[|pairs[k].pattern|..], pairs)
  }

  /** Where no old string occurs, none starts `s` and none occurs in its tail. */
  lemma NoMatchTail(s: string, pairs: seq<Pair>)
    requires s != []
    ensures NoMatchIn(s, pairs) ==> !MatchesAt(s, pairs) && NoMatchIn(s[1..], pairs)
  {
    if NoMatchIn(s, pairs) {
      assert s[0..] == s;
      forall i | 0 <= i < |s[1..]| ensures !MatchesAt(s[1..][i..], pairs) {
        assert s[1..][i..] == s[i + 1..];
      }
    }
  }

  /** The first old string that starts `s` is replaced and scanning resumes
      behind it: the replacement text is emitted as it is. */
  lemma ReplaceLeading(s: string, pairs: seq<Pair>, k: nat)
    requires ValidPairs(pairs)
    requires k < |pairs| && HasPrefix(s, pairs[k].pattern)
    requires forall j :: 0 <= j < k ==> !HasPrefix(s, pairs[j].pattern)
    ensures Replace(s, pairs) == pairs[k].replacement + Replace(s[|pairs[k].pattern|..], pairs)
  {
    FirstMatchUnique(s, pairs, k);
  }

  /** FirstMatch is determined by which old strings start `s`. */
  lemma FirstMatchUnique(s: string, pairs: seq<Pair>, k: nat)
    requires k < |pairs| && HasPrefix(s, pairs[k].pattern)
    requires forall j :: 0 <= j < k ==> !HasPrefix(s, pairs[j].pattern)
    ensures FirstMatch(s, pairs) == k
  {
  }

  /** No occurrence of an old string starts inside `x` and runs on into `y`. */
  predicate NoStraddle(x: string, y: string, pairs: seq<Pair>) {
    forall i, j :: 0 <= i < |x| && 0 <= j < |pairs| && HasPrefix((x + y)[i..], pairs[j].pattern) ==>
      i + |pairs[j].pattern| <= |x|
  }

  /** The same old strings start `x + y` and `x` when none straddles. */
  lemma SameMatches(x: string, y: string, pairs: seq<Pair>)
    requires x != [] && NoStraddle(x, y, pairs)
    ensures FirstMatch(x + y, pairs) == FirstMatch(x, pairs)
  {
    assert (x + y)[0..] == x + y;
    forall j | 0 <= j < |pairs|
      ensures HasPrefix(x + y, pairs[j].pattern) <==> HasPrefix(x, pairs[j].pattern)
    {
      var o := pairs[j].pattern;
      if HasPrefix(x + y, o) {
        assert |o| <= |x|;
        assert (x + y)[..|o|] == x[..|o|];
      }
      if HasPrefix(x, o) {
        assert (x + y)[..|o|] == x[..|o|];
      }
    }
    var k := FirstMatch(x, pairs);
    if k >= 0 {
      FirstMatchUnique(x + y, pairs, k);
    }
  }

  /** NoStraddle survives dropping a leading part of `x`. */
  lemma NoStraddleSuffix(x: string, y: string, pairs: seq<Pair>, m: nat)
    requires m <= |x| && NoStraddle(x, y, pairs)
    ensures NoStraddle(x[m..], y, pairs)
  {
    var x' := x[m..];
    forall i, j | 0 <= i < |x'| && 0 <= j < |pairs| && HasPrefix((x' + y)[i..], pairs[j].pattern)
      ensures i + |pairs[j].pattern| <= |x'|
    {
      assert (x' + y)[i..] == (x + y)[i + m..];
    }
  }

  /** Replacing in a concatenation whose halves share no occurrence is
      replacing in each half. */
  lemma {:induction false} ReplaceConcat(x: string, y: string, pairs: seq<Pair>)
    requires ValidPairs(pairs)
    requires NoStraddle(x, y, pairs)
    ensures Replace(x + y, pairs) == Replace(x, pairs) + Replace(y, pairs)
    decreases |x|
  {
    if x == [] {
      assert x + y == y;
    } else {
      SameMatches(x, y, pairs);
      var k := FirstMatch(x, pairs);
      var m := if k < 0 then 1 else |pairs[k].pattern|;
      var head := if k < 0 then [x[0]] else pairs[k].replacement;
      var x' := x[m..];
      assert (x + y)[m..] == x' + y;
      assert (x + y)[0] == x[0];
      assert Replace(x + y, pairs) == head + Replace(x' + y, pairs);
      assert Replace(x, pairs) == head + Replace(x', pairs);
      NoStraddleSuffix(x, y, pairs, m);
      ReplaceConcat(x', y, pairs);
      ConcatAssoc(head, Replace(x', pairs), Replace(y, pairs));
    }
  }
}
