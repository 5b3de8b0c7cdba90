/** Go's `path/filepath` functions that the core uses, for the '/' separator
    (no volume names): Base, Split, Join and the lexical Clean. */
module Paths {
  import opened Strings
  import opened Seqs

  const Sep: char := '/'

  // ---------------------------------------------------------------------
  // Clean

  /** A segment other than "", "." and ".." that contains no separator:
      one ordinary path element. */
  predicate IsPlainSegment(seg: string) {
    seg != "" && seg != "." && seg != ".." && Sep !in seg
  }

  /** One step of Clean's lexical rules over the stack of kept elements:
      empty and "." elements vanish, ".." removes the previous ordinary
      element, is dropped at the root of a rooted path, and is kept at the
      front of a relative path. */
  function Step(rooted: bool, stack: seq<string>, seg: string): seq<string> {
    if seg == "" || seg == "." then stack
    else if seg == ".." then
      if |stack| > 0 && stack[|stack| - 1] != ".." then stack[..|stack| - 1]
      else if rooted then stack
      else stack + [".."]
    else stack + [seg]
  }

  /** Clean's rules applied left to right to the elements `segs`. */
  function Resolve(rooted: bool, stack: seq<string>, segs: seq<string>): seq<string>
    decreases |segs|
  {
    if segs == [] then stack else Resolve(rooted, Step(rooted, stack, segs[0]), segs[1..])
  }

  /** filepath.Clean: the shortest lexically equivalent path. Repeated
      separators collapse, "." elements go, ".." elements cancel the element
      before them, a trailing separator goes; "" becomes ".". */
  function Clean(p: string): (r: string)
    ensures r != ""
  {
    if p == [] then "."
    else
      var rooted := p[0] == Sep;
      var body := JoinWith(Resolve(rooted, [], Split(p, Sep)), Sep);
      if rooted then [Sep] + body
      else if body == "" then "."
      else body
  }

  // ---------------------------------------------------------------------
  // Split, Base, Join

  /** Index of the last separator in `p`, or -1 when there is none. */
  function LastSep(p: string): (i: int)
    ensures -1 <= i < |p|
    ensures i >= 0 ==> p[i] == Sep
    ensures forall k :: i < k < |p| ==> p[k] != Sep
  {
    if p == [] then -1
    else if p[|p| - 1] == Sep then |p| - 1
    else LastSep(p[..|p| - 1])
  }

  /** The two halves filepath.Split returns. */
  datatype Parts = Parts(dir: string, file: string)

  /** filepath.Split: the path up to and including its last separator, and
      the rest. */
  function SplitPath(p: string): (r: Parts)
    ensures r.dir + r.file == p
    ensures Sep !in r.file
    ensures r.dir == "" || r.dir[|r.dir| - 1] == Sep
  {
    var i := LastSep(p);
    HalvesJoin(p, i);
    NoSepAfterLast(p, i);
    Parts(p[..i + 1], p[i + 1..])
  }

  /** The two halves on either side of the last separator make up `p`. */
  lemma HalvesJoin(p: string, i: int)
    requires -1 <= i < |p|
    ensures p[..i + 1] + p[i + 1..] == p
  {
  }

  /** No separator follows the last one. */
  lemma NoSepAfterLast(p: string, i: int)
    requires i == LastSep(p)
    ensures Sep !in p[i + 1..]
  {
    var f := p[i + 1..];
    forall k | 0 <= k < |f|
      ensures f[k] != Sep
    {
      assert f[k] == p[i + 1 + k];
    }
  }

  /** `p` with every trailing separator removed. */
  function TrimTrailingSeps(p: string): (r: string)
    ensures |r| <= |p| && r == p[..|r|]
    ensures r == "" || r[|r| - 1] != Sep
    ensures forall k :: |r| <= k < |p| ==> p[k] == Sep
  {
    if p == [] || p[|p| - 1] != Sep then p else TrimTrailingSeps(p[..|p| - 1])
  }

  /** filepath.Base: the last element of the path, trailing separators
      ignored; "." for the empty path and "/" for a path of separators only. */
  function Base(p: string): (r: string)
    ensures r != ""
    ensures p == "" ==> r == "."
    ensures p != "" && TrimTrailingSeps(p) == "" ==> r == [Sep]
    ensures var q := TrimTrailingSeps(p);
      q != "" ==> Sep !in r && HasSuffix(q, r) && (|r| == |q| || q[|q| - |r| - 1] == Sep)
  {
    if p == [] then "."
    else
      var q := TrimTrailingSeps(p);
      if q == [] then [Sep]
      else
        var parts := SplitPath(q);
        assert q[|parts.dir|..] == parts.file;
        parts.file
  }

  /** filepath.Join: the non-empty tail starting at the first non-empty
      element, joined by separators and cleaned; "" when every element is
      empty. */
  function JoinAll(elems: seq<string>): (r: string)
    ensures r == "" <==> forall k :: 0 <= k < |elems| ==> elems[k] == ""
  {
    if elems == [] then ""
    else if elems[0] == "" then JoinAll(elems[1..])
    else Clean(JoinWith(elems, Sep))
  }

  /** filepath.Join of two elements. */
  function Join(a: string, b: string): (r: string)
    ensures a != "" ==> r == Clean(a + [Sep] + b)
    ensures a == "" && b != "" ==> r == Clean(b)
    ensures a == "" && b == "" ==> r == ""
  {
    assert [a, b][1..] == [b];
    assert JoinWith([a, b], Sep) == a + [Sep] + b;
    assert JoinAll([b]) == if b == "" then "" else Clean(b);
    JoinAll([a, b])
  }

  // ---------------------------------------------------------------------
  // Properties of Clean

  /** Splitting a path extended by one element adds that element. */
  lemma {:induction false} SplitSnoc(a: string, b: string)
    requires Sep !in b
    ensures Split(a + [Sep] + b, Sep) == Split(a, Sep) + [b]
    decreases |a|
  {
    var i := IndexOf(a, Sep);
    if i == |a| {
      SplitCons(a, Sep, b);
    } else {
      var h, a' := a[..i], a[i + 1..];
      assert a == h + [Sep] + a';
      Regroup(h + [Sep], a', [Sep], b);
      SplitCons(h, Sep, a' + [Sep] + b);
      SplitCons(h, Sep, a');
      SplitSnoc(a', b);
      ConcatAssoc([h], Split(a', Sep), [b]);
    }
  }

  lemma Regroup<T>(x: seq<T>, y: seq<T>, z: seq<T>, w: seq<T>)
    ensures x + y + z + w == x + (y + z + w)
  {
  }

  /** Resolving one more element is one more Step. */
  lemma {:induction false} ResolveSnoc(rooted: bool, stack: seq<string>, segs: seq<string>, seg: string)
    ensures Resolve(rooted, stack, segs + [seg]) == Step(rooted, Resolve(rooted, stack, segs), seg)
    decreases |segs|
  {
    if segs == [] {
      assert segs + [seg] == [seg];
    } else {
      assert (segs + [seg])[1..] == segs[1..] + [seg];
      ResolveSnoc(rooted, Step(rooted, stack, segs[0]), segs[1..], seg);
    }
  }

  /** Joining an ordinary element onto a path yields a path that ends with
      that element. */
  lemma CleanEndsWithSegment(p: string, n: string)
    requires IsPlainSegment(n)
    ensures HasSuffix(Clean(p + [Sep] + n), n)
  {
    var q := p + [Sep] + n;
    var rooted := q[0] == Sep;
    SplitSnoc(p, n);
    ResolveSnoc(rooted, [], Split(p, Sep), n);
    var st := Resolve(rooted, [], Split(p, Sep));
    assert Resolve(rooted, [], Split(q, Sep)) == st + [n];
    var body := JoinWith(st + [n], Sep);
    if st == [] {
      assert body == n;
    } else {
      JoinWithSnoc(st, n, Sep);
    }
    assert HasSuffix(body, n) && body != "";
    assert Clean(q) == if rooted then [Sep] + body else body;
    if rooted {
      assert ([Sep] + body)[|[Sep] + body| - |n|..] == body[|body| - |n|..];
    }
  }

  /** The stack shape Clean produces: ordinary elements, preceded (only in a
      relative path) by any number of "..". */
  ghost predicate Normal(rooted: bool, st: seq<string>) {
    forall i :: 0 <= i < |st| ==>
      st[i] != "" && st[i] != "." && Sep !in st[i] &&
      (st[i] == ".." ==> !rooted && forall j :: 0 <= j < i ==> st[j] == "..")
  }

  /** Clean's rules keep the stack in normal shape. */
  lemma {:induction false} ResolveNormal(rooted: bool, st: seq<string>, segs: seq<string>)
    requires Normal(rooted, st)
    requires forall k :: 0 <= k < |segs| ==> Sep !in segs[k]
    ensures Normal(rooted, Resolve(rooted, st, segs))
    decreases |segs|
  {
    if segs != [] {
      var st' := Step(rooted, st, segs[0]);
      assert Normal(rooted, st') by {
        if segs[0] == ".." && !(|st| > 0 && st[|st| - 1] != "..") && !rooted {
          assert forall j :: 0 <= j < |st| ==> st[j] == "..";
        }
      }
      ResolveNormal(rooted, st', segs[1..]);
    }
  }

  /** Resolving an already normal list of elements changes nothing. */
  lemma {:induction false} ResolveNormalIdentity(rooted: bool, acc: seq<string>, segs: seq<string>)
    requires Normal(rooted, acc + segs)
    ensures Resolve(rooted, acc, segs) == acc + segs
    decreases |segs|
  {
    if segs != [] {
      var all := acc + segs;
      assert all[|acc|] == segs[0];
      if segs[0] == ".." {
        assert forall j :: 0 <= j < |acc| ==> acc[j] == all[j] == "..";
      }
      assert Step(rooted, acc, segs[0]) == acc + [segs[0]];
      assert acc + [segs[0]] + segs[1..] == all;
      ResolveNormalIdentity(rooted, acc + [segs[0]], segs[1..]);
    }
  }

  /** The joined elements start with the first element's first character. */
  lemma JoinWithHead(st: seq<string>)
    requires st != [] && st[0] != ""
    ensures JoinWith(st, Sep) != "" && JoinWith(st, Sep)[0] == st[0][0]
  {
  }

  /** The body Clean builds for a normal stack resolves back to that stack. */
  lemma ResolveOfJoined(rooted: bool, st: seq<string>)
    requires Normal(rooted, st)
    ensures Resolve(rooted, [], Split(JoinWith(st, Sep), Sep)) == st
  {
    if st == [] {
      assert Split("", Sep) == [""];
    } else {
      SplitJoin(st, Sep);
      ResolveNormalIdentity(rooted, [], st);
      assert [] + st == st;
    }
  }

  /** "." is clean. */
  lemma CleanDot()
    ensures Clean(".") == "."
  {
    assert IndexOf(".", Sep) == 1;
    assert Split(".", Sep) == ["."];
    assert Resolve(false, [], ["."]) == [];
  }

  /** Clean is idempotent: its result is already clean. */
  lemma CleanIdempotent(p: string)
    ensures Clean(Clean(p)) == Clean(p)
  {
    if p == [] {
      CleanDot();
    } else {
      var rooted := p[0] == Sep;
      var segs := Split(p, Sep);
      SplitPiecesFree(p, Sep);
      ResolveNormal(rooted, [], segs);
      var st := Resolve(rooted, [], segs);
      var body := JoinWith(st, Sep);
      ResolveOfJoined(rooted, st);
      if rooted {
        CleanRooted(body);
      } else if body == "" {
        CleanDot();
      } else {
        JoinWithHead(st);
        CleanRelative(body);
      }
    }
  }

  /** A separator in front adds an empty first element. */
  lemma SplitLeading(b: string)
    ensures Split([Sep] + b, Sep) == [""] + Split(b, Sep)
  {
    SplitCons("", Sep, b);
    assert "" + [Sep] == [Sep];
  }

  /** A rooted path cleans like its body, rooted. */
  lemma CleanRooted(body: string)
    ensures Clean([Sep] + body) == [Sep] + JoinWith(Resolve(true, [], Split(body, Sep)), Sep)
  {
    var segs := Split(body, Sep);
    SplitLeading(body);
    assert ([""] + segs)[1..] == segs;
    assert Resolve(true, [], [""] + segs) == Resolve(true, [], segs);
  }

  /** A relative, non-empty path cleans through its own elements. */
  lemma CleanRelative(body: string)
    requires body != "" && body[0] != Sep
    ensures var r := JoinWith(Resolve(false, [], Split(body, Sep)), Sep);
      Clean(body) == if r == "" then "." else r
  {
  }
}
