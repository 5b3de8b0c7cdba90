/** How Deploy in pct.go settles the name and the output directory of what
    it generates, from the optional name and output flags, the working
    directory and the template's kind. */
module Target {
  import opened Strings
  import opened Paths
  import opened Seqs

  datatype Target = Target(name: string, output: string)

  /** The flag defaults, one row per combination of given flags. With no
      flag at all the working directory names the output and is the output;
      a failed os.Getwd reads as the empty directory, and then the output
      becomes ".". */
  function Defaulted(name: string, output: string, cwd: string): (t: Target)
    ensures t.name != "" && t.output != ""
  {
    if name != "" && output != "" then Target(name, output)
    else if name != "" then Target(name, Join(cwd, name))
    else if output != "" then Target(Base(output), output)
    else Target(Base(cwd), if cwd == "" then "." else cwd)
  }

  /** The kind adjustment, for an output that is never empty. A project's
      output receives the name as one more element unless the output
      string already ends with the name; an item whose output string ends
      with the name is placed in the directory above; other kinds are left
      as they are. Both tests are plain string suffix tests. */
  function ForKind(kind: string, t: Target): Target {
    if kind == "project" && !HasSuffix(t.output, t.name) then Target(t.name, Join(t.output, t.name))
    else if kind == "item" && HasSuffix(t.output, t.name) then Target(t.name, Clean(SplitPath(t.output).dir))
    else t
  }

  /** Where Deploy writes, and under which name. */
  function ResolvedTarget(kind: string, name: string, output: string, cwd: string): Target {
    ForKind(kind, Defaulted(name, output, cwd))
  }

  /** The chain of reassignments at the top of Deploy. The fourth default
      and the two empty-output branches of the kind switch can never be
      taken: the chain leaves both values non-empty. */
  method ResolveTarget(kind: string, name: string, output: string, cwd: string)
    returns (targetName: string, targetOutput: string)
    ensures Target(targetName, targetOutput) == ResolvedTarget(kind, name, output, cwd)
    ensures targetName != "" && targetOutput != ""
  {
    targetName, targetOutput := name, output;
    if targetName == "" && targetOutput == "" {
      targetName := Base(cwd);
      targetOutput := cwd;
    }
    if targetName != "" && targetOutput == "" {
      CleanDot();
      targetOutput := Join(cwd, targetName);
    }
    if targetName == "" && targetOutput != "" {
      targetName := Base(targetOutput);
    }
    if targetName == "" {
      targetName := Base(cwd);
    }
    if kind == "project" {
      if targetOutput == "" {
        targetOutput := cwd;
      } else if HasSuffix(targetOutput, targetName) {
      } else {
        targetOutput := Join(targetOutput, targetName);
      }
    } else if kind == "item" {
      if targetOutput == "" {
        targetOutput := cwd;
      } else if HasSuffix(targetOutput, targetName) {
        targetOutput := SplitPath(targetOutput).dir;
        targetOutput := Clean(targetOutput);
      }
    }
  }

  // ---------------------------------------------------------------------
  // Properties

  /** A project's output ends with its name whenever the name is one
      ordinary path element. */
  lemma ProjectOutputEndsWithName(name: string, output: string, cwd: string)
    requires IsPlainSegment(Defaulted(name, output, cwd).name)
    ensures var r := ResolvedTarget("project", name, output, cwd);
      r.name == Defaulted(name, output, cwd).name && HasSuffix(r.output, r.name)
  {
    var t := Defaulted(name, output, cwd);
    if !HasSuffix(t.output, t.name) {
      CleanEndsWithSegment(t.output, t.name);
    }
  }

  /** An item whose output ends with its name goes to the cleaned directory
      part of the output: the whole last element is dropped, whatever part
      of it matched. Otherwise the output is kept. */
  lemma ItemDropsLastElement(name: string, output: string, cwd: string)
    ensures var t := Defaulted(name, output, cwd);
      var r := ResolvedTarget("item", name, output, cwd);
      r.name == t.name &&
      (HasSuffix(t.output, t.name) ==>
        exists last :: Sep !in last && t.output == SplitPath(t.output).dir + last && r.output == Clean(SplitPath(t.output).dir)) &&
      (!HasSuffix(t.output, t.name) ==> r.output == t.output)
  {
    var t := Defaulted(name, output, cwd);
    var p := SplitPath(t.output);
    assert Sep !in p.file && t.output == p.dir + p.file;
  }

  /** Other kinds take the defaults as they are. */
  lemma OtherKindsUnadjusted(kind: string, name: string, output: string, cwd: string)
    requires kind != "project" && kind != "item"
    ensures ResolvedTarget(kind, name, output, cwd) == Defaulted(name, output, cwd)
  {
  }

  /** A path that does not end in a separator ends with its base name. */
  lemma BaseIsSuffix(p: string)
    requires p != "" && p[|p| - 1] != Sep
    ensures HasSuffix(p, Base(p))
  {
    var parts := SplitPath(p);
    assert TrimTrailingSeps(p) == p;
    assert p[|p| - |parts.file|..] == parts.file;
  }

  /** With no flags an item is placed in the parent of the working
      directory (a working directory as os.Getwd reports it: the root, or
      non-empty without a trailing separator). */
  lemma ItemWithoutFlagsGoesToParent(cwd: string)
    requires cwd != "" && (cwd == [Sep] || cwd[|cwd| - 1] != Sep)
    ensures ResolvedTarget("item", "", "", cwd) == Target(Base(cwd), Clean(SplitPath(cwd).dir))
  {
    if cwd == [Sep] {
      RootBase();
    } else {
      BaseIsSuffix(cwd);
    }
  }

  /** At the root, the base and the directory part are both the root. */
  lemma RootBase()
    ensures Base([Sep]) == [Sep] && HasSuffix([Sep], Base([Sep]))
    ensures SplitPath([Sep]) == Parts([Sep], "")
  {
    assert TrimTrailingSeps([Sep]) == "";
  }

  /** Split of a directory part followed by a separator-free file part. */
  lemma SplitPathOf(d: string, f: string)
    requires d != "" && d[|d| - 1] == Sep && Sep !in f
    ensures SplitPath(d + f) == Parts(d, f)
  {
    var p := d + f;
    var i := LastSep(p);
    assert p[|d| - 1] == Sep;
    assert p[..|d|] == d && p[|d|..] == f;
  }

  /** One ordinary element under the root, with a trailing separator,
      cleans to the element under the root. */
  lemma CleanRootedElement(a: string)
    requires IsPlainSegment(a)
    ensures Clean([Sep] + a + [Sep]) == [Sep] + a
  {
    var q := [Sep] + a + [Sep];
    SplitRootedElement(a);
    ResolveRootedElement(a);
    assert q[0] == Sep;
  }

  lemma SplitRootedElement(a: string)
    requires Sep !in a
    ensures Split([Sep] + a + [Sep], Sep) == ["", a, ""]
  {
    SplitTrailing(a);
    SplitLeading(a + [Sep]);
    ConcatAssoc([Sep], a, [Sep]);
  }

  lemma SplitTrailing(a: string)
    requires Sep !in a
    ensures Split(a + [Sep], Sep) == [a, ""]
  {
    SplitCons(a, Sep, "");
    assert a + [Sep] + "" == a + [Sep];
  }

  lemma ResolveRootedElement(a: string)
    requires IsPlainSegment(a)
    ensures Paths.Resolve(true, [], ["", a, ""]) == [a]
  {
    assert Paths.Resolve(true, [a], []) == [a];
    assert [""][1..] == [];
    assert Paths.Resolve(true, [a], [""]) == [a];
    assert [a, ""][1..] == [""];
    assert Paths.Resolve(true, [], [a, ""]) == [a];
    assert ["", a, ""][1..] == [a, ""];
  }

  /** The name is matched as a string, not as an element: an item whose
      output's last element merely ends with the name (superwidget for the
      name widget) still goes to the directory above, here /d. */
  lemma ItemSuffixIsStringSuffix(d: string, prefix: string, name: string, cwd: string)
    requires IsPlainSegment(d) && name != "" && Sep !in prefix && Sep !in name
    ensures ResolvedTarget("item", name, [Sep] + d + [Sep] + (prefix + name), cwd) == Target(name, [Sep] + d)
  {
    var dir := [Sep] + d + [Sep];
    var last := prefix + name;
    var o := dir + last;
    assert Defaulted(name, o, cwd) == Target(name, o);
    ConcatAssoc(dir, prefix, name);
    EndsWith(dir + prefix, name);
    assert Sep !in last;
    SplitPathOf(dir, last);
    CleanRootedElement(d);
  }

  lemma EndsWith(a: string, b: string)
    ensures HasSuffix(a + b, b)
  {
    assert (a + b)[|a|..] == b;
  }

  /** With no flags a project is generated into the working directory
      itself, named after it. */
  lemma ProjectWithoutFlagsUsesCwd(cwd: string)
    requires cwd != "" && (cwd == [Sep] || cwd[|cwd| - 1] != Sep)
    ensures ResolvedTarget("project", "", "", cwd) == Target(Base(cwd), cwd)
  {
    if cwd == [Sep] {
      RootBase();
    } else {
      BaseIsSuffix(cwd);
    }
  }
}
