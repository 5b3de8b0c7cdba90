/** The `new` command of new.go: its positional-argument rules, the build
    metadata it reads off the root command's version string, and its shell
    completion of template names. */
module NewCommand {
  import opened Wrappers
  import opened Strings
  import opened Seqs
  import opened Registry
  import Config
  import Deployment
  import Render

  // ---------------------------------------------------------------------
  // Shell completion

  /** Cobra's shell completion directives, bit flags. */
  type Directive = bv8
  const ShellCompDirectiveNoSpace: Directive := 2
  const ShellCompDirectiveNoFileComp: Directive := 4

  /** The completion offered for one template: its name, a tab, and its
      display name. */
  function CompletionEntry(t: TemplateInfo): string {
    t.name + "\t" + t.display
  }

  /** The completion entries of `tmpls`, in order. */
  function CompletionEntries(tmpls: seq<TemplateInfo>): (r: seq<string>)
    ensures |r| == |tmpls|
    ensures forall i :: 0 <= i < |tmpls| ==> r[i] == CompletionEntry(tmpls[i])
  {
    if tmpls == [] then [] else CompletionEntries(tmpls[..|tmpls| - 1]) + [CompletionEntry(tmpls[|tmpls| - 1])]
  }

  /** The test completeName filters with: the name starts with what the
      user typed. */
  function NameStartsWith(prefix: string): TemplateInfo -> bool {
    (t: TemplateInfo) => HasPrefix(t.name, prefix)
  }

  /** What completeName offers for `prefix` among `tmpls`. */
  function Completions(tmpls: seq<TemplateInfo>, prefix: string): seq<string> {
    CompletionEntries(Filter(tmpls, NameStartsWith(prefix)))
  }

  /** completeName: list every template under `cache`, keep those whose name
      starts with `prefix`. */
  method CompleteName(glob: string -> seq<string>, read: string -> Option<TemplateInfo>, cache: string, prefix: string)
    returns (names: seq<string>)
    ensures names == Completions(Listed(glob, read, cache, ""), prefix)
  {
    var tmpls, _ := List(glob, read, cache, "");
    names := [];
    ghost var test := NameStartsWith(prefix);
    for i := 0 to |tmpls|
      invariant names == CompletionEntries(Filter(tmpls[..i], test))
    {
      CompletionStep(tmpls, prefix, i);
      var tmpl := tmpls[i];
      if HasPrefix(tmpl.name, prefix) {
        var m := tmpl.name + "\t" + tmpl.display;
        names := names + [m];
      }
    }
    assert tmpls[..|tmpls|] == tmpls;
  }

  /** One more template of completeName's loop. */
  lemma CompletionStep(tmpls: seq<TemplateInfo>, prefix: string, i: nat)
    requires i < |tmpls|
    ensures var test := NameStartsWith(prefix);
      CompletionEntries(Filter(tmpls[..i + 1], test)) ==
        CompletionEntries(Filter(tmpls[..i], test)) + (if test(tmpls[i]) then [CompletionEntry(tmpls[i])] else [])
  {
    var test := NameStartsWith(prefix);
    assert tmpls[..i + 1][..i] == tmpls[..i];
    var kept := Filter(tmpls[..i], test);
    if test(tmpls[i]) {
      assert (kept + [tmpls[i]])[..|kept|] == kept;
    }
  }

  /** An entry is offered exactly for a template whose name starts with
      `prefix`. */
  lemma CompletionsMembership(tmpls: seq<TemplateInfo>, prefix: string, x: string)
    ensures x in Completions(tmpls, prefix) <==>
      exists t :: t in tmpls && HasPrefix(t.name, prefix) && x == CompletionEntry(t)
  {
    var kept := Filter(tmpls, NameStartsWith(prefix));
    if x in Completions(tmpls, prefix) {
      var i :| 0 <= i < |kept| && CompletionEntries(kept)[i] == x;
      FilterMembership(tmpls, NameStartsWith(prefix), kept[i]);
    }
    if exists t :: t in tmpls && HasPrefix(t.name, prefix) && x == CompletionEntry(t) {
      var t :| t in tmpls && HasPrefix(t.name, prefix) && x == CompletionEntry(t);
      FilterMembership(tmpls, NameStartsWith(prefix), t);
      var i :| 0 <= i < |kept| && kept[i] == t;
      assert CompletionEntries(kept)[i] == x;
    }
  }

  /** An empty prefix offers every template, in List order. */
  lemma EmptyMatchOffersAll(tmpls: seq<TemplateInfo>)
    ensures |Completions(tmpls, "")| == |tmpls|
    ensures forall i :: 0 <= i < |tmpls| ==> Completions(tmpls, "")[i] == CompletionEntry(tmpls[i])
  {
    FilterAll(tmpls, NameStartsWith(""));
  }

  lemma {:induction false} CompletionEntriesConcat(a: seq<TemplateInfo>, b: seq<TemplateInfo>)
    ensures CompletionEntries(a + b) == CompletionEntries(a) + CompletionEntries(b)
    decreases |b|
  {
    if b == [] {
      assert a + b == a;
    } else {
      var b' := b[..|b| - 1];
      assert (a + b)[..|a + b| - 1] == a + b';
      CompletionEntriesConcat(a, b');
    }
  }

  /** Completions keep the order of List: those of a concatenation are those
      of its parts, one after the other. */
  lemma CompletionsInOrder(a: seq<TemplateInfo>, b: seq<TemplateInfo>, prefix: string)
    ensures Completions(a + b, prefix) == Completions(a, prefix) + Completions(b, prefix)
  {
    FilterConcat(a, b, NameStartsWith(prefix));
    CompletionEntriesConcat(Filter(a, NameStartsWith(prefix)), Filter(b, NameStartsWith(prefix)));
  }

  // ---------------------------------------------------------------------
  // Build metadata from the version string

  /** The build metadata RunE takes from the root command's version string:
      fields 1, 2 and 3 of its first line, split on single spaces. With
      fewer than four fields the Go code indexes out of range and panics;
      that is None here. Stated without Split: there is metadata exactly
      when the first line holds at least three spaces, and then the line is
      the space-free fields of the metadata, among at least four, joined by
      single spaces. */
  function ParseVersion(version: string): (r: Option<Config.PDKInfo>)
    ensures var line := version[..IndexOf(version, '\n')];
      (r.Some? <==> multiset(line)[' '] >= 3) &&
      (r.Some? ==> exists fields ::
        |fields| >= 4 && (forall k :: 0 <= k < |fields| ==> ' ' !in fields[k]) &&
        line == JoinWith(fields, ' ') && r.value == Config.PDKInfo(fields[1], fields[2], fields[3]))
  {
    var info := Split(version, '\n')[0];
    var appInfo := Split(info, ' ');
    SplitFirst(version, '\n');
    SplitCount(info, ' ');
    if |appInfo| < 4 then None
    else
      SplitPiecesFree(info, ' ');
      JoinSplit(info, ' ');
      Some(Config.PDKInfo(appInfo[1], appInfo[2], appInfo[3]))
  }

  /** A piece of the version line: no space, no line break. */
  predicate IsField(s: string) {
    ' ' !in s && '\n' !in s
  }

  /** A version string whose first line is made of fields joined by single
      spaces gives back fields 1, 2 and 3, whatever follows on the next
      lines, exactly when there are at least four fields. */
  lemma ParseVersionRoundTrip(fields: seq<string>, rest: string)
    requires |fields| >= 1
    requires forall k :: 0 <= k < |fields| ==> IsField(fields[k])
    ensures var parsed := ParseVersion(JoinWith(fields, ' ') + "\n" + rest);
      (parsed.Some? <==> |fields| >= 4) &&
      (parsed.Some? ==> parsed.value == Config.PDKInfo(fields[1], fields[2], fields[3]))
  {
    var line := JoinWith(fields, ' ');
    JoinWithFree(fields, ' ', '\n');
    FirstLine(line, rest);
    SplitJoin(fields, ' ');
  }

  /** The first line of a version string is the text before its first line
      break. */
  lemma FirstLine(line: string, rest: string)
    requires '\n' !in line
    ensures Split(line + "\n" + rest, '\n')[0] == line
  {
    SplitCons(line, '\n', rest);
  }

  // ---------------------------------------------------------------------
  // The command's state

  /** How RunE ends: the version string had too few fields (the Go code
      panics), the templates were listed, or a template was deployed. */
  datatype RunOutcome = VersionPanic | ListedTemplates(tmpls: seq<TemplateInfo>) | Deployed(paths: seq<string>)

  /** The command's package-level variables, set from the flags and then by
      the callbacks. */
  class CommandState {
    var localTemplateCache: string
    var jsonOutput: bool
    var selectedTemplate: string
    var listTemplates: bool
    var targetName: string
    var targetOutput: string

    /** The variables as flag parsing leaves them; no template is selected
      yet. */
    constructor (localTemplateCache: string, jsonOutput: bool, listTemplates: bool,
                 targetName: string, targetOutput: string)
      ensures this.localTemplateCache == localTemplateCache && this.jsonOutput == jsonOutput
      ensures this.listTemplates == listTemplates && this.targetName == targetName
      ensures this.targetOutput == targetOutput && selectedTemplate == ""
    {
      this.localTemplateCache := localTemplateCache;
      this.jsonOutput := jsonOutput;
      this.listTemplates := listTemplates;
      this.targetName := targetName;
      this.targetOutput := targetOutput;
      selectedTemplate := "";
    }

    /** The Args callback: no positional argument turns list mode on; a
      second argument of exactly two names the target unless -n did; the
      first selects the template. It never rejects anything. */
    method Args(args: seq<string>) returns (err: Option<string>)
      modifies this
      ensures listTemplates == (old(listTemplates) || |args| == 0)
      ensures targetName == (if old(targetName) == "" && |args| == 2 then args[1] else old(targetName))
      ensures selectedTemplate == (if |args| >= 1 then args[0] else old(selectedTemplate))
      ensures err == None
      ensures localTemplateCache == old(localTemplateCache) && jsonOutput == old(jsonOutput)
      ensures targetOutput == old(targetOutput)
    {
      if |args| == 0 && !listTemplates {
        listTemplates := true;
      }
      if targetName == "" && |args| == 2 {
        targetName := args[1];
      }
      if |args| >= 1 {
        selectedTemplate := args[0];
      }
      err := None;
    }

    /** ValidArgsFunction: nothing once a positional argument is present;
      otherwise the template path setting becomes the cache and its
      completions are offered, with neither a trailing space nor file
      names. */
    method ValidArgsFunction(args: seq<string>, toComplete: string, templatePath: string,
                             glob: string -> seq<string>, read: string -> Option<TemplateInfo>)
      returns (names: seq<string>, directive: Directive)
      modifies this
      ensures directive & ShellCompDirectiveNoFileComp == ShellCompDirectiveNoFileComp
      ensures directive & ShellCompDirectiveNoSpace == ShellCompDirectiveNoSpace <==> |args| == 0
      ensures |args| != 0 ==>
        names == [] && directive == ShellCompDirectiveNoFileComp && localTemplateCache == old(localTemplateCache)
      ensures |args| == 0 ==>
        localTemplateCache == templatePath &&
        names == Completions(Listed(glob, read, templatePath, ""), toComplete) &&
        directive == ShellCompDirectiveNoSpace | ShellCompDirectiveNoFileComp
      ensures jsonOutput == old(jsonOutput) && selectedTemplate == old(selectedTemplate)
      ensures listTemplates == old(listTemplates) && targetName == old(targetName)
      ensures targetOutput == old(targetOutput)
    {
      if |args| != 0 {
        return [], ShellCompDirectiveNoFileComp;
      }
      localTemplateCache := templatePath;
      names := CompleteName(glob, read, localTemplateCache, toComplete);
      directive := ShellCompDirectiveNoSpace | ShellCompDirectiveNoFileComp;
    }

    /** RunE: read the build metadata off the version string, then either
      list the templates (filtered by the selected template, if any) or
      deploy the selected template with that metadata. Nothing is touched
      before the version string has been parsed. */
    method RunE(version: string, d: Deployment.Disk, machine: Config.Machine, sources: Config.Sources,
                engine: Render.Engine, glob: string -> seq<string>, read: string -> Option<TemplateInfo>,
                walk: string -> seq<Deployment.WalkStep>)
      returns (outcome: RunOutcome)
      modifies d
      ensures ParseVersion(version).None? ==> outcome == VersionPanic && d.log == old(d.log)
      ensures ParseVersion(version).Some? && listTemplates ==>
        outcome == ListedTemplates(Listed(glob, read, localTemplateCache, selectedTemplate)) && d.log == old(d.log)
      ensures ParseVersion(version).Some? && !listTemplates ==>
        var env := Deployment.Env(machine, sources, ParseVersion(version).value, engine);
        var p := Deployment.Planned(machine.cwd, walk, read, selectedTemplate, localTemplateCache, targetOutput, targetName);
        outcome == Deployed(Deployment.DeployedPaths(d, env, p.target.name, p.tmpl, p.files)) &&
        d.log == old(d.log) + Deployment.DeployEffects(d, env, p.target.name, p.tmpl, p.files)
    {
      var info := ParseVersion(version);
      if info.None? {
        return VersionPanic;
      }
      if listTemplates {
        var tmpls, _ := List(glob, read, localTemplateCache, selectedTemplate);
        return ListedTemplates(tmpls);
      }
      var env := Deployment.Env(machine, sources, info.value, engine);
      var deployed := Deployment.Deploy(d, env, walk, read, selectedTemplate, localTemplateCache, targetOutput, targetName);
      outcome := Deployed(deployed);
    }

    /** The --list flag's completion: the same guard, over the cache as it
      stands. */
    method ListFlagCompletion(args: seq<string>, toComplete: string,
                              glob: string -> seq<string>, read: string -> Option<TemplateInfo>)
      returns (names: seq<string>, directive: Directive)
      ensures directive & ShellCompDirectiveNoFileComp == ShellCompDirectiveNoFileComp
      ensures directive & ShellCompDirectiveNoSpace == ShellCompDirectiveNoSpace <==> |args| == 0
      ensures |args| != 0 ==> names == [] && directive == ShellCompDirectiveNoFileComp
      ensures |args| == 0 ==>
        names == Completions(Listed(glob, read, localTemplateCache, ""), toComplete) &&
        directive == ShellCompDirectiveNoSpace | ShellCompDirectiveNoFileComp
    {
      if |args| != 0 {
        return [], ShellCompDirectiveNoFileComp;
      }
      names := CompleteName(glob, read, localTemplateCache, toComplete);
      directive := ShellCompDirectiveNoSpace | ShellCompDirectiveNoFileComp;
    }
  }
}
