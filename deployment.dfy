/** Deploy in pct.go: read the selected template's descriptor, settle the
    target, walk the template's content directory mapping every entry to a
    target path, then create each directory and render each file, skipping
    the ones that fail. */
module Deployment {
  import opened Wrappers
  import opened Seqs
  import opened Strings
  import opened Paths
  import opened Replacer
  import opened Registry
  import opened Target
  import Config
  import Render

  /** PuppetContentTemplateFileInfo: one entry of the content directory and
      where it goes. */
  datatype FileEntry = FileEntry(
    templatePath: string,
    targetFilePath: string,
    targetDir: string,
    targetFile: string,
    isDirectory: bool)

  // ---------------------------------------------------------------------
  // Mapping a content path to its target

  /** The replacer's pairs, in argument order: the content directory becomes
      the output directory, the placeholder becomes the target name, and the
      template extension disappears. */
  function Patterns(contentDir: string, targetOutput: string, targetName: string): (pairs: seq<Pair>)
    requires contentDir != ""
    ensures ValidPairs(pairs)
  {
    [Pair(contentDir, targetOutput), Pair("__REPLACE__", targetName), Pair(".tmpl", "")]
  }

  /** The entry the walk callback records for `path`. */
  function MapEntry(contentDir: string, targetOutput: string, targetName: string, path: string, isDir: bool): (e: FileEntry)
    requires contentDir != ""
    ensures e.templatePath == path && e.isDirectory == isDir
    ensures e.targetFilePath == Replace(path, Patterns(contentDir, targetOutput, targetName))
    ensures e.targetDir + e.targetFile == e.targetFilePath
    ensures Sep !in e.targetFile
    ensures e.targetDir == "" || e.targetDir[|e.targetDir| - 1] == Sep
  {
    var target := Replace(path, Patterns(contentDir, targetOutput, targetName));
    var parts := SplitPath(target);
    FileEntry(path, target, parts.dir, parts.file, isDir)
  }

  /** A path under the content directory is mapped under the output
      directory: the leading content directory is replaced first, then the
      rest of the path is scanned on its own. */
  lemma MapUnderContent(contentDir: string, targetOutput: string, targetName: string, rest: string, isDir: bool)
    requires contentDir != ""
    ensures var pairs := Patterns(contentDir, targetOutput, targetName);
      MapEntry(contentDir, targetOutput, targetName, contentDir + rest, isDir).targetFilePath ==
        targetOutput + Replace(rest, pairs)
  {
    var pairs := Patterns(contentDir, targetOutput, targetName);
    var path := contentDir + rest;
    assert path[..|contentDir|] == contentDir;
    ReplaceLeading(path, pairs, 0);
    assert path[|contentDir|..] == rest;
  }

  /** A character where no pattern starts is copied as it is. */
  lemma ReplaceCopies(s: string, pairs: seq<Pair>)
    requires ValidPairs(pairs) && s != []
    requires forall k :: 0 <= k < |pairs| ==> !HasPrefix(s, pairs[k].pattern)
    ensures Replace(s, pairs) == [s[0]] + Replace(s[1..], pairs)
  {
  }

  /** A string whose character at `i` differs from the pattern's does not
      start with the pattern. */
  lemma DiffersAt(s: string, pattern: string, i: nat)
    requires i < |s| && i < |pattern| && s[i] != pattern[i]
    ensures !HasPrefix(s, pattern)
  {
  }

  /** The content directory does not start at any position the scan of
      `/__REPLACE__.tmpl` reaches: the separator, the placeholder and the
      extension. */
  predicate ClearOfPlaceholder(contentDir: string) {
    contentDir != "" &&
    !HasPrefix("/__REPLACE__.tmpl", contentDir) &&
    !HasPrefix("__REPLACE__.tmpl", contentDir) &&
    !HasPrefix(".tmpl", contentDir)
  }

  /** A content directory whose last element is `content` is clear of the
      placeholder file name, which holds no 'n'. */
  lemma ContentSuffixClear(contentDir: string)
    requires HasSuffix(contentDir, "content")
    ensures ClearOfPlaceholder(contentDir)
  {
    var n := |contentDir|;
    assert contentDir[n - 2] == "content"[5] == 'n';
    LetterBlocksPrefix("/__REPLACE__.tmpl", contentDir, 'n');
    LetterBlocksPrefix("__REPLACE__.tmpl", contentDir, 'n');
    LetterBlocksPrefix(".tmpl", contentDir, 'n');
  }

  /** A string cannot start with a string holding a character it lacks. */
  lemma LetterBlocksPrefix(s: string, prefix: string, c: char)
    requires c in prefix && c !in s
    ensures !HasPrefix(s, prefix)
  {
  }

  /** The content directory Deploy walks ends with the `content` element. */
  lemma PlannedContentDirClear(localTemplateCache: string, selectedTemplate: string)
    ensures ClearOfPlaceholder(JoinAll([localTemplateCache, selectedTemplate, "content"]))
  {
    var elems := [localTemplateCache, selectedTemplate, "content"];
    var c := "content";
    if localTemplateCache != "" {
      assert elems == [localTemplateCache, selectedTemplate] + [c];
      JoinAllEndsWith([localTemplateCache, selectedTemplate], c);
    } else if selectedTemplate != "" {
      assert elems[1..] == [selectedTemplate] + [c];
      JoinAllEndsWith([selectedTemplate], c);
      assert JoinAll(elems) == JoinAll(elems[1..]);
    } else {
      assert elems[1..][1..] == [c];
      CleanPlain(c);
      assert JoinAll(elems) == JoinAll(elems[1..]) == JoinAll([c]) == Clean(JoinWith([c], Sep));
      assert JoinWith([c], Sep) == c;
      assert c[|c| - |c|..] == c;
    }
    ContentSuffixClear(JoinAll(elems));
  }

  /** filepath.Join of elements, the first non-empty, ending in an ordinary
      one ends with that one. */
  lemma JoinAllEndsWith(front: seq<string>, n: string)
    requires front != [] && front[0] != "" && IsPlainSegment(n)
    ensures HasSuffix(JoinAll(front + [n]), n)
  {
    assert (front + [n])[0] == front[0];
    JoinWithSnoc(front, n, Sep);
    CleanEndsWithSegment(JoinWith(front, Sep), n);
  }

  /** Cleaning one ordinary element changes nothing. */
  lemma CleanPlain(n: string)
    requires IsPlainSegment(n)
    ensures Clean(n) == n
  {
    SplitNone(n, Sep);
    assert Resolve(false, [], [n]) == [n];
    assert JoinWith([n], Sep) == n;
  }

  /** The usual case: `content/__REPLACE__.tmpl` becomes the target name
      directly under the output directory, for every content directory
      clear of the placeholder file name. */
  lemma PlaceholderFile(contentDir: string, targetOutput: string, targetName: string)
    requires ClearOfPlaceholder(contentDir)
    ensures var e := MapEntry(contentDir, targetOutput, targetName, contentDir + "/__REPLACE__" + ".tmpl", false);
      e.targetFilePath == targetOutput + "/" + targetName &&
      (Sep !in targetName ==> e.targetDir == targetOutput + "/" && e.targetFile == targetName)
  {
    var rest := "/__REPLACE__" + ".tmpl";
    assert contentDir + "/__REPLACE__" + ".tmpl" == contentDir + rest;
    MapUnderContent(contentDir, targetOutput, targetName, rest, false);
    ReplacePlaceholderFile(contentDir, targetOutput, targetName);
    ConcatAssoc(targetOutput, "/", targetName);
    if Sep !in targetName {
      SplitPathOf(targetOutput + "/", targetName);
    }
  }

  lemma ReplacePlaceholderFile(contentDir: string, targetOutput: string, targetName: string)
    requires ClearOfPlaceholder(contentDir)
    ensures Replace("/__REPLACE__" + ".tmpl", Patterns(contentDir, targetOutput, targetName)) == "/" + targetName
  {
    var afterSep := "__REPLACE__" + ".tmpl";
    assert afterSep == "__REPLACE__.tmpl";
    assert "/__REPLACE__" + ".tmpl" == "/" + afterSep == "/__REPLACE__.tmpl";
    ReplaceSepThen(contentDir, targetOutput, targetName, afterSep);
    ReplacePlaceholderThen(contentDir, targetOutput, targetName, ".tmpl");
    ReplaceExtension(contentDir, targetOutput, targetName);
    assert targetName + "" == targetName;
  }

  /** A separator followed by '_' is copied when the content directory does
      not start there: no other pattern does. */
  lemma ReplaceSepThen(contentDir: string, targetOutput: string, targetName: string, tail: string)
    requires contentDir != "" && !HasPrefix("/" + tail, contentDir)
    requires tail != [] && tail[0] == '_'
    ensures var pairs := Patterns(contentDir, targetOutput, targetName);
      Replace("/" + tail, pairs) == "/" + Replace(tail, pairs)
  {
    var pairs := Patterns(contentDir, targetOutput, targetName);
    var s := "/" + tail;
    SepThenNoMatch(contentDir, targetOutput, targetName, tail);
    ReplaceCopies(s, pairs);
    assert s[1..] == tail;
  }

  lemma SepThenNoMatch(contentDir: string, targetOutput: string, targetName: string, tail: string)
    requires contentDir != "" && !HasPrefix("/" + tail, contentDir)
    requires tail != [] && tail[0] == '_'
    ensures var pairs := Patterns(contentDir, targetOutput, targetName);
      forall k :: 0 <= k < |pairs| ==> !HasPrefix("/" + tail, pairs[k].pattern)
  {
    var s := "/" + tail;
    DiffersAt(s, "__REPLACE__", 0);
    DiffersAt(s, ".tmpl", 0);
  }

  /** Where the content directory does not start, the placeholder is
      replaced by the target name, and scanning goes on behind it. */
  lemma ReplacePlaceholderThen(contentDir: string, targetOutput: string, targetName: string, tail: string)
    requires contentDir != "" && !HasPrefix("__REPLACE__" + tail, contentDir)
    ensures var pairs := Patterns(contentDir, targetOutput, targetName);
      Replace("__REPLACE__" + tail, pairs) == targetName + Replace(tail, pairs)
  {
    var pairs := Patterns(contentDir, targetOutput, targetName);
    var s := "__REPLACE__" + tail;
    assert s[..11] == "__REPLACE__" && s[11..] == tail;
    ReplaceLeading(s, pairs, 1);
  }

  /** The template extension disappears, unless the content directory
      itself starts there (for a relative one too: any directory ending in
      `content` qualifies, by ContentSuffixClear). */
  lemma ReplaceExtension(contentDir: string, targetOutput: string, targetName: string)
    requires contentDir != "" && !HasPrefix(".tmpl", contentDir)
    ensures Replace(".tmpl", Patterns(contentDir, targetOutput, targetName)) == ""
  {
    var pairs := Patterns(contentDir, targetOutput, targetName);
    var ext := ".tmpl";
    DiffersAt(ext, "__REPLACE__", 0);
    assert ext[..5] == ".tmpl" && ext[5..] == "";
    ReplaceLeading(ext, pairs, 2);
  }

  /** Inserted text is never scanned again: whatever the target name holds
      (".tmpl", "__REPLACE__", the content directory) is kept as it is. */
  lemma NoRescan(contentDir: string, targetOutput: string, targetName: string)
    requires contentDir != ""
    requires !HasPrefix("/__REPLACE__", contentDir) && !HasPrefix("__REPLACE__", contentDir)
    ensures MapEntry(contentDir, targetOutput, targetName, contentDir + "/__REPLACE__", false).targetFilePath ==
      targetOutput + "/" + targetName
  {
    var rest := "/" + "__REPLACE__";
    assert contentDir + "/__REPLACE__" == contentDir + rest;
    MapUnderContent(contentDir, targetOutput, targetName, rest, false);
    ReplacePlaceholder(contentDir, targetOutput, targetName);
    ConcatAssoc(targetOutput, "/", targetName);
  }

  lemma ReplacePlaceholder(contentDir: string, targetOutput: string, targetName: string)
    requires contentDir != ""
    requires !HasPrefix("/__REPLACE__", contentDir) && !HasPrefix("__REPLACE__", contentDir)
    ensures Replace("/" + "__REPLACE__", Patterns(contentDir, targetOutput, targetName)) == "/" + targetName
  {
    ReplaceSepThen(contentDir, targetOutput, targetName, "__REPLACE__");
    ReplacePlaceholderThen(contentDir, targetOutput, targetName, "");
    assert "__REPLACE__" + "" == "__REPLACE__";
    assert Replace("", Patterns(contentDir, targetOutput, targetName)) == "";
    assert targetName + "" == targetName;
  }

  // ---------------------------------------------------------------------
  // Collecting the walk

  /** One call of the WalkDir callback: an entry, or the error WalkDir
      reports for a path it could not read. */
  datatype WalkStep = Visit(path: string, isDir: bool) | WalkError

  /** The mapping the walk callback applies to each entry it visits. */
  function Recorder(contentDir: string, targetOutput: string, targetName: string): (string, bool) -> FileEntry
    requires contentDir != ""
  {
    (path: string, isDir: bool) => MapEntry(contentDir, targetOutput, targetName, path, isDir)
  }

  /** The entries recorded by a callback applying `entry`: the walk stops at
      the first error, which the callback hands back. */
  function Collected(entry: (string, bool) -> FileEntry, steps: seq<WalkStep>): seq<FileEntry>
    decreases |steps|
  {
    if steps == [] then []
    else match steps[0]
      case WalkError => []
      case Visit(path, isDir) => [entry(path, isDir)] + Collected(entry, steps[1..])
  }

  /** filepath.WalkDir driving a callback that records `entry` of every
      visited path: the walk stops at the first error, which the callback
      hands back; `err` says whether there was one. */
  method WalkCollect(entry: (string, bool) -> FileEntry, steps: seq<WalkStep>)
    returns (files: seq<FileEntry>, err: bool)
    ensures files == Collected(entry, steps)
    ensures err <==> exists i :: 0 <= i < |steps| && steps[i].WalkError?
  {
    files := [];
    err := false;
    var i := 0;
    while i < |steps|
      invariant 0 <= i <= |steps|
      invariant forall j :: 0 <= j < i ==> steps[j].Visit?
      invariant files + Collected(entry, steps[i..]) == Collected(entry, steps)
    {
      if steps[i].WalkError? {
        err := true;
        CollectedStopsHere(entry, steps, i);
        assert files + [] == files;
        return;
      }
      var e := entry(steps[i].path, steps[i].isDir);
      CollectedStep(entry, steps, i);
      ConcatAssoc(files, [e], Collected(entry, steps[i + 1..]));
      files := files + [e];
      i := i + 1;
    }
    assert steps[i..] == [];
    assert files + [] == files;
  }

  /** The walk over the content directory, with the callback of Deploy. */
  method CollectEntries(contentDir: string, targetOutput: string, targetName: string, steps: seq<WalkStep>)
    returns (files: seq<FileEntry>, err: bool)
    requires contentDir != ""
    ensures files == Collected(Recorder(contentDir, targetOutput, targetName), steps)
    ensures err <==> exists i :: 0 <= i < |steps| && steps[i].WalkError?
  {
    files, err := WalkCollect(Recorder(contentDir, targetOutput, targetName), steps);
  }

  lemma CollectedStopsHere(entry: (string, bool) -> FileEntry, steps: seq<WalkStep>, i: nat)
    requires i < |steps| && steps[i].WalkError?
    ensures Collected(entry, steps[i..]) == []
  {
    assert steps[i..][0] == steps[i];
  }

  lemma CollectedStep(entry: (string, bool) -> FileEntry, steps: seq<WalkStep>, i: nat)
    requires i < |steps| && steps[i].Visit?
    ensures Collected(entry, steps[i..]) == [entry(steps[i].path, steps[i].isDir)] + Collected(entry, steps[i + 1..])
  {
    assert steps[i..][0] == steps[i];
    assert steps[i..][1..] == steps[i + 1..];
  }

  /** An error in the walk keeps exactly the entries recorded before it;
      every one of them is mapped in order. */
  lemma CollectedBeforeError(entry: (string, bool) -> FileEntry, before: seq<WalkStep>, after: seq<WalkStep>)
    requires forall j :: 0 <= j < |before| ==> before[j].Visit?
    ensures var c := Collected(entry, before + [WalkError] + after);
      c == Collected(entry, before) &&
      |c| == |before| &&
      forall j :: 0 <= j < |before| ==> c[j] == entry(before[j].path, before[j].isDir)
  {
    CollectedStopsAtError(entry, before, after);
    CollectedVisits(entry, before);
  }

  /** Nothing after the first error is collected. */
  lemma {:induction false} CollectedStopsAtError(entry: (string, bool) -> FileEntry, before: seq<WalkStep>, after: seq<WalkStep>)
    requires forall j :: 0 <= j < |before| ==> before[j].Visit?
    ensures Collected(entry, before + [WalkError] + after) == Collected(entry, before)
    decreases |before|
  {
    var s := before + [WalkError] + after;
    if before == [] {
      assert s[0] == WalkError;
    } else {
      assert s[0] == before[0];
      assert s[1..] == before[1..] + [WalkError] + after;
      CollectedStopsAtError(entry, before[1..], after);
    }
  }

  /** A walk without errors yields one recorded entry per visit, in order. */
  lemma {:induction false} CollectedVisits(entry: (string, bool) -> FileEntry, steps: seq<WalkStep>)
    requires forall j :: 0 <= j < |steps| ==> steps[j].Visit?
    ensures var c := Collected(entry, steps);
      |c| == |steps| &&
      forall j :: 0 <= j < |steps| ==> c[j] == entry(steps[j].path, steps[j].isDir)
    decreases |steps|
  {
    if steps != [] {
      var tail := steps[1..];
      CollectedVisits(entry, tail);
      forall j | 1 <= j < |steps|
        ensures Collected(entry, steps)[j] == entry(steps[j].path, steps[j].isDir)
      {
        assert tail[j - 1] == steps[j];
      }
    }
  }

  /** Under the callback's own mapping, the entries recorded before an error
      are the mapped paths of the visits before it. */
  lemma RecordedBeforeError(contentDir: string, targetOutput: string, targetName: string,
                            before: seq<WalkStep>, after: seq<WalkStep>)
    requires contentDir != ""
    requires forall j :: 0 <= j < |before| ==> before[j].Visit?
    ensures var c := Collected(Recorder(contentDir, targetOutput, targetName), before + [WalkError] + after);
      |c| == |before| &&
      forall j :: 0 <= j < |before| ==>
        c[j].templatePath == before[j].path && c[j].isDirectory == before[j].isDir &&
        c[j].targetFilePath == Replace(before[j].path, Patterns(contentDir, targetOutput, targetName))
  {
    CollectedBeforeError(Recorder(contentDir, targetOutput, targetName), before, after);
  }

  // ---------------------------------------------------------------------
  // The file system, seen from outside

  /** What the deployment did to the file system. */
  datatype Effect = MadeDir(path: string) | Created(path: string) | Wrote(path: string, text: string) | Synced(path: string)

  /** The file system as the deployment uses it. Whether each call succeeds
      is fixed by the oracles; `log` records the calls that succeeded. */
  class Disk {
    const mkdirOk: string -> bool
    const createOk: string -> bool
    const writeOk: (string, string) -> bool
    const syncOk: string -> bool
    var log: seq<Effect>

    constructor (mkdirOk: string -> bool, createOk: string -> bool, writeOk: (string, string) -> bool, syncOk: string -> bool)
      ensures this.mkdirOk == mkdirOk && this.createOk == createOk
      ensures this.writeOk == writeOk && this.syncOk == syncOk
      ensures log == []
    {
      this.mkdirOk := mkdirOk;
      this.createOk := createOk;
      this.writeOk := writeOk;
      this.syncOk := syncOk;
      log := [];
    }

    /** os.MkdirAll */
    method MkdirAll(path: string) returns (ok: bool)
      modifies this
      ensures ok == mkdirOk(path)
      ensures log == old(log) + (if ok then [MadeDir(path)] else [])
    {
      ok := mkdirOk(path);
      if ok {
        log := log + [MadeDir(path)];
      }
    }

    /** os.Create */
    method Create(path: string) returns (ok: bool)
      modifies this
      ensures ok == createOk(path)
      ensures log == old(log) + (if ok then [Created(path)] else [])
    {
      ok := createOk(path);
      if ok {
        log := log + [Created(path)];
      }
    }

    /** io.WriteString on the file just created at `path`. */
    method WriteString(path: string, text: string) returns (ok: bool)
      modifies this
      ensures ok == writeOk(path, text)
      ensures log == old(log) + (if ok then [Wrote(path, text)] else [])
    {
      ok := writeOk(path, text);
      if ok {
        log := log + [Wrote(path, text)];
      }
    }

    /** file.Sync */
    method Sync(path: string) returns (ok: bool)
      modifies this
      ensures ok == syncOk(path)
      ensures log == old(log) + (if ok then [Synced(path)] else [])
    {
      ok := syncOk(path);
      if ok {
        log := log + [Synced(path)];
      }
    }
  }

  // ---------------------------------------------------------------------
  // Creating one entry

  /** What the per-file configuration and rendering depend on: the machine,
      the two configuration files, the build metadata and the template
      engine. */
  datatype Env = Env(machine: Config.Machine, sources: Config.Sources, info: Config.PDKInfo, engine: Render.Engine)

  /** The text a file entry renders to. */
  function FileText(env: Env, targetName: string, tmpl: TemplateInfo, e: FileEntry): string {
    Render.RenderFile(env.engine, e.templatePath,
      Config.Resolved(targetName, tmpl.kind, env.machine, env.info, env.sources))
  }

  /** Whether creating an entry succeeded, and what it did. */
  datatype Outcome = Outcome(ok: bool, effects: seq<Effect>)

  /** createTemplateFile with `text` rendered: empty text is an error before
      anything is touched; then the target's directory is created, the file
      created and the text written, stopping at the first failure; the
      outcome of the final sync is ignored. */
  function FileOutcome(d: Disk, text: string, e: FileEntry): Outcome {
    var dir, path := e.targetDir, e.targetFilePath;
    if text == "" || !d.mkdirOk(dir) then Outcome(false, [])
    else if !d.createOk(path) then Outcome(false, [MadeDir(dir)])
    else if !d.writeOk(path, text) then Outcome(false, [MadeDir(dir), Created(path)])
    else Outcome(true, [MadeDir(dir), Created(path), Wrote(path, text)] + (if d.syncOk(path) then [Synced(path)] else []))
  }

  /** A directory entry is created with MkdirAll; a file entry is rendered
      and written. */
  function EntryOutcome(d: Disk, env: Env, targetName: string, tmpl: TemplateInfo, e: FileEntry): Outcome {
    if e.isDirectory then
      Outcome(d.mkdirOk(e.targetFilePath), if d.mkdirOk(e.targetFilePath) then [MadeDir(e.targetFilePath)] else [])
    else FileOutcome(d, FileText(env, targetName, tmpl, e), e)
  }

  /** A file is deployed exactly when its text is non-empty and the
      directory creation, the file creation and the write all succeed;
      the sync does not matter. Whenever it touches the file system it
      creates the target's directory first, and what it writes is the
      rendered text. */
  lemma FileOutcomeSpec(d: Disk, text: string, e: FileEntry)
    ensures var o := FileOutcome(d, text, e);
      (o.ok <==> text != "" && d.mkdirOk(e.targetDir) && d.createOk(e.targetFilePath) && d.writeOk(e.targetFilePath, text)) &&
      (o.effects != [] ==> o.effects[0] == MadeDir(e.targetDir)) &&
      (forall i :: 0 <= i < |o.effects| && o.effects[i].Wrote? ==> o.effects[i] == Wrote(e.targetFilePath, text)) &&
      (o.ok ==> Wrote(e.targetFilePath, text) in o.effects)
  {
  }

  /** A file whose rendering comes out empty fails before any directory is
      created or anything written. */
  lemma EmptyRenderTouchesNothing(d: Disk, env: Env, targetName: string, tmpl: TemplateInfo, e: FileEntry)
    requires !e.isDirectory && FileText(env, targetName, tmpl, e) == ""
    ensures EntryOutcome(d, env, targetName, tmpl, e) == Outcome(false, [])
  {
  }

  /** createTemplateDirectory */
  method CreateTemplateDirectory(d: Disk, targetDir: string) returns (ok: bool)
    modifies d
    ensures ok == d.mkdirOk(targetDir)
    ensures d.log == old(d.log) + (if ok then [MadeDir(targetDir)] else [])
  {
    ok := d.MkdirAll(targetDir);
  }

  /** The first half of createTemplateFile: build the configuration for
      the target, then render the entry's template with it. */
  method RenderEntry(env: Env, targetName: string, tmpl: TemplateInfo, e: FileEntry) returns (text: string)
    ensures text == FileText(env, targetName, tmpl, e)
  {
    var config := Config.ProcessConfiguration(targetName, tmpl.kind, env.machine, env.info, env.sources);
    text := Render.RenderFile(env.engine, e.templatePath, config);
  }

  /** createTemplateFile: build the configuration, render the file, then
      write it out. */
  method CreateTemplateFile(d: Disk, env: Env, targetName: string, e: FileEntry, tmpl: TemplateInfo)
    returns (ok: bool)
    modifies d
    ensures var o := FileOutcome(d, FileText(env, targetName, tmpl, e), e);
      ok == o.ok && d.log == old(d.log) + o.effects
  {
    var text := RenderEntry(env, targetName, tmpl, e);
    var dir, path := e.targetDir, e.targetFilePath;
    if text == "" {
      return false;
    }
    ghost var start := d.log;
    ok := d.MkdirAll(dir);
    if !ok {
      return;
    }
    ok := d.Create(path);
    ConcatAssoc(start, [MadeDir(dir)], [Created(path)]);
    if !ok {
      return;
    }
    ok := d.WriteString(path, text);
    ConcatAssoc(start, [MadeDir(dir), Created(path)], [Wrote(path, text)]);
    if !ok {
      return;
    }
    ghost var written := [MadeDir(dir), Created(path), Wrote(path, text)];
    var synced := d.Sync(path);
    ConcatAssoc(start, written, if synced then [Synced(path)] else []);
    ok := true;
  }

  // ---------------------------------------------------------------------
  // The deployment loop

  /** The paths of `files`, in order. */
  function TargetPaths(files: seq<FileEntry>): (r: seq<string>)
    ensures |r| == |files|
    ensures forall i :: 0 <= i < |files| ==> r[i] == files[i].targetFilePath
  {
    if files == [] then [] else TargetPaths(files[..|files| - 1]) + [files[|files| - 1].targetFilePath]
  }

  /** The test for an entry that gets deployed. */
  function Succeeds(d: Disk, env: Env, targetName: string, tmpl: TemplateInfo): FileEntry -> bool {
    (e: FileEntry) => EntryOutcome(d, env, targetName, tmpl, e).ok
  }

  /** What Deploy returns: the targets of the entries that were created,
      in the order of the walk. */
  function DeployedPaths(d: Disk, env: Env, targetName: string, tmpl: TemplateInfo, files: seq<FileEntry>): seq<string> {
    TargetPaths(Filter(files, Succeeds(d, env, targetName, tmpl)))
  }

  /** Everything the loop does to the file system, entry after entry. */
  function DeployEffects(d: Disk, env: Env, targetName: string, tmpl: TemplateInfo, files: seq<FileEntry>): seq<Effect> {
    if files == [] then []
    else
      var last := files[|files| - 1];
      DeployEffects(d, env, targetName, tmpl, files[..|files| - 1]) + EntryOutcome(d, env, targetName, tmpl, last).effects
  }

  /** One iteration of the loop: a directory is created, a file rendered
      and written. */
  method DeployEntry(d: Disk, env: Env, targetName: string, tmpl: TemplateInfo, e: FileEntry) returns (ok: bool)
    modifies d
    ensures ok == EntryOutcome(d, env, targetName, tmpl, e).ok
    ensures d.log == old(d.log) + EntryOutcome(d, env, targetName, tmpl, e).effects
  {
    if e.isDirectory {
      ok := CreateTemplateDirectory(d, e.targetFilePath);
    } else {
      ok := CreateTemplateFile(d, env, targetName, e, tmpl);
    }
  }

  /** The loop over the collected entries: each is attempted, a failure is
      logged and skipped, a success is appended to `deployed`. */
  method DeployEntries(d: Disk, env: Env, targetName: string, tmpl: TemplateInfo, files: seq<FileEntry>)
    returns (deployed: seq<string>)
    modifies d
    ensures deployed == DeployedPaths(d, env, targetName, tmpl, files)
    ensures d.log == old(d.log) + DeployEffects(d, env, targetName, tmpl, files)
  {
    deployed := [];
    ghost var succeeds := Succeeds(d, env, targetName, tmpl);
    for i := 0 to |files|
      invariant deployed == TargetPaths(Filter(files[..i], succeeds))
      invariant d.log == old(d.log) + DeployEffects(d, env, targetName, tmpl, files[..i])
    {
      var e := files[i];
      DeployStep(d, env, targetName, tmpl, files, i);
      ConcatAssoc(old(d.log), DeployEffects(d, env, targetName, tmpl, files[..i]),
        EntryOutcome(d, env, targetName, tmpl, e).effects);
      var ok := DeployEntry(d, env, targetName, tmpl, e);
      if ok {
        deployed := deployed + [e.targetFilePath];
      }
    }
    assert files[..|files|] == files;
  }

  /** One more entry of the loop. */
  lemma DeployStep(d: Disk, env: Env, targetName: string, tmpl: TemplateInfo, files: seq<FileEntry>, i: nat)
    requires i < |files|
    ensures var succeeds := Succeeds(d, env, targetName, tmpl);
      TargetPaths(Filter(files[..i + 1], succeeds)) ==
        TargetPaths(Filter(files[..i], succeeds)) + (if succeeds(files[i]) then [files[i].targetFilePath] else [])
    ensures DeployEffects(d, env, targetName, tmpl, files[..i + 1]) ==
      DeployEffects(d, env, targetName, tmpl, files[..i]) + EntryOutcome(d, env, targetName, tmpl, files[i]).effects
  {
    var succeeds := Succeeds(d, env, targetName, tmpl);
    assert files[..i + 1][..i] == files[..i];
    var kept := Filter(files[..i], succeeds);
    if succeeds(files[i]) {
      assert (kept + [files[i]])[..|kept|] == kept;
    }
  }

  lemma {:induction false} TargetPathsConcat(a: seq<FileEntry>, b: seq<FileEntry>)
    ensures TargetPaths(a + b) == TargetPaths(a) + TargetPaths(b)
    decreases |b|
  {
    if b == [] {
      assert a + b == a;
    } else {
      var b' := b[..|b| - 1];
      assert (a + b)[..|a + b| - 1] == a + b';
      TargetPathsConcat(a, b');
    }
  }

  lemma {:induction false} DeployEffectsConcat(d: Disk, env: Env, targetName: string, tmpl: TemplateInfo,
                                               a: seq<FileEntry>, b: seq<FileEntry>)
    ensures DeployEffects(d, env, targetName, tmpl, a + b) ==
      DeployEffects(d, env, targetName, tmpl, a) + DeployEffects(d, env, targetName, tmpl, b)
    decreases |b|
  {
    if b == [] {
      assert a + b == a;
    } else {
      var b' := b[..|b| - 1];
      assert (a + b)[..|a + b| - 1] == a + b';
      DeployEffectsConcat(d, env, targetName, tmpl, a, b');
    }
  }

  /** A path is deployed exactly when some collected entry with that path
      was created successfully. */
  lemma DeployedMembership(d: Disk, env: Env, targetName: string, tmpl: TemplateInfo, files: seq<FileEntry>, p: string)
    ensures p in DeployedPaths(d, env, targetName, tmpl, files) <==>
      exists e :: e in files && EntryOutcome(d, env, targetName, tmpl, e).ok && e.targetFilePath == p
  {
    var succeeds := Succeeds(d, env, targetName, tmpl);
    var kept := Filter(files, succeeds);
    if p in DeployedPaths(d, env, targetName, tmpl, files) {
      var i :| 0 <= i < |kept| && TargetPaths(kept)[i] == p;
      FilterMembership(files, succeeds, kept[i]);
    }
    if exists e :: e in files && EntryOutcome(d, env, targetName, tmpl, e).ok && e.targetFilePath == p {
      var e :| e in files && EntryOutcome(d, env, targetName, tmpl, e).ok && e.targetFilePath == p;
      FilterMembership(files, succeeds, e);
      var i :| 0 <= i < |kept| && kept[i] == e;
      assert TargetPaths(kept)[i] == p;
    }
  }

  /** A failed entry is skipped and every later entry is still attempted:
      the deployed paths and the effects are those of the entries before
      it followed by those of the entries after it. */
  lemma SkipAndContinue(d: Disk, env: Env, targetName: string, tmpl: TemplateInfo,
                        before: seq<FileEntry>, bad: FileEntry, after: seq<FileEntry>)
    requires !EntryOutcome(d, env, targetName, tmpl, bad).ok
    ensures DeployedPaths(d, env, targetName, tmpl, before + [bad] + after) ==
      DeployedPaths(d, env, targetName, tmpl, before) + DeployedPaths(d, env, targetName, tmpl, after)
    ensures DeployEffects(d, env, targetName, tmpl, before + [bad] + after) ==
      DeployEffects(d, env, targetName, tmpl, before) +
      EntryOutcome(d, env, targetName, tmpl, bad).effects +
      DeployEffects(d, env, targetName, tmpl, after)
  {
    var succeeds := Succeeds(d, env, targetName, tmpl);
    FilterConcat(before + [bad], after, succeeds);
    FilterConcat(before, [bad], succeeds);
    assert Filter([bad], succeeds) == [] by {
      assert [bad][..0] == [];
    }
    TargetPathsConcat(Filter(before, succeeds), Filter(after, succeeds));
    assert Filter(before, succeeds) + [] == Filter(before, succeeds);
    DeployEffectsConcat(d, env, targetName, tmpl, before + [bad], after);
    DeployEffectsConcat(d, env, targetName, tmpl, before, [bad]);
    assert DeployEffects(d, env, targetName, tmpl, [bad]) == EntryOutcome(d, env, targetName, tmpl, bad).effects by {
      assert [bad][..0] == [];
    }
  }

  // ---------------------------------------------------------------------
  // Deploy

  /** Everything Deploy settles before it touches the file system. */
  datatype Plan = Plan(tmpl: TemplateInfo, target: Target, contentDir: string, files: seq<FileEntry>)

  /** The descriptor, the target, the content directory and the collected
      entries for one invocation. */
  function Planned(cwd: string, walk: string -> seq<WalkStep>, read: string -> Option<TemplateInfo>,
                   selectedTemplate: string, localTemplateCache: string,
                   targetOutput: string, targetName: string): (p: Plan)
    ensures p.contentDir != ""
  {
    var tmpl := ReadTemplate(read, JoinAll([localTemplateCache, selectedTemplate, TemplateConfigFileName]));
    var target := ResolvedTarget(tmpl.kind, targetName, targetOutput, cwd);
    var contentDir := JoinAll([localTemplateCache, selectedTemplate, "content"]);
    assert contentDir != "" by { assert [localTemplateCache, selectedTemplate, "content"][2] != ""; }
    Plan(tmpl, target, contentDir, Collected(Recorder(contentDir, target.output, target.name), walk(contentDir)))
  }

  /** Deploy: a walk error is only logged, and the entries collected before
      it are still deployed; the result lists what was created. `walk`
      stands for filepath.WalkDir over the content directory and `read` for
      the descriptor decoding; the working directory is the machine's. */
  method Deploy(d: Disk, env: Env, walk: string -> seq<WalkStep>, read: string -> Option<TemplateInfo>,
                selectedTemplate: string, localTemplateCache: string, targetOutput: string, targetName: string)
    returns (deployed: seq<string>)
    modifies d
    ensures var p := Planned(env.machine.cwd, walk, read, selectedTemplate, localTemplateCache, targetOutput, targetName);
      deployed == DeployedPaths(d, env, p.target.name, p.tmpl, p.files) &&
      d.log == old(d.log) + DeployEffects(d, env, p.target.name, p.tmpl, p.files)
  {
    var file := JoinAll([localTemplateCache, selectedTemplate, TemplateConfigFileName]);
    var tmpl := ReadTemplate(read, file);
    var name, output := ResolveTarget(tmpl.kind, targetName, targetOutput, env.machine.cwd);
    var contentDir := JoinAll([localTemplateCache, selectedTemplate, "content"]);
    assert contentDir != "" by { assert [localTemplateCache, selectedTemplate, "content"][2] != ""; }
    var templateFiles, _ := CollectEntries(contentDir, output, name, walk(contentDir));
    deployed := DeployEntries(d, env, name, tmpl, templateFiles);
  }
}
