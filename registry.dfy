/** The template registry of pct.go: the descriptors found under a template
    root (List) and the order-preserving filter over them (filterFiles). */
module Registry {
  import opened Wrappers
  import opened Seqs

  /** The base name of every template's descriptor file. */
  const TemplateConfigFileName: string := "pct-config.yml"

  /** The `template` section of a descriptor file. */
  datatype TemplateInfo = TemplateInfo(name: string, kind: string, display: string, version: string, url: string)

  /** The zero descriptor: what an unreadable descriptor file decodes to. */
  const NoTemplate: TemplateInfo := TemplateInfo("", "", "", "", "")

  /** readTemplate: the descriptor the configuration library decodes from
      `file`; a file it cannot read or decode is only logged, and the zero
      descriptor comes back. */
  function ReadTemplate(read: string -> Option<TemplateInfo>, file: string): (t: TemplateInfo)
    ensures read(file).Some? ==> t == read(file).value
    ensures read(file).None? ==> t == NoTemplate
  {
    read(file).GetOr(NoTemplate)
  }

  /** The descriptors read from `files`, in the same order. */
  function ReadAll(read: string -> Option<TemplateInfo>, files: seq<string>): (r: seq<TemplateInfo>)
    ensures |r| == |files|
    ensures forall i :: 0 <= i < |files| ==> r[i] == ReadTemplate(read, files[i])
  {
    if files == [] then [] else ReadAll(read, files[..|files| - 1]) + [ReadTemplate(read, files[|files| - 1])]
  }

  /** The test List filters with: an exact name match. */
  function HasName(name: string): TemplateInfo -> bool {
    (t: TemplateInfo) => t.name == name
  }

  /** The glob pattern whose matches List reads. */
  function DescriptorPattern(templatePath: string): string {
    templatePath + "/**/" + TemplateConfigFileName
  }

  /** What List returns: every descriptor found, or only those named
      `templateName` when a name is given. */
  function Listed(glob: string -> seq<string>, read: string -> Option<TemplateInfo>,
                  templatePath: string, templateName: string): seq<TemplateInfo>
  {
    var all := ReadAll(read, glob(DescriptorPattern(templatePath)));
    if templateName == "" then all else Filter(all, HasName(templateName))
  }

  /** filterFiles: the elements of `ss` that pass `test`, in order. */
  method FilterFiles(ss: seq<TemplateInfo>, test: TemplateInfo -> bool) returns (ret: seq<TemplateInfo>)
    ensures ret == Filter(ss, test)
  {
    ret := [];
    for i := 0 to |ss|
      invariant ret == Filter(ss[..i], test)
    {
      assert ss[..i + 1][..i] == ss[..i];
      if test(ss[i]) {
        ret := ret + [ss[i]];
      }
    }
    assert ss[..|ss|] == ss;
  }

  /** List: glob for descriptor files under `templatePath`, read each one,
      then keep the exact-name matches when a name is given. The error is
      always nil. `glob` stands for filepath.Glob, whose own error is
      discarded. */
  method List(glob: string -> seq<string>, read: string -> Option<TemplateInfo>,
              templatePath: string, templateName: string)
    returns (tmpls: seq<TemplateInfo>, err: Option<string>)
    ensures tmpls == Listed(glob, read, templatePath, templateName)
    ensures err == None
  {
    var matches := glob(templatePath + "/**/" + TemplateConfigFileName);
    tmpls := [];
    for i := 0 to |matches|
      invariant tmpls == ReadAll(read, matches[..i])
    {
      assert matches[..i + 1][..i] == matches[..i];
      var t := ReadTemplate(read, matches[i]);
      tmpls := tmpls + [t];
    }
    assert matches[..|matches|] == matches;
    if templateName != "" {
      tmpls := FilterFiles(tmpls, HasName(templateName));
    }
    err := None;
  }

  // ---------------------------------------------------------------------
  // Properties of List

  /** With a name, List returns exactly the descriptors that carry that
      name, each of them, and in the order their files were found. */
  lemma ListExactMatches(glob: string -> seq<string>, read: string -> Option<TemplateInfo>,
                         templatePath: string, templateName: string, t: TemplateInfo)
    requires templateName != ""
    ensures var all := ReadAll(read, glob(DescriptorPattern(templatePath)));
      var r := Listed(glob, read, templatePath, templateName);
      (t in r <==> t in all && t.name == templateName) &&
      (forall k :: 0 <= k < |r| ==> r[k].name == templateName)
  {
    var all := ReadAll(read, glob(DescriptorPattern(templatePath)));
    FilterMembership(all, HasName(templateName), t);
    FilterAllPass(all, HasName(templateName));
  }

  /** With a name that no descriptor carries, List returns nothing. */
  lemma ListNoMatch(glob: string -> seq<string>, read: string -> Option<TemplateInfo>,
                    templatePath: string, templateName: string)
    requires templateName != ""
    requires forall f :: f in glob(DescriptorPattern(templatePath)) ==> ReadTemplate(read, f).name != templateName
    ensures Listed(glob, read, templatePath, templateName) == []
  {
    var files := glob(DescriptorPattern(templatePath));
    var all := ReadAll(read, files);
    forall k | 0 <= k < |all| ensures !HasName(templateName)(all[k]) {
      assert files[k] in files;
    }
    FilterNone(all, HasName(templateName));
  }

  /** Without a name, every descriptor file found yields one entry, in
      order; one that cannot be read still yields the zero descriptor. */
  lemma ListUnnamed(glob: string -> seq<string>, read: string -> Option<TemplateInfo>, templatePath: string)
    ensures var files := glob(DescriptorPattern(templatePath));
      var r := Listed(glob, read, templatePath, "");
      |r| == |files| &&
      (forall k :: 0 <= k < |files| && read(files[k]).Some? ==> r[k] == read(files[k]).value) &&
      (forall k :: 0 <= k < |files| && read(files[k]).None? ==> r[k] == NoTemplate)
  {
  }

  /** An unreadable descriptor has the empty name, so a named List never
      returns it. */
  lemma UnreadableNeverNamed(glob: string -> seq<string>, read: string -> Option<TemplateInfo>,
                             templatePath: string, templateName: string)
    requires templateName != ""
    ensures forall k :: 0 <= k < |Listed(glob, read, templatePath, templateName)| ==>
      Listed(glob, read, templatePath, templateName)[k] != NoTemplate
  {
    FilterAllPass(ReadAll(read, glob(DescriptorPattern(templatePath))), HasName(templateName));
  }
}
