/** config.go: the layered configuration handed to every template, and the
    invoking user's name.

    The configuration is kept over dotted leaf keys ("puppet_module.author"),
    each holding a string. A layer that sets a scalar at a key that is a
    prefix of another key's path is outside this model. */
module Config {
  import opened Wrappers
  import opened Strings

  type Settings = map<string, string>

  /** The build metadata of the running binary. */
  datatype PDKInfo = PDKInfo(version: string, commit: string, buildDate: string)

  /** What the running machine reports: the account name (user.Current),
      the working directory (os.Getwd) and the host name (os.Hostname). */
  datatype Machine = Machine(username: string, cwd: string, hostname: string)

  /** The two configuration files, as the configuration library would read
      them: None when the file is missing or cannot be read. `decodes` says
      whether the final unmarshal into a map succeeds.

      The library searches every path added so far, in the order added: the
      user layer's "pdk" file is looked up in the template's directory
      before ~/.pdk, so a pdk.yml next to the template would be the one read. */
  datatype Sources = Sources(templateFile: Option<Settings>, userFile: Option<Settings>, decodes: bool)

  // ---------------------------------------------------------------------
  // The configuration library's state

  /** The part of a viper instance the core uses: defaults set one key at a
      time, and the values read from configuration files, which win over
      the defaults. */
  class Store {
    var defaults: Settings
    var config: Settings

    constructor ()
      ensures defaults == map[] && config == map[]
    {
      defaults := map[];
      config := map[];
    }

    /** All settings: a key from a file wins over its default. */
    function AllSettings(): (r: Settings)
      reads this
      ensures r.Keys == defaults.Keys + config.Keys
      ensures forall k :: k in config ==> r[k] == config[k]
      ensures forall k :: k in defaults && k !in config ==> r[k] == defaults[k]
    {
      defaults + config
    }

    /** SetDefault(key, value). */
    method SetDefault(key: string, value: string)
      modifies this
      ensures defaults == old(defaults)[key := value]
      ensures config == old(config)
    {
      defaults := defaults[key := value];
    }

    /** ReadInConfig: a file that was found and parsed replaces the values
      read so far; otherwise the error is returned and nothing changes. */
    method ReadInConfig(file: Option<Settings>) returns (ok: bool)
      modifies this
      ensures ok == file.Some?
      ensures config == (if ok then file.value else old(config))
      ensures defaults == old(defaults)
    {
      ok := file.Some?;
      if ok {
        config := file.value;
      }
    }

    /** MergeInConfig: a file that was found and parsed is merged over the
      values read so far; otherwise the error is returned and nothing changes. */
    method MergeInConfig(file: Option<Settings>) returns (ok: bool)
      modifies this
      ensures ok == file.Some?
      ensures config == (if ok then old(config) + file.value else old(config))
      ensures defaults == old(defaults)
    {
      ok := file.Some?;
      if ok {
        config := config + file.value;
      }
    }
  }

  // ---------------------------------------------------------------------
  // Layers

  /** Later layers overwrite the keys of earlier ones; keys are otherwise unioned. */
  function Overlay(layers: seq<Settings>): Settings {
    if layers == [] then map[] else Overlay(layers[..|layers| - 1]) + layers[|layers| - 1]
  }

  /** Index of the last layer that defines `key`, or -1. */
  function LastLayerWith(layers: seq<Settings>, key: string): (i: int)
    ensures -1 <= i < |layers|
    ensures i >= 0 ==> key in layers[i]
    ensures forall j :: i < j < |layers| ==> key !in layers[j]
  {
    if layers == [] then -1
    else if key in layers[|layers| - 1] then |layers| - 1
    else LastLayerWith(layers[..|layers| - 1], key)
  }

  /** A key is set exactly when some layer defines it, and its value comes
      from the last layer that does. */
  lemma {:induction false} OverlayWinner(layers: seq<Settings>, key: string)
    ensures key in Overlay(layers) <==> LastLayerWith(layers, key) >= 0
    ensures key in Overlay(layers) ==>
      Overlay(layers)[key] == layers[LastLayerWith(layers, key)][key]
    decreases |layers|
  {
    if layers != [] {
      OverlayWinner(layers[..|layers| - 1], key);
    }
  }

  /** getCurrentUser: an account name holding a backslash is cut to the
      piece after the first backslash (up to the next one, if any). */
  function CurrentUser(username: string): (r: string)
    ensures '\\' !in username ==> r == username
    ensures '\\' in username ==>
      var rest := username[IndexOf(username, '\\') + 1..];
      r == rest[..IndexOf(rest, '\\')]
  {
    if '\\' in username then
      var rest := username[IndexOf(username, '\\') + 1..];
      SplitFirst(username, '\\');
      SplitFirst(rest, '\\');
      Split(username, '\\')[1]
    else username
  }

  /** The piece CurrentUser keeps never holds a backslash, so a name such as
      `A\B\C` gives `B`, not the last piece. */
  lemma CurrentUserHasNoBackslash(username: string)
    ensures '\\' !in CurrentUser(username)
  {
    SplitPiecesFree(username, '\\');
  }

  /** Convention based variables: the target name under a key chosen by the
      template kind, and the user under two keys. */
  function ConventionLayer(projectName: string, kind: string, user: string): Settings {
    ByKind(projectName, kind)["user" := user]["puppet_module.author" := user]
  }

  /** The target name's key, chosen by the template kind. */
  function ByKind(projectName: string, kind: string): Settings {
    if kind == "project" then map["project_name" := projectName]
    else if kind == "item" then map["item_name" := projectName]
    else map[]
  }

  /** Machine based variables. */
  function MachineLayer(m: Machine): Settings {
    map["cwd" := m.cwd, "hostname" := m.hostname]
  }

  /** The binary's build metadata. */
  function BinaryLayer(info: PDKInfo): Settings {
    map["pdk.version" := info.version, "pdk.commit_hash" := info.commit, "pdk.build_date" := info.buildDate]
  }

  /** The layers, lowest precedence first: the three groups of defaults, the
      template's file and the user's file. A file that could not be read
      contributes nothing. */
  function Layers(projectName: string, kind: string, m: Machine, info: PDKInfo, src: Sources): seq<Settings> {
    [ConventionLayer(projectName, kind, CurrentUser(m.username)),
     MachineLayer(m),
     BinaryLayer(info),
     src.templateFile.GetOr(map[]),
     src.userFile.GetOr(map[])]
  }

  /** The defaults: the union of the first three layers. */
  function Defaults(projectName: string, kind: string, m: Machine, info: PDKInfo): Settings {
    ConventionLayer(projectName, kind, CurrentUser(m.username)) + MachineLayer(m) + BinaryLayer(info)
  }

  /** The configuration processConfiguration hands to the templates: the
      overlay of the layers, or nil when decoding fails. */
  function Resolved(projectName: string, kind: string, m: Machine, info: PDKInfo, src: Sources): Option<Settings> {
    if src.decodes then Some(Overlay(Layers(projectName, kind, m, info, src))) else None
  }

  /** processConfiguration: the defaults are set one by one, the template's
      pct-config file is read in and the user's pdk file merged over it; a
      missing file is only logged; the result is the decoded settings, or
      nil when decoding fails. */
  method ProcessConfiguration(projectName: string, kind: string, m: Machine, info: PDKInfo, src: Sources)
    returns (r: Option<Settings>)
    ensures r == Resolved(projectName, kind, m, info, src)
  {
    var v := new Store();

    // Convention based variables
    if kind == "project" {
      v.SetDefault("project_name", projectName);
    } else if kind == "item" {
      v.SetDefault("item_name", projectName);
    }
    assert v.defaults == ByKind(projectName, kind);
    var user := CurrentUser(m.username);
    v.SetDefault("user", user);
    v.SetDefault("puppet_module.author", user);
    ghost var convention := ConventionLayer(projectName, kind, user);

    // Machine based variables
    v.SetDefault("cwd", m.cwd);
    v.SetDefault("hostname", m.hostname);
    UnionOfTwo(convention, "cwd", m.cwd, "hostname", m.hostname);

    // Binary specific variables
    v.SetDefault("pdk.version", info.version);
    v.SetDefault("pdk.commit_hash", info.commit);
    v.SetDefault("pdk.build_date", info.buildDate);
    UnionOfThree(convention + MachineLayer(m),
      "pdk.version", info.version, "pdk.commit_hash", info.commit, "pdk.build_date", info.buildDate);
    assert v.defaults == Defaults(projectName, kind, m, info);

    // Template specific variables, then the user's overrides
    var _ := v.ReadInConfig(src.templateFile);
    var _ := v.MergeInConfig(src.userFile);
    assert v.config == src.templateFile.GetOr(map[]) + src.userFile.GetOr(map[]);

    var all := v.AllSettings();
    OverlayOfLayers(projectName, kind, m, info, src);
    if src.decodes {
      r := Some(all);
    } else {
      r := None;
    }
  }

  /** Overlaying the layers is the defaults overwritten by the template file,
      itself overwritten by the user file. */
  lemma OverlayOfLayers(projectName: string, kind: string, m: Machine, info: PDKInfo, src: Sources)
    ensures Overlay(Layers(projectName, kind, m, info, src)) ==
      Defaults(projectName, kind, m, info) + (src.templateFile.GetOr(map[]) + src.userFile.GetOr(map[]))
  {
    var ls := Layers(projectName, kind, m, info, src);
    OverlayOfFive(ls[0], ls[1], ls[2], ls[3], ls[4]);
    assert ls == [ls[0], ls[1], ls[2], ls[3], ls[4]];
  }

  lemma OverlayOfFive(a: Settings, b: Settings, c: Settings, d: Settings, e: Settings)
    ensures Overlay([a, b, c, d, e]) == ((a + b) + c) + (d + e)
  {
    var ls := [a, b, c, d, e];
    assert ls[..4] == [a, b, c, d];
    assert ls[..4][..3] == [a, b, c];
    assert ls[..4][..3][..2] == [a, b];
    assert ls[..4][..3][..2][..1] == [a];
    assert ls[..4][..3][..2][..1][..0] == [];
    assert Overlay([a]) == a;
    assert Overlay([a, b]) == a + b;
    assert Overlay([a, b, c]) == (a + b) + c;
    assert Overlay([a, b, c, d]) == ((a + b) + c) + d;
    UnionAssoc((a + b) + c, d, e);
  }

  lemma UnionAssoc(a: Settings, b: Settings, c: Settings)
    ensures (a + b) + c == a + (b + c)
  {
  }

  lemma UnionOfTwo(m: Settings, k1: string, v1: string, k2: string, v2: string)
    ensures m + map[k1 := v1, k2 := v2] == m[k1 := v1][k2 := v2]
  {
  }

  lemma UnionOfThree(m: Settings, k1: string, v1: string, k2: string, v2: string, k3: string, v3: string)
    ensures m + map[k1 := v1, k2 := v2, k3 := v3] == m[k1 := v1][k2 := v2][k3 := v3]
  {
  }

  // ---------------------------------------------------------------------
  // Properties of the resolved configuration

  /** The target name is a default under `project_name` exactly for a
      project template. */
  lemma ProjectNameDefault(projectName: string, kind: string, m: Machine, info: PDKInfo)
    ensures var d := Defaults(projectName, kind, m, info);
      ("project_name" in d <==> kind == "project") &&
      (kind == "project" ==> d["project_name"] == projectName)
  {
  }

  /** The target name is a default under `item_name` exactly for an item
      template. */
  lemma ItemNameDefault(projectName: string, kind: string, m: Machine, info: PDKInfo)
    ensures var d := Defaults(projectName, kind, m, info);
      ("item_name" in d <==> kind == "item") &&
      (kind == "item" ==> d["item_name"] == projectName)
  {
  }

  /** `user` and `puppet_module.author` both default to the current user. */
  lemma UserDefaults(projectName: string, kind: string, m: Machine, info: PDKInfo)
    ensures var d := Defaults(projectName, kind, m, info);
      "user" in d && "puppet_module.author" in d &&
      d["user"] == CurrentUser(m.username) && d["puppet_module.author"] == CurrentUser(m.username)
  {
    ConventionUser(projectName, kind, CurrentUser(m.username), MachineLayer(m) + BinaryLayer(info));
  }

  /** The convention layer's user keys survive a union with a layer that does
      not define them. */
  lemma ConventionUser(projectName: string, kind: string, user: string, rest: Settings)
    requires rest.Keys == {"cwd", "hostname", "pdk.version", "pdk.commit_hash", "pdk.build_date"}
    ensures var d := ConventionLayer(projectName, kind, user) + rest;
      "user" in d && "puppet_module.author" in d && d["user"] == user && d["puppet_module.author"] == user
  {
  }

  /** The machine and binary keys default to what the machine and the build
      report. */
  lemma MachineAndBinaryDefaults(projectName: string, kind: string, m: Machine, info: PDKInfo)
    ensures var d := Defaults(projectName, kind, m, info);
      "cwd" in d && d["cwd"] == m.cwd &&
      "hostname" in d && d["hostname"] == m.hostname &&
      "pdk.version" in d && d["pdk.version"] == info.version &&
      "pdk.commit_hash" in d && d["pdk.commit_hash"] == info.commit &&
      "pdk.build_date" in d && d["pdk.build_date"] == info.buildDate
  {
  }

  /** The user file wins over everything; the template file wins over the
      defaults; a key defined only in a lower layer survives. */
  lemma Precedence(projectName: string, kind: string, m: Machine, info: PDKInfo, src: Sources, key: string)
    requires src.decodes
    ensures var c := Resolved(projectName, kind, m, info, src).value;
      var defaults := Defaults(projectName, kind, m, info);
      var t := src.templateFile.GetOr(map[]);
      var u := src.userFile.GetOr(map[]);
      (key in c <==> key in defaults || key in t || key in u) &&
      (key in u ==> c[key] == u[key]) &&
      (key !in u && key in t ==> c[key] == t[key]) &&
      (key !in u && key !in t && key in defaults ==> c[key] == defaults[key])
  {
    OverlayOfLayers(projectName, kind, m, info, src);
  }

  /** A missing file is skipped and the other layers still apply. */
  lemma MissingFileSkipped(projectName: string, kind: string, m: Machine, info: PDKInfo, src: Sources)
    requires src.decodes
    ensures src.templateFile.None? ==>
      Resolved(projectName, kind, m, info, src) ==
        Some(Defaults(projectName, kind, m, info) + src.userFile.GetOr(map[]))
    ensures src.userFile.None? ==>
      Resolved(projectName, kind, m, info, src) ==
        Some(Defaults(projectName, kind, m, info) + src.templateFile.GetOr(map[]))
  {
    OverlayOfLayers(projectName, kind, m, info, src);
    var t, u := src.templateFile.GetOr(map[]), src.userFile.GetOr(map[]);
    assert src.templateFile.None? ==> t + u == u;
    assert src.userFile.None? ==> t + u == t;
  }

  /** A decoding failure discards everything: the result is nil. */
  lemma DecodeFailureIsNil(projectName: string, kind: string, m: Machine, info: PDKInfo, src: Sources)
    requires !src.decodes
    ensures Resolved(projectName, kind, m, info, src) == None
  {
  }
}
