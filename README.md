# pct template deployment, modelled in Dafny

This project models the template engine behind `pdk new`, the Puppet
Development Kit's scaffolding command. The engine lives in `internal/pkg/pct`,
and the model also covers the rule-based parts of the `new` command. Given a
template cache, the engine does five things:

- It lists the installed templates. Each has a `pct-config.yml` descriptor
  with a name, a kind, a display name, a version and a URL.
- It settles a target name and an output directory. The inputs are the `-n`
  and `-o` flags, the working directory and the template's kind (`project`
  or `item`).
- It walks the template's `content` directory. Every entry's path is
  rewritten by one `strings.NewReplacer` pass: the content directory becomes
  the output, `__REPLACE__` becomes the target name, and `.tmpl` becomes
  nothing.
- It creates every directory entry, and renders and writes every file entry.
  An entry that fails is skipped and the rest are still attempted.
- It renders each file against a layered configuration: convention defaults,
  machine values, build metadata, the template's `pct-config` file, then the
  user's `pdk.yml`.

Modules, in dependency order:

- `Wrappers`, `Strings`, `Seqs`: `Option`, Go's `strings` helpers
  (`HasPrefix`, `HasSuffix`, `Split`, `Join`), and an order-preserving
  `Filter`.
- `Paths`: Go's `filepath.Base`, `Split`, `Join` and the lexical `Clean`,
  for the `/` separator.
- `Replacer`: `strings.NewReplacer(...).Replace`. It makes one left-to-right
  pass. At each position the earliest pair in argument order wins, and
  inserted text is never rescanned.
- `Registry`: `List`, `filterFiles` and `readTemplate` (pct.go).
- `Target`: the target-resolution chain at the top of `Deploy` (pct.go).
- `Config`: `processConfiguration` and `getCurrentUser` (config.go). The
  viper instance is the class `Store`: defaults set key by key, plus the
  values read from the configuration files.
- `Render`: `toClassName`, and `renderFile`/`process` with their rule that
  any error gives the empty string (render.go).
- `Deployment`: the rest of `Deploy` and `createTemplateFile` (pct.go). The
  file system is a `Disk` class that decides each call's outcome with an
  oracle function and logs every call that succeeds.
- `NewCommand`: the `Args` callback, `RunE`'s parsing of the version line and
  its choice between List and Deploy, `completeName`, and the two completion
  callbacks (new.go).

The environment comes in as parameters: the account name, the working
directory, the host name, the contents of the two configuration files, the
glob and walk results, and the template engine's parse and execute results.

## Behaviour worth knowing

These are places where the code does something a caller might not expect.
The model follows the code in each case.

- **Unreadable descriptors.** `List` keeps an entry for a descriptor it cannot
  read. `readTemplate` returns the zero descriptor, and `List` appends it
  (pct.go:46-50, 246-251). A caller might expect such descriptors to be
  skipped. `Registry.ListUnnamed` states what the code does.
- **Walk errors.** A walk error is only logged (pct.go:154-156). The entries
  collected before it are still deployed. A caller might expect an
  untraversable content root to stop the deployment.
- **Sync failures.** The result of `file.Sync` is discarded (pct.go:232), so a
  failed flush does not fail the file. A caller might expect the file to be
  skipped and left out of the deployed list.
- **Where patterns match.** `.tmpl` and the content directory are replaced
  wherever they occur in the path (pct.go:133-138), not only as a trailing
  suffix and a leading prefix.
- **Which layering is used.** `Deploy` calls `createTemplateFile` at
  pct.go:167, and `createTemplateFile` calls the older `processTemplate` at
  pct.go:202 (defined at pct.go:254-311), which uses other keys than
  config.go's `processConfiguration`. The model follows
  `processConfiguration`: its keys `user` and `pdk.*`, and the build metadata
  as an argument. The five-argument `Deploy` call at new.go:120-126 already
  passes build metadata, so `Deployment.Env` carries it.

## Model

| member | source | states |
|---|---|---|
| Target.ResolveTarget | internal/pkg/pct/pct.go:66-119 | The reassignment chain and the kind switch compute exactly `ResolvedTarget`, the three flag defaults followed by the kind adjustment; both results are non-empty, so the branches at lines 85-88, 96-98 and 105-107 are dead |
| Target.ProjectOutputEndsWithName | internal/pkg/pct/pct.go:95-103 | For a project whose name is one ordinary path element, the name is kept and the final output string ends with the name |
| Target.ItemDropsLastElement | internal/pkg/pct/pct.go:104-114 | For an item whose output string ends with the name, the output becomes the cleaned directory part, so the whole last element is dropped; otherwise the output is unchanged |
| Target.ItemSuffixIsStringSuffix | internal/pkg/pct/pct.go:108-112 | The suffix test is on strings: `/d/superwidget` with name `widget` (any separator-free prefix) goes to `/d` |
| Target.ItemWithoutFlagsGoesToParent | internal/pkg/pct/pct.go:66-71 | With no flags, an item is named after the working directory and placed in its cleaned parent; this includes the root `/`, which os.Getwd can report |
| Target.ProjectWithoutFlagsUsesCwd | internal/pkg/pct/pct.go:66-71 | With no flags, a project is named after the working directory and generated into the working directory itself, the root `/` included |
| Target.OtherKindsUnadjusted | internal/pkg/pct/pct.go:94-119 | A kind other than project or item keeps the flag defaults unchanged |
| Target.Defaulted | internal/pkg/pct/pct.go:66-88 | The flag defaults always leave a non-empty name and a non-empty output |
| Paths.Clean | internal/pkg/pct/pct.go:112 | filepath.Clean never returns the empty path |
| Paths.CleanIdempotent | internal/pkg/pct/pct.go:112 | Cleaning a cleaned path changes nothing |
| Paths.CleanEndsWithSegment | internal/pkg/pct/pct.go:102 | Joining an ordinary element onto any path gives a path that ends with that element |
| Paths.SplitPath | internal/pkg/pct/pct.go:141 | filepath.Split's halves concatenate to the path; the file half has no separator; the directory half is empty or ends in one |
| Paths.Join | internal/pkg/pct/pct.go:76 | filepath.Join of two elements is the cleaned joined path, the cleaned second element when the first is empty, and "" when both are |
| Paths.JoinAll | internal/pkg/pct/pct.go:61 | filepath.Join is "" exactly when every element is empty |
| Paths.LastSep | internal/pkg/pct/pct.go:141 | The index found holds the last separator, and none follows it |
| Paths.Base | internal/pkg/pct/pct.go:81 | filepath.Base is never empty: "." for the empty path, "/" for a path of separators only, and otherwise the separator-free last element of the path with trailing separators removed |
| Replacer.FirstMatch | internal/pkg/pct/pct.go:133-137 | The pair chosen at a position is the first, in argument order, whose old string starts there; no earlier pair matches there |
| Replacer.ReplaceLeading | internal/pkg/pct/pct.go:133-138 | The first matching old string is replaced and scanning resumes after it; the replacement is emitted unscanned |
| Replacer.ReplaceConcat | internal/pkg/pct/pct.go:138 | When no occurrence straddles the boundary, replacing in a concatenation is replacing in each half |
| Replacer.Replace | internal/pkg/pct/pct.go:133-138 | A path in which no old string occurs at any position is returned unchanged |
| Replacer.NoMatchTail | internal/pkg/pct/pct.go:133-138 | When nothing matches anywhere in a path, nothing matches at its start, and nothing matches anywhere in its tail |
| Deployment.Patterns | internal/pkg/pct/pct.go:133-137 | The three pairs, in argument order, all have non-empty old strings |
| Deployment.MapEntry | internal/pkg/pct/pct.go:138-148 | The recorded entry keeps the walked path and its directory flag; its target is the replacer's result, and its directory and file parts are that target's filepath.Split |
| Deployment.MapUnderContent | internal/pkg/pct/pct.go:133-138 | A path under the content directory maps to the output directory followed by the replaced remainder |
| Deployment.PlaceholderFile | internal/pkg/pct/pct.go:133-147 | For any content directory that does not itself start inside `/__REPLACE__.tmpl`, `content/__REPLACE__.tmpl` maps to the target name directly under the output; its directory part is the output and its file part the name |
| Deployment.NoRescan | internal/pkg/pct/pct.go:133-138 | The inserted target name is never scanned again, whatever it contains, for any content directory that does not start inside `/__REPLACE__` |
| Deployment.ReplaceExtension | internal/pkg/pct/pct.go:136 | `.tmpl` is replaced by nothing for every content directory, absolute or relative, that does not itself start `.tmpl` |
| Deployment.ContentSuffixClear | internal/pkg/pct/pct.go:121 | A content directory whose last element is `content` never starts inside `/__REPLACE__.tmpl`, so the placeholder lemmas apply to it |
| Deployment.PlannedContentDirClear | internal/pkg/pct/pct.go:121 | The content directory Deploy builds from any template cache and template name meets that condition |
| Deployment.WalkCollect | internal/pkg/pct/pct.go:126-156 | The walk collects exactly `Collected`: the mapped entries up to the first error; the error flag is set exactly when some step failed |
| Deployment.CollectEntries | internal/pkg/pct/pct.go:125-156 | Deploy's walk, with its own callback, records `Collected` under that callback |
| Deployment.CollectedBeforeError | internal/pkg/pct/pct.go:126-156 | After an error, exactly the entries before it are kept, one per visit and in order |
| Deployment.RecordedBeforeError | internal/pkg/pct/pct.go:126-156 | Each entry kept before an error carries its visit's path, its directory flag, and the replacer's target for that path |
| Deployment.Disk.MkdirAll | internal/pkg/pct/pct.go:190 | Succeeds as the oracle says and logs a created directory only on success |
| Deployment.Disk.Create | internal/pkg/pct/pct.go:219 | Succeeds as the oracle says and logs a created file only on success |
| Deployment.Disk.WriteString | internal/pkg/pct/pct.go:226 | Succeeds as the oracle says and logs the written text only on success |
| Deployment.Disk.Sync | internal/pkg/pct/pct.go:232 | Succeeds as the oracle says and logs a sync only on success |
| Deployment.CreateTemplateDirectory | internal/pkg/pct/pct.go:188-198 | Succeeds exactly when MkdirAll does; the log grows by that directory only then |
| Deployment.RenderEntry | internal/pkg/pct/pct.go:202-207 | The text is the entry's template rendered against the resolved configuration for the target |
| Deployment.CreateTemplateFile | internal/pkg/pct/pct.go:200-235 | The result and the new log are `FileOutcome`: empty text fails before any effect; MkdirAll, Create and WriteString each stop at failure; the sync outcome is ignored |
| Deployment.FileOutcomeSpec | internal/pkg/pct/pct.go:208-234 | A file succeeds exactly when its text is non-empty and the directory creation, file creation and write succeed; its first effect is the directory; every write is of the rendered text |
| Deployment.EmptyRenderTouchesNothing | internal/pkg/pct/pct.go:202-210 | A file that renders to "" fails with no effect at all |
| Deployment.DeployEntry | internal/pkg/pct/pct.go:161-173 | One iteration: a directory entry is created, a file entry rendered and written; result and log are `EntryOutcome` |
| Deployment.DeployEntries | internal/pkg/pct/pct.go:158-176 | `deployed` is the in-order targets of the entries that succeeded, and the log grows by every entry's effects in order |
| Deployment.DeployStep | internal/pkg/pct/pct.go:159-174 | One more entry appends its target exactly when it succeeds, and appends its effects |
| Deployment.TargetPaths | internal/pkg/pct/pct.go:164-172 | The targets of a list of entries, position by position |
| Deployment.TargetPathsConcat | internal/pkg/pct/pct.go:158-176 | The targets of a concatenation are the targets of each part, in order |
| Deployment.DeployEffectsConcat | internal/pkg/pct/pct.go:158-176 | The effects of a concatenation are the effects of each part, in order |
| Deployment.DeployedMembership | internal/pkg/pct/pct.go:158-176 | A path is deployed exactly when some collected entry with that target succeeded |
| Deployment.SkipAndContinue | internal/pkg/pct/pct.go:166-171 | A failed entry is skipped and every later entry is still attempted: the before and after parts' paths and effects are kept, around the failed entry's partial effects |
| Deployment.Planned | internal/pkg/pct/pct.go:121 | The content directory is never empty |
| Deployment.Deploy | internal/pkg/pct/pct.go:60-177 | Deploy returns the deployed paths of the entries collected under the resolved target, and the log grows by their effects |
| Registry.ReadAll | internal/pkg/pct/pct.go:46-50 | One descriptor per file found, in order; an unreadable file gives the zero descriptor |
| Registry.FilterFiles | internal/pkg/pct/pct.go:179-186 | The loop returns `Filter`: the elements that pass the test, in order |
| Registry.List | internal/pkg/pct/pct.go:43-58 | The descriptors of every file found, filtered by exact name when one is given; the error is always nil |
| Registry.ListExactMatches | internal/pkg/pct/pct.go:52-55 | With a name, a descriptor is returned exactly when it was found and carries that name, and every result carries it |
| Registry.ListNoMatch | internal/pkg/pct/pct.go:52-55 | With a name that no found descriptor carries, the result is empty |
| Registry.ListUnnamed | internal/pkg/pct/pct.go:44-50 | Without a name, there is one result per file found, in order: the decoded descriptor, or the zero descriptor for an unreadable one |
| Registry.UnreadableNeverNamed | internal/pkg/pct/pct.go:237-252 | A named List never returns the zero descriptor |
| Registry.ReadTemplate | internal/pkg/pct/pct.go:237-252 | A readable descriptor is returned as decoded; an unreadable one gives the zero descriptor |
| Strings.IndexOf | internal/pkg/pct/config.go:108 | The index of the first occurrence of the character, or the length when it does not occur |
| Strings.PrefixIsConcat | pkg/cmd/new/new.go:164 | strings.HasPrefix (`Strings.HasPrefix`) holds exactly when the string is the prefix followed by some string |
| Strings.SuffixIsConcat | internal/pkg/pct/pct.go:99 | strings.HasSuffix (`Strings.HasSuffix`, also at pct.go:108) holds exactly when the string is some string followed by the suffix |
| Strings.Split | pkg/cmd/new/new.go:68-69 | strings.Split with a non-empty separator never returns an empty list, so index 0 always exists |
| Strings.JoinSplit | pkg/cmd/new/new.go:68-69 | Joining the pieces of a split with the separator gives back the string |
| Strings.SplitJoin | internal/pkg/pct/config.go:109 | Splitting a join of separator-free pieces gives back those pieces |
| Strings.SplitPiecesFree | internal/pkg/pct/config.go:109 | No piece of a split contains the separator |
| Strings.SplitCount | pkg/cmd/new/new.go:69 | A split has one piece more than the string has separators |
| Strings.SplitFirst | pkg/cmd/new/new.go:68 | The first piece is the text before the first separator, and the rest is the split of what follows it |
| Seqs.Filter | internal/pkg/pct/pct.go:179-186 | The filtered sequence is no longer than the input |
| Seqs.FilterAllPass | internal/pkg/pct/pct.go:181-182 | Every element kept passes the test |
| Seqs.FilterMembership | internal/pkg/pct/pct.go:179-186 | An element is kept exactly when it is in the input and passes the test |
| Seqs.FilterConcat | internal/pkg/pct/pct.go:179-186 | Filtering a concatenation filters each part, keeping their order |
| Config.Store.AllSettings | internal/pkg/pct/config.go:79-80 | Every default and every file key is present, and a file value wins over a default |
| Config.Store.SetDefault | internal/pkg/pct/config.go:36-53 | Sets one default and leaves the file values alone |
| Config.Store.ReadInConfig | internal/pkg/pct/config.go:60-64 | A readable file replaces the file values; a missing one is an error and changes nothing |
| Config.Store.MergeInConfig | internal/pkg/pct/config.go:73-77 | A readable file is merged over the file values; a missing one is an error and changes nothing |
| Config.Store.constructor | internal/pkg/pct/config.go:15 | A new instance holds no defaults and no file values |
| Config.ProcessConfiguration | internal/pkg/pct/config.go:14-87 | The settings built step by step equal `Resolved`: the overlay of the five layers, or nil when decoding fails |
| Config.OverlayOfLayers | internal/pkg/pct/config.go:18-31 | The overlay is the defaults, overwritten by the template file, itself overwritten by the user file |
| Config.LastLayerWith | internal/pkg/pct/config.go:18-31 | The layer found defines the key and no later layer does |
| Config.OverlayWinner | internal/pkg/pct/config.go:18-31 | A key is set exactly when some layer defines it, with the value of the last such layer |
| Config.Precedence | internal/pkg/pct/config.go:57-77 | The user file wins, then the template file, then the defaults; a key only in a lower layer survives |
| Config.MissingFileSkipped | internal/pkg/pct/config.go:60-64 | A missing template or user file contributes nothing, and the other layers still apply |
| Config.DecodeFailureIsNil | internal/pkg/pct/config.go:80-84 | A decode failure makes the whole result nil |
| Config.ProjectNameDefault | internal/pkg/pct/config.go:34-36 | `project_name` is a default exactly for kind project, holding the target name |
| Config.ItemNameDefault | internal/pkg/pct/config.go:37-39 | `item_name` is a default exactly for kind item, holding the target name |
| Config.UserDefaults | internal/pkg/pct/config.go:40-42 | `user` and `puppet_module.author` both default to the current user |
| Config.MachineAndBinaryDefaults | internal/pkg/pct/config.go:45-53 | `cwd`, `hostname`, `pdk.version`, `pdk.commit_hash` and `pdk.build_date` default to the machine's and the build's values |
| Config.CurrentUser | internal/pkg/pct/config.go:106-113 | A name without a backslash is kept; otherwise the result is the piece after the first backslash, up to the next one |
| Config.CurrentUserHasNoBackslash | internal/pkg/pct/config.go:108-110 | The result never holds a backslash, so `A\B\C` gives `B` |
| Render.ToLower | internal/pkg/pct/render.go:18 | Each character is lower-cased in place |
| Render.ToClassName | internal/pkg/pct/render.go:17-19 | Length is kept and only letter case changes; a letter is upper-case exactly when it is first or follows a character that is not a letter, digit or `_`, and lower-case otherwise |
| Render.ToClassNameIdempotent | internal/pkg/pct/render.go:17-19 | Applying toClassName twice is applying it once |
| Render.TitleFromAt | internal/pkg/pct/render.go:18 | strings.Title upper-cases a character exactly when the one before it is a separator |
| Render.TitleAt | internal/pkg/pct/render.go:18 | strings.Title (`Render.Title`) keeps the length, upper-cases each character that begins a word and keeps every other character |
| Render.Process | internal/pkg/pct/render.go:32-41 | The result is "" exactly when execution fails or produces empty text; a non-empty result is the text execution produced |
| Render.RenderFile | internal/pkg/pct/render.go:12-30 | The result is "" exactly when parsing fails, execution fails, or the output is empty; a non-empty result is the text the parsed template executed to |
| NewCommand.CommandState.constructor | pkg/cmd/new/new.go:141-156 | The flag values are stored and no template is selected yet |
| NewCommand.CommandState.Args | pkg/cmd/new/new.go:37-51 | No argument turns list mode on; exactly two name the target unless `-n` did; one or more select the template; nothing else changes and the error is nil |
| NewCommand.CommandState.ValidArgsFunction | pkg/cmd/new/new.go:52-58 | The directive always has the no-file-completion bit, and has the no-space bit exactly when no argument is present; with arguments, nothing is offered and the cache is unchanged; otherwise the template path becomes the cache and its completions are offered |
| NewCommand.CommandState.ListFlagCompletion | pkg/cmd/new/new.go:147-152 | The same guard and directive bits, completing from the cache as it stands |
| NewCommand.CommandState.RunE | pkg/cmd/new/new.go:64-139 | A version line with too few fields ends the run before anything is touched; in list mode the result is List's; otherwise Deploy runs with the parsed build metadata |
| NewCommand.ParseVersion | pkg/cmd/new/new.go:67-71 | Build metadata exists exactly when the version's first line (up to the first newline) holds at least three spaces; it is then fields 1, 2 and 3 of a space-free decomposition of that line into at least four fields |
| NewCommand.ParseVersionRoundTrip | pkg/cmd/new/new.go:67-71 | A version string built from fields and any later lines parses back to fields 1, 2 and 3 exactly when there are at least four fields |
| NewCommand.CompleteName | pkg/cmd/new/new.go:160-170 | The loop returns `Completions`: `Name\tDisplay` for each listed template whose name starts with the typed text, in List order |
| NewCommand.CompletionEntries | pkg/cmd/new/new.go:165-166 | One `Name\tDisplay` entry per template, position by position |
| NewCommand.CompletionsMembership | pkg/cmd/new/new.go:163-168 | An entry is offered exactly for a template whose name starts with the typed text |
| NewCommand.EmptyMatchOffersAll | pkg/cmd/new/new.go:160-170 | An empty match offers every template, in List order |
| NewCommand.CompletionsInOrder | pkg/cmd/new/new.go:163-168 | The completions of a concatenation are those of each part, in order |

## Left out

- **I/O.** `filepath.Glob`, `filepath.WalkDir`, `os.MkdirAll`, `os.Create`,
  `io.WriteString` and `file.Sync` are oracle inputs. The glob's result list
  and the walk's sequence of visits and errors are given; the model does not
  decide their order. This includes how Go's `**` glob matches.
- **Closing files.** `file.Close` (pct.go:224) has no effect in the model.
- **Viper internals.** Discovering config files, searching by extension,
  lower-casing keys and YAML decoding are not modelled. Each configuration
  file is a given map over dotted leaf keys, or None when it is missing or
  unreadable. Whether the final unmarshal succeeds is a given flag.
- **Where the user file is found.** The second `AddConfigPath`
  (config.go:59, 72) adds to the first one. So a `pdk.yml` in the template's
  directory would be found before `~/.pdk/pdk.yml`. The model records this
  in a comment only; the user file is an input.
- **Scalars under a prefix.** A layer that sets a scalar at a key that is a
  prefix of another dotted key is not modelled.
- **`text/template`.** Parsing and execution are given partial functions of
  the file and the configuration. `toClassName` is modelled on its own; the
  model does not show that it is registered with the engine.
- **A failing `user.Current`.** `getCurrentUser` discards the error of
  `user.Current()` (config.go:107-108, pct.go:345-346), so a failure would
  panic on a nil dereference. The model assumes the call succeeds and takes
  the account name as a parameter.
- **Environment access.** `os.Getwd`, `os.Hostname`, `user.Current` and
  `homedir.Dir` are parameters. A failed `os.Getwd` reads as the empty
  directory, which the defaults turn into `.`.
- Render.ToClassName: holds for ASCII input only (a requires). Full Unicode
  case mapping and `strings.Title`'s Unicode word rules are not modelled.
- **Paths.** Only `/` separators are modelled; Windows volume names and `\`
  are not.
- **`processTemplate`.** The older layering at pct.go:254-311, with its
  `prototype.*` keys, is not modelled; per-file configuration follows
  config.go. The duplicated helpers at pct.go:237-351 are modelled once,
  from config.go and render.go (`readTemplate` is pct.go's).
- **`readTemplateConfig`** (config.go:89-104) is the same as `readTemplate`
  and is not called by the core.
- **Stored build metadata.** `viper.SetDefault("pdkinfo", ...)` at
  new.go:79 writes to the global viper instance, which nothing in the core
  reads.
- **Output and plumbing.** Listing and Deploy output (tables, JSON,
  new.go:90-136), flag and viper registration (new.go:141-157) and
  `PreRunE`'s copy of the template path are not modelled.
- **Other parts of the program.** `internal/pkg/pdkshell`,
  `pkg/cmd/completion` and `cmd/pdk/main.go` are not part of this model.
- **Logging** is not modelled anywhere.
- NewCommand.ParseVersion: the index-out-of-range panic is modelled as None.
  `RunE` then ends with `VersionPanic` before anything else runs.
