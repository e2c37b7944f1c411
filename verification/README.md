# dxlbootstrap template generation, modelled in Dafny

dxlbootstrap generates the skeleton of an OpenDXL Python application or
client wrapper from a configuration file. A template (the application
template or the client template) reads its configuration sections. It
builds a tree of components: directories, files, and code fragments that
are appended to the enclosing file. The tree is then executed against a
`TemplateContext` twice. The first pass only validates. The second pass
creates the directories and writes each file from packaged resources,
with each `${key}` replaced by its value.

This project models that engine:

- `wrappers.dfy`: `Option` and `Result`.
- `exceptions.dfy`: `NoOptionError`. Its fields, its `args`, and its message are modelled. `str` and `repr` both return the message, and `%r` is modelled as Python 3's string `repr`.
- `text.dfy`: string helpers used by the rest (join, `strip`, `lower`, Python's string order, literal replace and split).
- `config.dfy`: the configuration sections.
  - The configuration is a map from (section, option) to the option's text.
  - Covered: the three getters (string, boolean, and comma-separated list read with `'` as the csv quote character), and the `name`, `fullName`, `copyright` and `installRequires` properties.
- `versions.dfy`: `language_versions`. It lower-cases the entries, gives `universal` precedence, checks the `X(.Y(.Z))` shape, pads to three components, sorts three times (stably), and renders the result.
- `helpers.dfy`: the static string builders of `Template`.
- `resources.dfy`: `get_static_resource`. A resource is its list of lines, and each `${key}` is replaced key by key, in the order of the replacement dictionary.
- `component.dfy`: the component tree and its execution.
  - The tree is a datatype. `TemplateContext` is a class whose fields are the current directory, the open file, the indent level and a file system.
  - The file system is a set of directories plus a map from file path to content. A path is a sequence of names.
  - The `Execute` method runs the hooks and the children in order. Its contract ties it to a functional semantics `Run`, and the lemmas are stated over `Run`.
- `app_template.dfy`, `app_shape.dfy`: the application template.
  - The `_build_*` steps are methods over the `components_dict`, which is modelled as a value.
  - `_get_root_component` is modelled, and so are the shapes of the tree it returns.
- `client_template.dfy`, `client_shape.dfy`: the same for the client template.
- `generation.dfy`: `run` and `_do_run`.

A configuration error is raised while a template's tree is being built. The configuration properties are read while the components and their replacement dictionaries are constructed, so the error comes before either execution pass starts. The validating pass cannot fail and changes nothing: it makes no directory, opens and writes no file and reads no resource.

The list getter reads the option with Python's csv reader. A quote opens a quoted item only as the first character of a field. So `a, 'b,c', d` yields the four items `a`, `'b`, `c'` and `d`: the quote after the space is ordinary text. Items quoted directly after the comma (`a,'b,c',d`) yield `a`, `b,c` and `d`.

## Model

| member | source | states |
|---|---|---|
| `Exceptions.MessageRoundTrip` | dxlbootstrap/_exceptions.py:12-21 | `args` is the pair (option, section); `str` and `repr` both return the message; the message parses back to exactly (option, section) |
| `Exceptions.MessageInjective` | dxlbootstrap/_exceptions.py:12 | two errors with the same message have the same option and the same section |
| `Exceptions.ReadRepr` | dxlbootstrap/_exceptions.py:12 | every `%r` rendering of a string reads back to that string, whatever text follows it |
| `Exceptions.PlainRepr` | dxlbootstrap/_exceptions.py:12 | a string with no quote, backslash or control character is rendered by `%r` as itself between single quotes |
| `Exceptions.NoOptionError.Message` | dxlbootstrap/_exceptions.py:12 | defines the message as `No option `, the option's `%r`, ` in section: ` and the section's `%r`; `Exceptions.MessageRoundTrip` proves what it promises |
| `Exceptions.PyRepr` | dxlbootstrap/_exceptions.py:12 | defines `%r` of a string: `'` as the quote unless the text holds `'` and no `"`, with the backslash, the quote, `\n`, `\r`, `\t` and other control characters escaped; `Exceptions.ReadRepr` proves it reads back |
| `Config.PropertyRules` | dxlbootstrap/generate/core/template.py:118-132 | a present option yields its stored text unchanged; an absent required option raises NoOptionError(key, section) even when a default is given; an absent optional one yields the default |
| `Config.BooleanFollowsString` | dxlbootstrap/generate/core/template.py:134-148 | the boolean getter fails on a missing option exactly when the string getter does, and yields the default exactly when the option is absent; a present option yields its parsed boolean, or a NotABoolean error when it is not a boolean word |
| `Config.ListPropertyRules` | dxlbootstrap/generate/core/template.py:171-177 | with no items, a given default is returned even when the option is required; otherwise a required list raises NoOptionError(key, section) and an optional one yields []; this is the only failure; items read from the option are non-empty and stripped |
| `Config.GetListProperty` | dxlbootstrap/generate/core/template.py:150-177 | the appending loop yields exactly the list-property value: the stripped non-empty csv fields, or the default or error rules when there are none |
| `Config.KeptItemsClean` | dxlbootstrap/generate/core/template.py:165-169 | every kept item is non-empty and has no surrounding whitespace |
| `Config.PlainListRoundTrip` | dxlbootstrap/generate/core/template.py:160-169 | items with no comma, quote, line break or surrounding whitespace, joined with commas, read back as the same items |
| `Config.QuotedListRoundTrip` | dxlbootstrap/generate/core/template.py:160-169 | trimmed non-empty items free of quotes, each wrapped in `'` and joined with commas, read back as the same items, commas inside them included |
| `Config.QuoteAfterSpaceIsText` | dxlbootstrap/generate/core/template.py:163-169 | in `a, 'b,c', d` the quote after a space is literal text: the items are `a`, `'b`, `c'`, `d` |
| `Config.Copyright` | dxlbootstrap/generate/core/template.py:214 | the stored copyright, or "" when it is absent |
| `Config.InstallRequires` | dxlbootstrap/generate/core/template.py:232-234 | the declared `installRequires` items (none when absent), followed by the section's fixed dependencies |
| `Config.GetProperty` | dxlbootstrap/generate/core/template.py:118-132 | defines `_get_property`: the stored text, else NoOptionError(key, section) when required, else the default; `Config.PropertyRules` states its rules |
| `Config.ParseBoolean` | dxlbootstrap/generate/core/template.py:145 | defines the boolean words: `1`, `yes`, `true`, `on` for True and `0`, `no`, `false`, `off` for False, in any case; nothing else parses |
| `Config.GetBooleanProperty` | dxlbootstrap/generate/core/template.py:134-148 | defines `_get_boolean_property`: the parsed stored text, or NotABoolean for a non-boolean word, else the string getter's required / default rules; `Config.BooleanFollowsString` states them |
| `Config.Scan` | dxlbootstrap/generate/core/template.py:160-164 | defines the csv reader's fields with `'` as the quote: a quote opens a quoted field only at a field's start, a doubled quote inside stands for one quote, and a comma or line break outside quotes ends a field |
| `Config.ListItems` | dxlbootstrap/generate/core/template.py:160-169 | defines the list items: the csv fields, each stripped, the empty ones dropped, in order; `Config.KeptItemsClean` and `Config.PlainListRoundTrip` state their properties |
| `Config.ListProperty` | dxlbootstrap/generate/core/template.py:150-177 | defines `_get_list_property`: the items, else the default, else NoOptionError when required, else []; `Config.ListPropertyRules` states its rules |
| `LanguageVersions.LanguageVersions` | dxlbootstrap/generate/core/template.py:245-268 | the method yields the `language_versions` value of the section, or the error it raises |
| `LanguageVersions.Normalise` | dxlbootstrap/generate/core/template.py:252-267 | the loop that checks, splits, pads and sorts yields the normalised list, or the error for the first bad entry |
| `LanguageVersions.DefaultVersions` | dxlbootstrap/generate/core/template.py:245-248 | with no `languageVersions` option the result is `["2.7.9"]` |
| `LanguageVersions.UniversalWins` | dxlbootstrap/generate/core/template.py:249-250 | when any entry lower-cases to `universal` the result is exactly `["universal"]`, whatever the other entries are |
| `LanguageVersions.NormaliseRejects` | dxlbootstrap/generate/core/template.py:253-258 | without `universal`, the first entry that does not match `X(.Y(.Z))` is the one the error names |
| `LanguageVersions.NormalisedIsSortedPermutation` | dxlbootstrap/generate/core/template.py:263-267 | a normalised list renders a lexicographically sorted permutation of the entries' components |
| `LanguageVersions.SortFromSorted` | dxlbootstrap/generate/core/template.py:263-265 | the stable sorts by the third, second, then first component give a permutation ordered on all three keys |
| `LanguageVersions.SortByLex` | dxlbootstrap/generate/core/template.py:263-265 | a stable sort by key k of a list already ordered on the later keys orders it on keys k onwards, as a permutation |
| `LanguageVersions.SingleVersion` | dxlbootstrap/generate/core/template.py:253-267 | a single `X`, `X.Y` or `X.Y.Z` version normalises to itself |
| `LanguageVersions.RenderComponentsRoundTrip` | dxlbootstrap/generate/core/template.py:259-267 | splitting a digit-group version, padding it with `x`, rejoining it and dropping the `.x` pieces gives back the version |
| `LanguageVersions.GroupsMatch` | dxlbootstrap/generate/core/template.py:254 | one to three dot-separated digit groups match the accepted version pattern |
| `LanguageVersions.Pad` | dxlbootstrap/generate/core/template.py:260-261 | the components are kept and followed by `x` up to three entries |
| `LanguageVersions.LowerAll` | dxlbootstrap/generate/core/template.py:246 | each entry lower-cased, in order |
| `LanguageVersions.NormaliseVersions` | dxlbootstrap/generate/core/template.py:249-267 | defines the normalised versions: [`universal`] when `universal` is listed; otherwise the error for the first entry not of the form `X(.Y(.Z))`; otherwise the entries sorted on their components; `LanguageVersions.NormalisedIsSortedPermutation` states the order |
| `Text.StripTrimmed` | dxlbootstrap/generate/core/template.py:167 | `strip` leaves no surrounding whitespace and does not change an already trimmed string |
| `Text.TrimLeftSpec` | dxlbootstrap/generate/core/template.py:167 | the left trim removes exactly the leading whitespace |
| `Text.TrimRightSpec` | dxlbootstrap/generate/core/template.py:167 | the right trim removes exactly the trailing whitespace |
| `Text.LowerChars` | dxlbootstrap/generate/core/template.py:246 | lower-casing maps each character on its own and keeps the length |
| `Text.StrLeTotal` | dxlbootstrap/generate/core/template.py:263-265 | Python's string order compares any two strings |
| `Text.StrLeAntisymmetric` | dxlbootstrap/generate/core/template.py:263-265 | strings ordered both ways are equal |
| `Text.StrLeTransitive` | dxlbootstrap/generate/core/template.py:263-265 | the string order is transitive |
| `Text.ReplaceAllIsJoin` | dxlbootstrap/generate/core/template.py:473 | replacing a pattern equals splitting at it and joining with the replacement |
| `Text.Repeat` | dxlbootstrap/generate/core/template.py:96-98 | n copies have n times the length, and none for n <= 0 |
| `TemplateHelpers.CreateUnderline` | dxlbootstrap/generate/core/template.py:341-354 | the underline has the requested length (0 for a negative one) and every character is the given one |
| `TemplateHelpers.CreateInstallRequires` | dxlbootstrap/generate/core/template.py:357-370 | the text is the requirement lines (line break, eight spaces, the quoted name) with a comma between consecutive lines, and "" for no requirement |
| `TemplateHelpers.InstallRequiresLines` | dxlbootstrap/generate/core/template.py:365-370 | the text has exactly one line break per requirement |
| `TemplateHelpers.RemoveZVersionSpec` | dxlbootstrap/generate/core/template.py:439-450 | a version without exactly two dots is unchanged; with two dots the result is the text before the last dot, which has one dot; applying it twice is the same as once |
| `TemplateHelpers.BeforeLastDotSplit` | dxlbootstrap/generate/core/template.py:449 | `rpartition(".")[0]` is the text before the last dot: nothing after it holds a dot and it has one dot fewer |
| `TemplateHelpers.CreateLanguageRequires` | dxlbootstrap/generate/core/template.py:480-495 | the fixed requirement for `universal`; otherwise `>=` and the first version, followed by `,<3` exactly when the last (highest) listed version starts with `2`, and by nothing otherwise |
| `TemplateHelpers.CreateDockerImageLanguageVersion` | dxlbootstrap/generate/core/template.py:519-530 | `2.7` for `universal`; otherwise a prefix of the first version: unchanged unless it has exactly two dots, and then cut before the last dot, leaving one dot |
| `TemplateHelpers.CreateDistVersionTag` | dxlbootstrap/generate/core/template.py:453-477 | the loop yields the wheel tag: `--universal`/`py2.py3` for `universal`, otherwise the per-version `py` tags joined by dots, wrapped as a `--python-tag` argument when asked |
| `TemplateHelpers.DistTagsDotFree` | dxlbootstrap/generate/core/template.py:472-473 | no per-version tag contains a dot |
| `TemplateHelpers.DistTagsRoundTrip` | dxlbootstrap/generate/core/template.py:471-474 | splitting the joined tag at its dots gives back the per-version tags |
| `TemplateHelpers.DotsRemoved` | dxlbootstrap/generate/core/template.py:473 | `replace(".", "")` leaves no dot |
| `TemplateHelpers.CreateClassifiers` | dxlbootstrap/generate/core/template.py:498-516 | the loop yields the generic Python classifier line, then one line per version (the fixed list for `universal`), separated by commas with no trailing comma |
| `TemplateHelpers.ListedVersions` | dxlbootstrap/generate/core/template.py:549-552 | each version in order, the last prefixed by `or ` when there are several |
| `TemplateHelpers.CreateInstallationDocVersionText` | dxlbootstrap/generate/core/template.py:533-562 | the loop yields the fixed sentence for `universal`; otherwise the English list of versions, `or higher` after a single version, the environment text, and the Python 3 note when only Python 2 is listed |
| `TemplateHelpers.EnglishListShapes` | dxlbootstrap/generate/core/template.py:549-558 | the list reads `A`, `A or B`, or `A, B, ..., or C` |
| `TemplateHelpers.RemoveZVersion` | dxlbootstrap/generate/core/template.py:439-450 | defines `remove_z_version`: a version with exactly two dots loses its last dot and what follows; any other is kept; `TemplateHelpers.RemoveZVersionSpec` states this and idempotence |
| `TemplateHelpers.InstallRequiresText` | dxlbootstrap/generate/core/template.py:357-370 | defines the install-requires text: one quoted, indented line per requirement, separated by commas; `TemplateHelpers.CreateInstallRequires` is proved to build it |
| `TemplateHelpers.DistVersionTag` | dxlbootstrap/generate/core/template.py:453-477 | defines the wheel tag: `--universal` or `py2.py3` for `universal`, otherwise `py` plus each version without its `.Z` and dots, joined with dots, as a `--python-tag` argument when asked; `TemplateHelpers.CreateDistVersionTag` is proved to build it |
| `TemplateHelpers.Classifiers` | dxlbootstrap/generate/core/template.py:498-516 | defines the classifiers: the generic Python line, then one line per version without its `.Z` (a fixed list for `universal`), separated by commas; `TemplateHelpers.CreateClassifiers` is proved to build it |
| `TemplateHelpers.InstallationDocVersionText` | dxlbootstrap/generate/core/template.py:533-562 | defines the installation sentence: the fixed text for `universal`, otherwise the versions as an English list, `or higher` after a single one, the environment, and a note when only Python 2 is listed; `TemplateHelpers.CreateInstallationDocVersionText` is proved to build it |
| `Resources.SubstituteLines` | dxlbootstrap/generate/core/template.py:327-337 | one output line per resource line, each with that line's replacements |
| `Resources.StaticResource` | dxlbootstrap/generate/core/template.py:324-338 | fails exactly when the resource does not exist, naming it; otherwise has as many lines as the resource |
| `Resources.GetStaticResource` | dxlbootstrap/generate/core/template.py:309-338 | the nested loops yield the populated resource |
| `Resources.SubstituteUntouched` | dxlbootstrap/generate/core/template.py:329-335 | a line holding no `${key}` of the dictionary is returned unchanged |
| `Resources.SubstituteOne` | dxlbootstrap/generate/core/template.py:329-335 | replacing one key cuts the line at every `${key}`, none of the pieces holds it, and they are rejoined with the value's text |
| `Resources.PlaceholderLine` | dxlbootstrap/generate/core/template.py:329-335 | a line that is just `${key}` becomes the value's text, and the later keys of the dictionary then apply to that text |
| `Resources.SubstituteLine` | dxlbootstrap/generate/core/template.py:329-336 | defines one line's substitution: every `${key}` of each dictionary entry replaced by its value, the entries in order |
| `Components.PathJoin` | dxlbootstrap/generate/core/component.py:37 | joining a name adds it as one last segment; an empty name leaves the path unchanged |
| `Components.AddChild` | dxlbootstrap/generate/core/component.py:25-26 | `add_child` appends the child after the existing children and changes nothing else |
| `Components.MakeDirs` | dxlbootstrap/generate/core/component.py:46-47 | making directories keeps every file and every existing directory, makes `p` and every directory above it exist, and adds no other directory |
| `Components.Truncate` | dxlbootstrap/generate/core/component.py:88 | opening for writing leaves the directories alone, makes the file exist and empty, adds no other file and leaves every other file's content unchanged |
| `Components.Append` | dxlbootstrap/generate/core/template.py:99 | a write appends its text to that file and leaves every other file unchanged |
| `Components.Indent` | dxlbootstrap/generate/core/template.py:96-98 | the indent is four spaces per level, and empty for a level of zero or less |
| `Components.TemplateContext.constructor` | dxlbootstrap/generate/core/template.py:16-25 | a new context is in the empty directory, has no open file, and has indent level 0 |
| `Components.TemplateContext.WriteToFile` | dxlbootstrap/generate/core/template.py:89-99 | each line is appended to the open file as the indent, the line and a newline; writing no lines changes nothing; writing lines with no open file is an error |
| `Components.TemplateContext.OnPreExecute` | dxlbootstrap/generate/core/component.py:35-88 | a directory enters `join(current, name)`; a code node raises the indent by its level; a file in the real pass opens `join(current, name)` truncated; otherwise nothing changes |
| `Components.TemplateContext.OnExecute` | dxlbootstrap/generate/core/component.py:42-76 | nothing in validate-only mode; otherwise a directory is created unless it exists, and a code or file node writes its populated resource |
| `Components.TemplateContext.Write` | dxlbootstrap/generate/core/component.py:75-76 | the populated resource is written to the open file, or the missing-resource or no-open-file error is raised |
| `Components.TemplateContext.OnPostExecute` | dxlbootstrap/generate/core/component.py:39-95 | a directory restores the directory it entered from; a code node lowers the indent by its level; a file in the real pass closes the open file and clears it |
| `Components.TemplateContext.Execute` | dxlbootstrap/generate/core/component.py:18-23 | the state after the pre-hook, the own step, every child in order and the post-hook, or the first error |
| `Components.TemplateContext.ExecuteChildren` | dxlbootstrap/generate/core/component.py:21-22 | the children run one after another in insertion order, stopping at the first error |
| `Components.RunChildrenAppend` | dxlbootstrap/generate/core/component.py:21-22 | running `a + b` is running `a` and then, from the state it leaves, `b` |
| `Components.AddChildRunsLast` | dxlbootstrap/generate/core/component.py:25-26 | an added child runs after all earlier children, which run as before |
| `Components.ValidateOnlyUnchanged` | dxlbootstrap/generate/core/component.py:35-95 | a validate-only execution of any tree succeeds and leaves the whole context unchanged: directory, open file, indent level and file system |
| `Components.ValidateChildrenUnchanged` | dxlbootstrap/generate/core/component.py:21-22 | the same for a list of children |
| `Components.ExecuteHookFrame` | dxlbootstrap/generate/core/component.py:42-76 | the own step never changes the directory, the indent or the open file, and removes no file or directory |
| `Components.RunRestores` | dxlbootstrap/generate/core/component.py:35-69 | after any subtree, in either mode, the current directory and the indent level are what they were before, and no file or directory was removed |
| `Components.ChildrenRestore` | dxlbootstrap/generate/core/component.py:21-22 | the same for a list of children |
| `Components.DirCreated` | dxlbootstrap/generate/core/component.py:42-47 | after a real run of a directory node its path exists |
| `Components.FileLeaf` | dxlbootstrap/generate/core/component.py:84-95 | a file node without children fails exactly when its resource is missing; otherwise its file holds exactly the populated resource at the current indent, the open file is cleared, and nothing else changes |
| `Components.CodeLeaf` | dxlbootstrap/generate/core/component.py:65-76 | a code fragment appends its populated resource at the current indent plus its own level to the open file; the directory, open file, indent and every other file are unchanged |
| `Components.NestedFileFails` | dxlbootstrap/generate/core/component.py:90-95 | a file inside a file fails on the outer close, because the inner close has already cleared the open file |
| `Components.PreHook` | dxlbootstrap/generate/core/component.py:35-38 | defines `on_pre_execute`: a directory enters `join(current, name)`, a code component raises the indent by its level, and a file component outside validation opens `join(current, name)` truncated |
| `Components.ExecuteHook` | dxlbootstrap/generate/core/component.py:42-76 | defines `on_execute`: nothing while validating; otherwise a directory is made unless it exists, and a code or file component writes its populated resource |
| `Components.PostHook` | dxlbootstrap/generate/core/component.py:39-95 | defines `on_post_execute`: a directory restores the previous directory, a code component lowers the indent, and a file component outside validation closes its file, raising when none is open |
| `Components.Run` | dxlbootstrap/generate/core/component.py:18-23 | defines `execute`: the pre-execute hook, the on-execute step, the children in order, then the post-execute hook, stopping at the first error; `Components.ValidateOnlyUnchanged` states the validating pass |
| `Components.WriteLines` | dxlbootstrap/generate/core/template.py:89-99 | defines `write_to_file`: nothing for no lines; otherwise an error with no open file, else each line appended to the open file after the current indent |
| `AppTemplate.AppInstallRequires` | dxlbootstrap/generate/templates/app/template.py:68-74 | the application's install list is the declared `installRequires` followed by `dxlbootstrap`, `dxlclient` |
| `AppTemplate.HandlersOf` | dxlbootstrap/generate/templates/app/template.py:117-176 | one handler per name, in order, each read from that name's section |
| `AppTemplate.ServicesOf` | dxlbootstrap/generate/templates/app/template.py:78-115 | one service per name, in order: the i-th is the service read from the i-th name's sections, or the first error |
| `AppTemplate.CreatePipInstall` | dxlbootstrap/generate/templates/app/template.py:219-231 | the loop yields the `RUN pip install "req"` lines joined by line breaks |
| `AppTemplate.PipInstallLines` | dxlbootstrap/generate/templates/app/template.py:226-231 | "" for no requirement; otherwise it starts with the first requirement's line and has one line break fewer than requirements (no leading newline) |
| `AppTemplate.AdditionalImportsShape` | dxlbootstrap/generate/templates/app/template.py:413-428 | empty exactly when neither flag is set; otherwise a newline, then the service imports (when there are services), then the event import (when there are events) |
| `AppTemplate.BuildRootDirectory` | dxlbootstrap/generate/templates/app/template.py:233-282 | fails on the first of `fullName`, `name` that is missing; otherwise records the eight root files built from them |
| `AppTemplate.BuildConfigDirectory` | dxlbootstrap/generate/templates/app/template.py:285-313 | fails on the first of `name`, `fullName` that is missing; otherwise records the config directory |
| `AppTemplate.BuildSampleDirectory` | dxlbootstrap/generate/templates/app/template.py:316-343 | records the empty `basic_sample.py` component |
| `AppTemplate.BuildDocsDirectory` | dxlbootstrap/generate/templates/app/template.py:345-402 | fails on the first of `fullName`, `name` that is missing; otherwise records the doc directory |
| `AppTemplate.BuildApplicationDirectory` | dxlbootstrap/generate/templates/app/template.py:405-455 | fails on the first of `name`, `appClassName`, `fullName` that is missing; otherwise records the application package and its three files |
| `AppTemplate.BuildEventHandlers` | dxlbootstrap/generate/templates/app/template.py:458-502 | fails with the first handler's error; otherwise the dictionary gains the event components of all declared handlers |
| `AppTemplate.BuildServices` | dxlbootstrap/generate/templates/app/template.py:505-563 | fails with the first service's or handler's error; otherwise the dictionary gains the service components of all declared services |
| `AppTemplate.EventFragments` | dxlbootstrap/generate/templates/app/template.py:482-502 | the loop yields, per handler in order, one registration, one callback and one sample fragment |
| `AppTemplate.ServiceFragments` | dxlbootstrap/generate/templates/app/template.py:529-563 | the loop yields each service's block, the request-handler file over all handlers (when any), and one sample fragment per handler |
| `AppTemplate.AddService` | dxlbootstrap/generate/templates/app/template.py:529-563 | one service extends the blocks, the request file and the sample by exactly that service's parts |
| `AppTemplate.RequestHandlerFragments` | dxlbootstrap/generate/templates/app/template.py:536-559 | the loop yields one add-topic fragment per handler, and extends the request file and the sample by one fragment per handler |
| `AppTemplate.AddRequestHandler` | dxlbootstrap/generate/templates/app/template.py:537-559 | one handler adds one add-topic fragment, one callback (creating the file on the first handler) and one sample fragment |
| `AppTemplate.RequestsFileSnoc` | dxlbootstrap/generate/templates/app/template.py:538-545 | the request file is created empty on the first handler, and each handler appends one callback |
| `AppTemplate.BuildFixedParts` | dxlbootstrap/generate/templates/app/template.py:578-582 | the first five steps fail with the first missing setting; otherwise they record the fixed parts |
| `AppTemplate.GetRootComponent` | dxlbootstrap/generate/templates/app/template.py:565-586 | the steps run in order yield exactly the application tree of the configuration, or its first error |
| `AppTemplate.HandlerOf` | dxlbootstrap/generate/templates/app/template.py:117-176 | defines a handler read from its section: `className`, then `topic` (both required), then `separateThread` (True when absent), the first error raised |
| `AppTemplate.ServiceOf` | dxlbootstrap/generate/templates/app/template.py:78-115 | defines a service read from its section: `serviceType` (required), then each request handler's section, the first error raised |
| `AppTemplate.AdditionalImports` | dxlbootstrap/generate/templates/app/template.py:413-428 | defines the extra `app.py` imports: nothing when there are neither events nor services, otherwise a line break, the service imports if there are services, then the event import if there are events |
| `AppTemplate.AppTreeOf` | dxlbootstrap/generate/templates/app/template.py:565-586 | defines the application tree: the settings, then the event handlers, then the services, read in that order, and the root of the tree they build; the first configuration error otherwise; the `AppShape` lemmas state the tree's shape |
| `AppShape.AppTreeParts` | dxlbootstrap/generate/templates/app/template.py:565-586 | a built tree is the one assembled from the settings, one event handler per declared name and one service per declared name |
| `AppShape.FirstMissingOption` | dxlbootstrap/generate/templates/app/template.py:233-455 | the build fails naming `fullName`, else `name`, else `appClassName`, whichever is missing first, in section `Application` |
| `AppShape.EventErrorsFirst` | dxlbootstrap/generate/templates/app/template.py:580-582 | an event-handler error is reported before any service error |
| `AppShape.EventsPresence` | dxlbootstrap/generate/templates/app/template.py:472-480 | `has_events` is set, `eventhandlers.py` exists (once) and the registration fragment is in `app.py` exactly when handlers are declared |
| `AppShape.EventFragmentsInOrder` | dxlbootstrap/generate/templates/app/template.py:482-502 | the registration block is `app.py`'s first fragment, `eventhandlers.py` holds the callbacks in order, and the sample starts with the event fragments in order |
| `AppShape.EventFragmentsIndexed` | dxlbootstrap/generate/templates/app/template.py:482-502 | the i-th handler gives the i-th registration and sample fragment, both at indent 1, and the i-th callback |
| `AppShape.RequestsFilePresence` | dxlbootstrap/generate/templates/app/template.py:520-540 | `requesthandlers.py` appears once if some service declares a handler and never otherwise; `has_services` and the registration block exist exactly when services are declared |
| `AppShape.ServiceBlocksShape` | dxlbootstrap/generate/templates/app/template.py:529-563 | the registration block holds two fragments per service plus one per handler, all code at indent 1 |
| `AppShape.ServiceBlockShape` | dxlbootstrap/generate/templates/app/template.py:529-563 | a service's fragments are `service_create`, one `service_add_topic` per handler in order, then `service_register`, all at indent 1 |
| `AppShape.AppFileChildren` | dxlbootstrap/generate/templates/app/template.py:472-525 | `app.py` holds the event block (when there are events) followed by the services block (when there are services) |
| `AppShape.AppDirChildren` | dxlbootstrap/generate/templates/app/template.py:435-540 | the package holds `__init__.py`, `app.py`, `__main__.py`, then `eventhandlers.py` and `requesthandlers.py` when present |
| `AppShape.SampleChildren` | dxlbootstrap/generate/templates/app/template.py:498-559 | the basic sample holds the event fragments, then the request fragments, in declaration order |
| `AppShape.RootNames` | dxlbootstrap/generate/templates/app/template.py:233-455 | the root holds the eight root files, then `config`, `sample`, `doc` and the application package |
| `AppShape.RootFileNames` | dxlbootstrap/generate/templates/app/template.py:233-282 | the root files are README, README.md, setup.py, LICENSE, MANIFEST.in, dist.py, clean.py and Dockerfile, in that order |
| `AppShape.ImportsSeeFinalFlags` | dxlbootstrap/generate/templates/app/template.py:413-428 | the imports are evaluated with the flags as the last build step leaves them: they depend on whether events and services are declared |
| `AppShape.AppFileDefersImports` | dxlbootstrap/generate/templates/app/template.py:443-447 | `app.py`'s `additionalImports` is the deferred callable, not a value fixed at build time |
| `ClientTemplate.ClientInstallRequires` | dxlbootstrap/generate/templates/client/template.py:61-67 | the client's install list is the declared `installRequires` followed by `dxlbootstrap`, `dxlclient` |
| `ClientTemplate.ClientOptionRules` | dxlbootstrap/generate/templates/client/template.py:42-59 | `clientClassName` is required and yields its text; `includeExampleMethod` is true when absent, its parsed value when a boolean word, and an error otherwise |
| `ClientTemplate.BuildRootDirectory` | dxlbootstrap/generate/templates/client/template.py:111-154 | fails on the first of `fullName`, `name` that is missing; otherwise the root holds the seven root files |
| `ClientTemplate.BuildClientDirectory` | dxlbootstrap/generate/templates/client/template.py:157-193 | fails on the first of `name`, `clientClassName`, `includeExampleMethod`, `fullName` that cannot be read; otherwise appends the client package to the root and records it |
| `ClientTemplate.BuildSampleDirectory` | dxlbootstrap/generate/templates/client/template.py:196-234 | fails on the first of `includeExampleMethod`, `clientClassName`, `name` that cannot be read; otherwise appends the sample directory to the root |
| `ClientTemplate.BuildDocsDirectory` | dxlbootstrap/generate/templates/client/template.py:236-281 | fails on the first of `fullName`, `name` that is missing; otherwise appends the doc directory to the root |
| `ClientTemplate.GetRootComponent` | dxlbootstrap/generate/templates/client/template.py:283-298 | the four steps in order yield exactly the client tree of the configuration, or its first error |
| `ClientTemplate.IncludeExampleMethod` | dxlbootstrap/generate/templates/client/template.py:51-59 | defines `include_example_method`: the boolean option, True when absent, NotABoolean for another word |
| `ClientTemplate.ClientTreeOf` | dxlbootstrap/generate/templates/client/template.py:283-298 | defines the client tree: the client settings, then the root of the tree they build, or the first configuration error |
| `ClientShape.ClientFirstMissingOption` | dxlbootstrap/generate/templates/client/template.py:111-193 | the build fails naming `fullName`, else `name`, else `clientClassName`, in section `Client`; with all three present it fails exactly when `includeExampleMethod` is unreadable |
| `ClientShape.ClientRootNames` | dxlbootstrap/generate/templates/client/template.py:122-154 | the root holds README, README.md, setup.py, LICENSE, MANIFEST.in, dist.py, clean.py, then the package named by `name`, `sample` and `doc` |
| `ClientShape.ClientDirNames` | dxlbootstrap/generate/templates/client/template.py:170-193 | the package is named by `name` and holds `__init__.py`, then `client.py` |
| `ClientShape.ClientFileExample` | dxlbootstrap/generate/templates/client/template.py:179-191 | `client.py` holds one indent-1 example method exactly when the example is included and none otherwise; its additional imports are non-empty exactly then |
| `ClientShape.BasicSampleExample` | dxlbootstrap/generate/templates/client/template.py:222-232 | `basic_sample.py` holds one indent-1 example invocation exactly when the example is included and none otherwise; its additional imports are non-empty exactly then |
| `ClientShape.SamplePlacement` | dxlbootstrap/generate/templates/client/template.py:196-234 | `sample` holds the two client configurations, `common.py` and `basic`, and `basic` holds only `basic_sample.py` |
| `Generation.GetRoot` | dxlbootstrap/generate/core/template.py:382-390 | the chosen template's root tree with its deferred values, or its configuration error |
| `Generation.DoRun` | dxlbootstrap/generate/core/template.py:392-401 | validating and then executing leaves the context exactly as one real execution from the starting state would; a configuration error changes nothing |
| `Generation.RunTemplate` | dxlbootstrap/generate/core/template.py:412-423 | the file system a fresh context in the destination folder produces, or the error raised |
| `Generation.GenerationOnlyAdds` | dxlbootstrap/generate/core/template.py:412-423 | a generation removes no file or directory, and ends in the destination folder at indent level 0 |
| `Generation.BuiltOf` | dxlbootstrap/generate/core/template.py:382-390 | defines the chosen template's root tree with its deferred replacement values, or its configuration error |
| `Generation.RunOnce` | dxlbootstrap/generate/core/template.py:392-401 | defines one real execution of the template's tree from a state, with a configuration error or an execution error told apart |
| `Generation.Generated` | dxlbootstrap/generate/core/template.py:412-423 | defines what generating into a destination folder does to the file system: one real execution from a fresh context there, or the error raised |

## Left out

- Shared mutable components are modelled as values. In the source a component is attached to its parent and filled afterwards, through the alias kept in `components_dict`. The model attaches the finished component, which gives the same tree because nothing runs in between. `components_dict` is a record threaded through the build steps.
- Resource loading is modelled as a map from resource name to lines. The package argument, the `static/` prefix, the `../../app/static/` names the client template borrows from the application package, UTF-8 decoding and `splitlines` are not modelled.
- `re.sub` is modelled as literal replacement. In the source a backslash or group reference in a value is interpreted by the regular-expression engine; the model inserts the value as written.
- Non-string replacement values are given by their `str` text. `separateThread` is written as `True` or `False`.
- `Components.PathJoin` appends the name as a single path segment. `os.path.join` differs in two cases. A name holding `/` gives several segments, which `os.makedirs` then all creates. An absolute name replaces the current path. Names come from the configuration (`name`, and `name + ".config"`), so for such a name the directories and files the model creates differ from the source's.
- File system errors are not modelled: permissions, a failing `makedirs` or `open`, and a file standing where a directory is expected. `os.path.exists` is true of a directory or a file at that path.
- `RunTemplate`'s result on an execution error carries only the error. The directories and files written before the error are not returned.
- The configuration parser is a map from (section, option) to text. Option-name case folding, interpolation and the `DEFAULT` section are not modelled.
- `getboolean` is modelled as the words `1/yes/true/on` and `0/no/false/off`, compared case-insensitively. Its `ValueError` is the `NotABoolean` error.
- The csv reader is modelled for `'` as the quote character with doubled-quote escaping, and a line break as an item separator. Other dialect settings and `\r` handling are not modelled.
- `Exceptions.PyRepr` escapes the ASCII control characters only. Python 3's `repr` also escapes non-printable non-ASCII characters.
- The model follows Python 3, where configuration text is Unicode `str`. Python 2's byte strings are not modelled.
- `Text.Lower` lower-cases the ASCII letters A-Z only. Python 3's `str.lower` also lower-cases other letters, and may change the length: `"\u0130".lower()` has two characters.
- `Text.LowerChars` states the ASCII model's per-character, length-keeping lower-casing, for the reason given for `Text.Lower`.
- `LanguageVersions.NormaliseVersions` matches `\d` against the ASCII digits 0-9 only. Python 3's `re` also matches other Unicode decimal digits, so an entry such as `"\u0663"` is accepted by the source and rejected by the model.
- `LanguageVersions.Normalise` uses the ASCII-only digit test, as `LanguageVersions.NormaliseVersions` does.
- `LanguageVersions.NormaliseRejects` names as bad an entry with non-ASCII digits, which the source accepts, for the same reason.
- `LanguageVersions.LanguageVersions` lower-cases and checks the entries on ASCII only, as `Text.Lower` and `LanguageVersions.NormaliseVersions` do.
- `TemplateHelpers.CreateDockerImageLanguageVersion` requires `universal` or a non-empty list. The source's `versions[0]` raises `IndexError` on an empty list, but `language_versions` never returns one.
- `TemplateHelpers.CreateLanguageRequires` requires `universal` or a list whose last entry is non-empty. The source's `versions[-1][0]` raises `IndexError` on an empty list and on an empty last entry, but `language_versions` never returns either.
- `TemplateHelpers.CreateInstallationDocVersionText` requires `universal` or a list whose last entry is non-empty, for the same reason: the source reads `versions[-1][0]` through `_has_only_python_2_support`.
- `Template.get_name`, `new_instance` and `_create_template_config` are left out. They only name the template and wrap the configuration, which the model passes directly.
- `dxlbootstrap/base/app.py` and `dxlbootstrap/client.py` are not part of this model: they are the runtime application and client built on threads and the DXL network connection.
- `dxlbootstrap/util.py` and the command-line entry points (`dxlbootstrap/generate/app.py`, `dxlbootstrap/app.py`, `dxlbootstrap/__main__.py`) are not part of this model: they handle argument parsing, logging, printing and file reading.
- `setup.py`, `dist.py`, `_compat.py` and `__init__.py` are not part of this model: they are packaging scripts, an import shim and a version constant.
