# suti / dati in Dafny

suti (later renamed dati) renders a template against data files. It
loads JSON, YAML or TOML data files and orders them by file name or
modification time. It merges "global" data files into one map and stores
the ordered data list under a data key. Then it executes a text/template,
html/template or mustache template against the result. The repository
holds several generations of the tool, and each one is a module here:

| module | file | what it holds |
|---|---|---|
| `Suti` | suti.go | The first generation. Its argument parser makes every setting last-wins and warns about unknown flags. Its loader reads JSON files and directories into a map from path to value. |
| `SrcData` | src/data.go | The second generation's data side. It loads files and skips failures. It orders the loaded map by file name or modification time. It merges global data and builds the "super data". |
| `SrcTemplate` | src/template.go | The second generation's template side. It dispatches on the root's extension. It runs the tmpl/hmpl partial loops and the mustache loader's in-place rewriting of the partials slice. It executes by reflection. |
| `SrcSuti` | src/suti.go | The second generation's front end. It has no `-flag=value` splitting and no help flag, and relative paths go through `filepath.Rel`. |
| `DatiFile` | file.go | The library's file ordering. `SortFileList` sorts by base name in place, or by modification time. |
| `DatiData` | data.go | Data-format detection, and `LoadData` / `LoadDataFile` writing through the caller's `outp` argument. |
| `DatiTemplate` | template.go | Template-language detection, the `LoadTemplate` dispatch, the three engine loaders, `LoadTemplateFilepath` and `Template.Execute`. |
| `Cli` | cmd/dati.go, cmd/suti.go | The argument parser the two later front ends share line for line. It rewrites `args[a]` in place to split `-flag=value`, and it exits on `-h`. It also holds `parseConfig` on top. |
| `CliCommon` | cmd/dati.go, cmd/suti.go, src/suti.go | What the three later front ends share: their options, dash stripping, turning config lines into arguments, and `setDefaultOptions`. |
| `Merging` (common.dfy) | src/data.go, cmd/dati.go | The first-non-nil-wins merge specification behind `MergeData` and `mergeData`. |
| `GoStrings`, `GoSort` | (Go standard library) | `filepath.Ext`/`Base`, `strings.ToLower`/`TrimSpace`/`Split`, Go string order, and `sort.Slice`/`sort.Strings`. |

The filesystem is an input value (`Common.Fs`), not something the model
reads:
- `stat` maps each path on which `os.Stat` succeeds to its directory bit
  and modification time (an integer);
- `files` maps each path on which `os.Open` succeeds to what reading it
  gives;
- `walks` lists, per directory, the entries `filepath.Walk` hands its
  callback, in order;
- `globs` holds the `filepath.Glob` results.

Decoders, template parsers and renderers are function-typed parameters.
Go map iteration is an arbitrary choice of the next key, with a ghost
enumeration of the keys exposed in the contracts. Printed warnings are
collected, in order, in a log of `Common.Warning` values. How a parse
ends (normally, by help and `os.Exit`, or by the `arg[0]` panic on an
empty argument) is a `CliCommon.Outcome`.

Where the code does in-place work, the model keeps that form:
- `sortFileListByName` sorts the caller's array, and the test relies on
  that aliasing;
- `cmd/dati.go`'s `parseArgs` writes the value of a `-flag=value`
  argument back into the caller's `args` array and reads it again;
- the mustache loader of src/template.go edits the slice it ranges over
  in place. It is modelled on the caller's array with an explicit length
  and reallocation on append, so the range keeps reading the old array.

## Model

| member | source | states |
|---|---|---|
| Merging.Absorb | src/data.go:247-253 | Absorbing one container gives the union of the two key sets. |
| Merging.MergedIsFirstNonNull | cmd/dati.go:284-296 | mergeData's key set is the union of all key sets. Each key holds the first non-nil value in container order, or nil if every value is nil, so a nil value can be replaced later. |
| Merging.FirstNonNullAbsent | cmd/dati.go:284-296 | A key missing from the merge has no non-nil value in any container. |
| GoStrings.Ext | data.go:55 | filepath.Ext: a suffix of the path that is either empty or a dot followed by no dot, and never holds a '/'. |
| GoStrings.Base | file.go:55 | filepath.Base: never empty; "/" or free of '/'; a plain name is its own base. |
| GoStrings.BaseOfChild | file.go:59 | The directory part of a path never shows through Base. |
| GoStrings.TrimDot | template.go:42-44 | Exactly one leading '.' is removed when present; otherwise the string is unchanged. |
| GoStrings.TrimPrefix | src/data.go:38 | strings.TrimPrefix: the prefix is removed exactly when it is one. |
| GoStrings.TrimSuffix | template.go:110 | strings.TrimSuffix: the suffix is removed exactly when it is one. |
| GoStrings.ToLower | data.go:60 | The same length, with each character lower-cased. |
| GoStrings.ToLowerIdempotent | data.go:60 | Lower-casing twice is lower-casing once. |
| GoStrings.ExtToLower | data.go:55-60 | Taking the extension and lower-casing commute, so ReadDataFormat's order of the two does not matter. |
| GoStrings.ExtOfSuffix | data.go:55 | A path ending in "." and a dot-free, slash-free name has that extension. |
| GoStrings.TrimSpace | cmd/dati.go:237 | The result is a slice of the input with no white space at either end, and everything cut off on either side is white space. |
| GoStrings.Split | cmd/dati.go:236 | At least one piece, and no piece holds the separator. |
| GoStrings.SplitJoin | cmd/dati.go:236 | Joining the pieces with the separator gives the line back. |
| GoStrings.SplitLength | cmd/dati.go:236 | There is one more piece than there are separators. |
| GoStrings.LeadingDashes | cmd/dati.go:178-181 | The number of leading '-' characters: all of them, and no more. |
| GoStrings.LeTotal | src/data.go:165 | Go's string order is total. |
| GoStrings.LeTrans | src/data.go:165 | Go's string order is transitive. |
| GoStrings.LeAntisym | src/data.go:165 | Go's string order is antisymmetric. |
| GoSort.AdjSortedIsSorted | file.go:52-63 | Ordered neighbours give an ordered sequence. |
| GoSort.SortStrings | file.go:54-60 | sort.Slice / sort.Strings: the array ends up ordered by key and is a permutation of what it held. |
| GoSort.SortTimes | file.go:79-87 | sort.Slice on times with Before (or After): ordered, and a permutation. |
| DatiFile.FirstStatFailure | file.go:67-71 | There is no failure exactly when every path stats. Otherwise the result is the position of a path that does not stat. |
| DatiFile.StatFailureAt | file.go:67-71 | The failure reported is the first one in path order. |
| DatiFile.SortFileList | file.go:36-50 | "filename", "filename-asc" and "filename-desc" sort the caller's array by base name and return it. The three "modified" keywords sort by modification time. Anything else, "" included, returns the unchanged paths with an invalid-order error. |
| DatiFile.SortFileListByName | file.go:52-63 | The caller's array is returned, as a permutation of its old contents, ordered by base name (ascending or descending). |
| DatiFile.NameOrderIgnoresDirectories | file.go:54-60 | The by-name comparison of two paths is the comparison of their file names alone. |
| DatiFile.SortFileListByMod | file.go:65-104 | A stat failure returns the same paths with that error. Otherwise each distinct path comes back exactly once, in modification-time order, with no error, even when duplicates made the result shorter. |
| DatiFile.StatAll | file.go:66-73 | The stat loop gives the first failing position, or the time of every path. |
| DatiFile.MapTimes | file.go:75-78 | The times collected are the map's values, in some enumeration of its keys. |
| DatiFile.PickByTime | file.go:89-98 | For each sorted time, a path with that time is picked and deleted. Every path is picked exactly once. |
| DatiFile.PickOne | file.go:91-97 | The inner loop finds an entry with the time asked for and deletes exactly that entry. |
| DatiFile.PickedOutcome | file.go:89-103 | Paths picked in sorted-time order make a correct by-mtime result. |
| DatiFile.PickedInOrder | file.go:89-98 | Paths matched one by one to sorted times are in modification-time order. |
| DatiData.Suggested | data.go:55-63 | The name a path suggests: its lower-cased extension without the dot, or the whole string when there is no extension. |
| DatiData.FormatOf | data.go:50-71 | The result is "" or one of json/yaml/toml. When it is not "", it is the suggested name. A non-empty path whose suggested name is a format gives that format. |
| DatiData.ReadDataFormat | data.go:50-71 | The early return on "" and the search of the format list compute FormatOf. |
| DatiData.IsDataFormat | data.go:43-45 | Holds exactly when ReadDataFormat finds a format. |
| DatiData.FormatOfCaseInsensitive | data.go:60 | Lower-casing the input never changes the format. |
| DatiData.FormatOfFileName | data.go:55-70 | A file name's format is its extension lower-cased, when that is a format, and "" otherwise. |
| DatiData.FormatOfDotted | data.go:55-63 | A single dot and a dot-free name give the format that name names, in any case. |
| DatiData.FormatOfBareName | data.go:56-58 | A name without a dot is taken as the format name itself. |
| DatiData.JsonNameRows | data_test.go:35 | "json" and "JSON" give json. |
| DatiData.JsonDotRow | data_test.go:35 | ".json" gives json. |
| DatiData.JsonUpperDotRow | data_test.go:35 | ".JSON" gives json. |
| DatiData.YamlNameRows | data_test.go:36 | "yaml" and "YAML" give yaml. |
| DatiData.YamlDotRow | data_test.go:36 | ".yaml" gives yaml. |
| DatiData.YamlUpperDotRow | data_test.go:36 | ".YAML" gives yaml. |
| DatiData.TomlNameRows | data_test.go:37 | "toml" and "TOML" give toml. |
| DatiData.TomlDotRow | data_test.go:37 | ".toml" gives toml. |
| DatiData.TomlUpperDotRow | data_test.go:37 | ".TOML" gives toml. |
| DatiData.MiscDotRow | data_test.go:38 | ".misc" gives no format. |
| DatiData.NoNameRows | data_test.go:38 | "-", "." and "" give no format. |
| DatiData.LoadResult | data.go:75-95 | A read failure is returned. Empty input succeeds before the format is looked at, and the target is left alone. A supported format runs its decoder. Any other format is an unsupported-language error. |
| DatiData.EmptyInputAlwaysLoads | data.go:79-81 | Empty input succeeds for every format, even an unsupported one, and leaves the target alone. |
| DatiData.LoadData | data.go:75-95 | The value behind the caller's `outp` and the error are those LoadResult gives. |
| DatiData.LoadFileResult | data.go:100-111 | An open failure is returned unwrapped. A load failure is wrapped with the path. |
| DatiData.EmptyFileLoads | data.go:100-111 | An empty file loads without error, whatever its extension. |
| DatiData.UnknownExtensionFails | data.go:104-107 | A non-empty file whose extension names no format fails with the wrapped unsupported-language error. |
| DatiData.LoadDataFile | data.go:100-111 | The value behind `outp` and the error are those LoadFileResult gives. |
| DatiTemplate.IndexIn | template.go:45-50 | The position of the first match, or -1 exactly when there is none. |
| DatiTemplate.LangIndex | template.go:40-51 | The index of the lower-cased, dot-stripped name in ["tmpl","hmpl","mst"], or -1 exactly when it is absent. |
| DatiTemplate.IsSupportedTemplateLang | template.go:40-51 | The lowering, the dot stripping and the early-return search compute LangIndex. |
| DatiTemplate.LangIndexNormalises | template.go:41-44 | Upper case and one leading dot make no difference to the index. |
| DatiTemplate.TmplRows | template_test.go:49 | ".tmpl", "tmpl", "TMPL" and ".TMPL" give 0. |
| DatiTemplate.HmplRows | template_test.go:50 | ".hmpl", "hmpl", "HMPL" and ".HMPL" give 1. |
| DatiTemplate.MstRows | template_test.go:51 | ".mst", "mst", "MST" and ".MST" give 2. |
| DatiTemplate.UnsupportedRows | template_test.go:52 | ".NONE", "-", "." and "" give -1. |
| DatiTemplate.GetTemplateType | template.go:53-55 | The extension without its dot, with case kept; "" when there is no extension. |
| DatiTemplate.TemplateTypeOfFileName | template.go:53-55 | A file's template type is its extension exactly as written. |
| DatiTemplate.RootName | template.go:110 | The base name is the root name followed by the extension. |
| DatiTemplate.RootNameOfFile | template.go:110 | "dir/stem.ext" has root name "stem". |
| DatiTemplate.GoTextError | template.go:162-165 | Reading or parsing one Go template text fails exactly when the read fails or the parser refuses the text. |
| DatiTemplate.Texts | template.go:197-202 | The texts of exactly the readable partials, under their own names. |
| DatiTemplate.ParseGoPartials | template.go:161-167 | The partial loop either names a partial that fails, or parses all of them. |
| DatiTemplate.LoadGoTemplate | template.go:152-190 | loadTemplateTmpl/Hmpl: a failing root gives its error. Otherwise a failing partial gives its error and a nil template. Otherwise the template holds the root and every partial. |
| DatiTemplate.MstPartialUnreadable | template.go:197-203 | An unreadable partial fails the mustache load with its read error, before the root is read. |
| DatiTemplate.ReadMstPartials | template.go:195-203 | The loop either names an unreadable partial, or gives every partial's text. |
| DatiTemplate.LoadMstTemplate | template.go:192-212 | The partials are read first, then the root is read and parsed against all partial texts. |
| DatiTemplate.LoadTemplate | template.go:220-239 | A language IsSupportedTemplateLang rejects gives an invalid-type error and the zero Template. Otherwise Name is the root name. Exactly "tmpl", "hmpl" and "mst" pick a loader; any other spelling gives an unsupported-language error with nil T. |
| DatiTemplate.SupportedButNotLoadable | template.go:221-236 | "TMPL", ".tmpl" and ".MST" pass the support check even though the case-sensitive switch refuses them. |
| DatiTemplate.PartialNameOfFile | template.go:120-123 | A partial is keyed by its stem when the root is mustache, and by its file name otherwise. |
| DatiTemplate.PartialsReadShape | template.go:119-135 | The loop fails exactly when some partial does not stat or open. Otherwise every path's key is in the map, and every key in the map comes from a path. |
| DatiTemplate.PartialsReadStops | template.go:125-132 | Once a partial has failed, later paths change nothing. |
| DatiTemplate.PartialsReadFirstFailure | template.go:125-132 | The error returned is that of the first failing path, with stat checked before open. |
| DatiTemplate.PartialsReadLastWins | template.go:134 | Each key holds the file of the last path with that key. |
| DatiTemplate.ReadPartials | template.go:118-135 | The partial loop computes PartialsRead. |
| DatiTemplate.LoadTemplateFilepath | template.go:99-138 | Root stat, directory and open failures, then the first failing partial, return before any parsing. Otherwise LoadTemplate runs with the root's extension, root name and partials map. |
| DatiTemplate.Execute | template.go:67-94 | A nil T gives "template.T is nil". An unknown type gives "unable to infer template type" with no call made. The Go engines call Execute and mustache calls FRender, and the call's error is returned. A nil engine template still has its type, so the call is made, and it panics. |
| DatiTemplate.ExecuteAfterLoad | template.go:67-94 | What LoadTemplate returns panics when executed exactly when one of the three loaders failed and left a nil engine template in T. |
| DatiTemplate.GoLoadFailsNil | template.go:152-190 | loadTemplateTmpl/Hmpl leave a nil template exactly when they return an error. |
| DatiTemplate.MstLoadFailsNil | template.go:192-212 | loadTemplateMst leaves a nil template exactly when it returns an error. |
| DatiTemplate.ExecuteCallsOnlyEngines | template.go:75-91 | A library call is made exactly when T holds one of the engines' templates, and FRender exactly for mustache. |
| SrcData.GetDataType | src/data.go:37-39 | The extension without its dot, with case kept. |
| SrcData.DataTypeOfFileName | src/data.go:37-39 | "stem.ext" has data type "ext". |
| SrcData.LoadData | src/data.go:56-75 | A read failure and empty input both give an empty map. Only exactly "json", "yaml" and "toml" are decoded. Any other name is an error with no keys. |
| SrcData.UpperCaseLangRejected | src/data.go:64-72 | "JSON" and "Yaml" are refused: language names are case-sensitive. |
| SrcData.LoadDataFile | src/data.go:79-88 | An open failure is warned about and returned. Otherwise the file is loaded in the language its extension names. |
| SrcData.UpperCaseExtensionFails | src/data.go:85 | A ".JSON" file is not loaded, however good its content. |
| SrcData.LoadOne | src/data.go:108-113 | A file that loads is stored under its path. A failing file is warned about and skipped. |
| SrcData.LoadOneKeepsOnlyLoaded | src/data.go:108-113 | Loading one file keeps every earlier key, and adds only a file that loaded, with its value. |
| SrcData.LoadPath | src/data.go:102-125 | A path that does not stat is passed over silently. |
| SrcData.WalkStops | src/data.go:105-116 | Once the callback has returned an error, later entries are not visited. |
| SrcData.WalkKeepsOnlyLoaded | src/data.go:105-116 | A walk adds only files that loaded, with their loaded value, and keeps earlier keys. |
| SrcData.LoadPathsKeepsOnlyLoaded | src/data.go:101-126 | Every path in the result loaded without error, and it holds the value it loaded. |
| SrcData.LoadPathsGrows | src/data.go:101-126 | A failing path never stops the batch: what was loaded before stays. |
| SrcData.TopLevelFileLoaded | src/data.go:120-121 | A top-level file that loads is in the result, whatever the other paths do. |
| SrcData.LoadAll | src/data.go:97-126 | The loading loop computes LoadPaths. |
| SrcData.Walk | src/data.go:105-116 | filepath.Walk with the callback visits the entries in order until the callback returns an error. |
| SrcData.Bases | src/data.go:162-164 | The base name of each path, in order. |
| SrcData.MapBases | src/data.go:161-164 | The base names of the map's keys, in some enumeration of them. |
| SrcData.GroupByBase | src/data.go:177-181 | The inner loop collects exactly the entries whose base name is the name, each once. |
| SrcData.Gather | src/data.go:167-183 | The outer loop gives entries in base-name order. Each path is repeated once for each occurrence of its base name in the names. The result is one run per name, and each run lists every path with that base name once. |
| SrcData.ReverseSorted | src/data.go:168 | Walking an ascending list backwards gives a descending one. |
| SrcData.SortFileDataFilename | src/data.go:159-185 | Entries come in base-name order, and each path appears once for every path sharing its base name. The entries for one base name are that many consecutive runs, and each run lists every path with that base name once. |
| SrcData.DistinctBasesGivePermutation | src/data.go:159-185 | With distinct base names, the result is a permutation of the map's values. |
| SrcData.SharedBaseDuplicates | src/data.go:176-182 | Two paths with the same file name in different directories each appear twice, giving four entries. |
| SrcData.StatKeys | src/data.go:189-196 | The paths that stat keep their times. Each path that does not stat draws exactly one warning. |
| SrcData.SortFileDataModified | src/data.go:187-223 | Every path that stats appears exactly once, in modification-time order. The others are dropped, each with a warning. |
| SrcData.ModifiedOrder | src/data.go:212-220 | The paths picked in time order give the values sortFileDataModified returns. |
| SrcData.Values | src/data.go:151-153 | The map's values, each once, in some enumeration of the keys. |
| SrcData.SortFileData | src/data.go:131-157 | An order starting "filename" sorts by base name, descending only for exactly "filename-desc". "modified" works the same way. Anything else gives the values in map iteration order. |
| SrcData.FilenameOrdersAscend | src/data.go:134-141 | "filename-asc", and any other "filename..." order except "filename-desc", sorts ascending. |
| SrcData.LoadDataFiles | src/data.go:92-129 | What was loaded (with the loading warnings) is then ordered by sortFileData. |
| SrcData.GenerateSuperData | src/data.go:227-239 | The key defaults to "data". The data list is stored under it, and every other key is the merge of the global data. A non-nil global value there draws a warning. |
| SrcData.SuperDataContents | src/data.go:227-239 | The data key holds the list. Every other key holds the first non-nil global value. |
| SrcData.MergeData | src/data.go:244-256 | The merged map is Merged(data), which is first-non-nil wins. Each key whose stored value is already non-nil draws one conflict warning. |
| SrcData.MergeOne | src/data.go:247-253 | One container is absorbed, and its conflicts are warned about. |
| SrcData.MergeKey | src/data.go:248-252 | A key is stored unless a non-nil value is already there, in which case it is warned about. |
| SrcData.AbsorbedAll | src/data.go:247-253 | Having absorbed every key of a container is Absorb. |
| SrcTemplate.Exts | src/template.go:47 | Each dialect has two extensions. |
| SrcTemplate.PartialsLoop | src/template.go:42-62 | Each warning names a partial and its error. The hmpl loop ends with no error. The tmpl loop can end with an error only as the last partial's warned error. |
| SrcTemplate.LoadGo | src/template.go:39-94 | The root is parsed first. A root that fails returns at once. The hmpl loader never fails because of a partial. The tmpl loader can fail only with the last partial's error. |
| SrcTemplate.LoadGoTemplateFile | src/template.go:39-94 | The loader computes LoadGo. |
| SrcTemplate.LoadPartial | src/template.go:43-57 | One partial is parsed as its classification asks. A directory is globbed twice, and the second glob's result wins. |
| SrcTemplate.SameDialectParsedAsFile | src/template.go:47-48 | A partial with one of the dialect's extensions is parsed as a file. |
| SrcTemplate.OtherDialectRefused | src/template.go:46-56 | A plain file of the other dialect gives "non-matching filetype", and the template is left as it was. |
| SrcTemplate.SetAt | src/template.go:102 | `partials[p] = v` changes only that element of the slice. |
| SrcTemplate.RemoveAt | src/template.go:99 | `append(partials[:p], partials[p+1:]...)` moves the tail down one place in the same array. |
| SrcTemplate.Append | src/template.go:109 | Append adds at the end, in place while capacity allows. |
| SrcTemplate.SliceSet | src/template.go:102 | The element write on the caller's array is SetAt on the slice state. |
| SrcTemplate.SliceRemove | src/template.go:99 | The in-place removal on the caller's array is RemoveAt on the slice state. |
| SrcTemplate.SliceAppend | src/template.go:109 | The append writes into the same array while capacity allows, and into a fresh one otherwise. Either way it is Append on the slice state. |
| SrcTemplate.MstStep | src/template.go:98-111 | One iteration keeps the slice state well formed. A warning names the partial and the still-nil error. |
| SrcTemplate.MstFrom | src/template.go:97-112 | Every warning is a skipped partial reported with a nil error. The run also records what the array the range reads holds when the loop ends or panics. |
| SrcTemplate.ShiftDown | src/template.go:99 | The elements after p move down one place. |
| SrcTemplate.WriteFrom | src/template.go:109 | Copies a sequence into the array at a position and changes nothing else. |
| SrcTemplate.RewriteMstPartials | src/template.go:97-112 | The range loop over the caller's array computes MstRewrite, including its panics and its reading of the shrunken slice. The caller's array is left as MstRewrite's buffer: shifted down and rewritten in place until an append moves the slice to a new array. |
| SrcTemplate.MstIterate | src/template.go:98-111 | One iteration on the arrays is MstStep. |
| SrcTemplate.MstCheckedIterate | src/template.go:98-111 | One iteration keeps the loop's account of the whole run: a panic leaves the run's final record, with the caller's array as it stands, and any other step moves the loop one partial on. |
| SrcTemplate.SearchPaths | src/template.go:101-102 | A file is replaced by its directory; a directory stays. |
| SrcTemplate.PlainPartialsRewritten | src/template.go:97-112 | When every partial exists and none is a directory to glob, each file becomes its directory, whatever the spare capacity, with no warning. The caller's array then holds those directories, followed by its spare elements unchanged. |
| SrcTemplate.RemovalSkipsNext | src/template.go:97-102 | After a missing partial is removed, the next partial is skipped and stays a file path. The caller, whose slice keeps its length, sees the array shifted down with its last element repeated. |
| SrcTemplate.RemovalThenFilesPanics | src/template.go:97-102 | A missing partial followed by two files makes the loop write past the shrunken slice, which panics. At the panic the array holds the shifted partials with the second file already made a directory. |
| SrcTemplate.LoadTemplateFile | src/template.go:126-149 | An empty root, a root that does not stat, and a directory are refused. Otherwise the exact extension picks the loader. Only a mustache root rewrites the caller's partials array, as MstRewrite's buffer; every other outcome leaves it unchanged. |
| SrcTemplate.DispatchByExtension | src/template.go:138-147 | tmpl/gotmpl give a text template and hmpl/gohmpl an html one. mst/mustache give a mustache template or panic. Anything else is an unsupported-language error with a nil template. |
| SrcTemplate.OutcomeOfType | src/template.go:138-147 | The same dispatch, stated for the template type of a regular root file. |
| SrcTemplate.ExecuteTemplate | src/template.go:153-175 | It panics exactly when the type is neither *template.Template nor *mustache.Template, or the template is a nil one of those types, whose Execute or FRender dereferences it. Otherwise the Go engines call Execute and mustache calls FRender. |
| SrcTemplate.LoadedTemplatesExecute | src/template.go:126-175 | Whatever LoadTemplateFile returns without an error has one of the two known types, so executing it panics exactly when the template is nil. |
| SrcTemplate.NilHtmlTemplatePanics | src/template.go:67-94 | A partial directory whose second ParseGlob fails makes the hmpl loader return a nil template with no error, after one warning. Executing that template panics. |
| CliCommon.StripDashes | cmd/dati.go:177-181 | Every leading dash is stripped and counted. |
| CliCommon.FlagOf | cmd/dati.go:176-186 | The name after the dashes, or no flag when there are more than two dashes. It never starts with a dash. |
| CliCommon.OneDashFlag | cmd/suti.go:155-161 | "-name" sets flag "name". |
| CliCommon.ThreeDashesBad | cmd/suti.go:163-166 | Three or more dashes name no flag. |
| CliCommon.SetDefaultOptions | cmd/dati.go:247-255 | An empty sort order becomes "filename" and an empty data key becomes "data". Set fields are kept, and nothing else changes. |
| CliCommon.DefaultsIdempotent | cmd/suti.go:228-236 | Filling in the defaults twice is filling them in once. |
| CliCommon.LineArgsShape | cmd/dati.go:235-243 | A config line gives one argument more than it has '='. None of the arguments holds a '=', and the first starts with '-'. |
| CliCommon.TrimmedPiece | cmd/dati.go:237-240 | A piece is trimmed, and the first is made a flag. |
| CliCommon.KeyValueLine | cmd/suti.go:217-223 | "name = value" gives "-name" and "value", both trimmed. |
| CliCommon.ConfigArgsConcat | src/suti.go:143-151 | The config file's arguments are its lines' arguments, in order. |
| CliCommon.ConfigArgsCount | src/suti.go:143-151 | Each line contributes at least one argument. |
| CliCommon.ConfigToArgs | cmd/dati.go:233-243 | The scanning loop computes ConfigArgs. |
| CliCommon.LineToArgs | cmd/dati.go:236-242 | The inner loop computes one line's arguments. |
| CliCommon.PieceArg | cmd/dati.go:237-240 | One piece, trimmed, with the first made a flag. |
| Cli.ValueStepGrows | cmd/dati.go:200-219 | A value only grows the options. Otherwise it clears the flag with an ignoring-flag warning, or changes nothing. |
| Cli.GiveValue | cmd/dati.go:200-219 | The else-if chain computes ValueStep. |
| Cli.Step | cmd/dati.go:174-219 | A turn of the loop keeps the argument count. It moves to the next argument, or re-reads a shorter one after a split. |
| Cli.FlagMove | cmd/dati.go:175-199 | The flag branch either moves on or re-reads the rewritten argument, which is shorter. |
| Cli.StepValue | cmd/dati.go:200-219 | A plain argument is a value for the current flag. |
| Cli.StepFlag | cmd/suti.go:155-161 | "-name" sets the current flag. |
| Cli.ParseFrom | cmd/dati.go:173-220 | The parse leaves as many arguments as it found. |
| Cli.ParseGrows | cmd/dati.go:170-223 | A parse keeps earlier warnings. Lists only grow, and a root path once set stays. |
| Cli.ReadFlag | cmd/dati.go:175-199 | The dashes are stripped, more than two are refused, "-f=v" is split with "v" written back into args[a], and help is checked. |
| Cli.ParseArgs | cmd/dati.go:170-223 | The result, and the caller's argument array as rewritten, are those of ParseFrom. |
| Cli.Turn | cmd/dati.go:173-219 | One turn either stops the program, or goes on at the next argument or at a shortened current one. |
| Cli.ParseConfig | cmd/dati.go:225-245 | A file that cannot be opened is warned about and reads as no lines. Otherwise its arguments are parsed on top of the existing options. |
| Cli.ParseFromSuffix | cmd/dati.go:173-220 | The parse from an argument on does not depend on earlier arguments. |
| Cli.EqualsSameAsSeparate | cmd/dati.go:188-193 | "-name=value" parses exactly as "-name" followed by "value". |
| Cli.RootFirstWins | cmd/dati.go:200-201 | The root takes its first value. A second value draws an ignoring-flag warning. |
| Cli.ShortDataKeyLastWins | cmd/dati.go:208-209 | "-dk" sets the key every time, so the last value wins. |
| Cli.LongDataKeyFirstWins | cmd/suti.go:188-189 | "-datakey" sets only an empty key, so the first value wins and a second is refused. |
| Cli.LongDataKeyValue | cmd/dati.go:208-209 | A "-datakey" value sets an empty key and is refused once a key is set. |
| Cli.BasedirAll | cmd/dati.go:68-73 | Each path is kept when absolute, and joined onto the working directory otherwise. |
| Cli.PartialsAppended | cmd/suti.go:182-183 | The values after "-p" are appended, through basedir, in order. |
| Cli.PartialValue | cmd/dati.go:202-203 | A "-p" value is appended through basedir. |
| Cli.ValuesSkipped | cmd/dati.go:214-215 | Values with no current flag are skipped without a warning. |
| Cli.StepKeepsUndashed | cmd/dati.go:175-193 | From a flag with no leading '-', one turn leads to such a flag again, and the `flag != "--"` test changes nothing. |
| Cli.FlagNeverDashed | cmd/dati.go:170-220 | The parse equals the same parse without the `flag != "--"` guard, so the guard is dead. |
| Cli.UnknownValue | cmd/dati.go:216-219 | A value for an unknown flag draws an ignoring-flag warning and clears the flag. |
| Cli.DashedUnknown | cmd/dati.go:200-213 | No flag the value chain knows holds '-'. |
| Cli.UnknownFlagIgnored | cmd/dati.go:175-219 | "-name v" for an unknown name draws one ignoring-flag warning and sets nothing. |
| Cli.HelpTextNamesIgnored | cmd/dati.go:142-154 | The help text's "global-data", "data-key" and "sort-data" are not recognised: a value after one only draws an ignoring-flag warning. |
| Cli.ThreeDashesIgnored | cmd/dati.go:183-186 | "---x" is warned about, and the values after it change nothing. |
| Cli.HelpStops | cmd/suti.go:176-179 | "-h" exits before any later argument is read. |
| Cli.EmptyValuePanics | cmd/dati.go:174-175 | A config line "name=" gives an empty argument, and arg[0] panics on it. |
| SrcSuti.Basedir | src/suti.go:46-54 | An absolute path is kept. A relative one becomes what filepath.Rel returns, and a failure is warned about. |
| SrcSuti.GiveValue | src/suti.go:107-126 | The else-if chain computes ValueStep. |
| SrcSuti.ParseArgs | src/suti.go:88-130 | The loop computes ParseResult. |
| SrcSuti.ParseConfig | src/suti.go:132-153 | A file that cannot be opened is warned about and reads as no lines. Otherwise its arguments are parsed on top. |
| SrcSuti.PanicsIffEmpty | src/suti.go:91-93 | The parse panics exactly when an argument it still has to read is empty. |
| SrcSuti.FlagNeverDashed | src/suti.go:93-99 | The stored flag never starts with '-', so the `flag != "--"` guard never fails. |
| SrcSuti.ScanGrows | src/suti.go:107-126 | A parse keeps earlier warnings. Lists only grow, and a root path once set stays. |
| SrcSuti.DataAppendedRaw | src/suti.go:113-114 | The values after "-d" are appended as written, in order. |
| SrcSuti.DataValue | src/suti.go:113-114 | A "-d" value is appended as written. |
| SrcSuti.ValuesSkipped | src/suti.go:121-122 | Values with no current flag are skipped without a warning. |
| SrcSuti.FirstFlag | src/suti.go:93-99 | A leading "-name" sets the flag and nothing else. |
| SrcSuti.DataPathsAsGiven | src/suti.go:113-114 | "-d" followed by values gives exactly those data paths. |
| SrcSuti.ThreeDashesIgnored | src/suti.go:101-104 | "---x" is warned about, and the values after it change nothing. |
| SrcSuti.FlagThenValue | src/suti.go:93-126 | A flag followed by a value gives the state that value leads to. |
| SrcSuti.UnknownValue | src/suti.go:123-126 | A value for an unknown flag draws an ignoring-flag warning and clears the flag. |
| SrcSuti.EqualsUnknown | src/suti.go:107-120 | No known flag holds '='. |
| SrcSuti.EqualsNotSplit | src/suti.go:93-126 | "-name=value" is not split. The following value is refused under the unknown flag "name=value". |
| SrcSuti.HelpIsUnknown | src/suti.go:106-126 | There is no help flag: "-h v" refuses v under the unknown flag "h". |
| SrcSuti.RootFirstWins | src/suti.go:107-108 | The root takes its first value, and a second draws a warning. |
| SrcSuti.RootValue | src/suti.go:107-108 | A "-r" value sets an empty root and is refused once a root is set. |
| SrcSuti.ShortDataKeyLastWins | src/suti.go:115-116 | "-dk" is last-wins. |
| SrcSuti.ShortDataKeyValue | src/suti.go:115-116 | A "-dk" value always sets the key. |
| SrcSuti.LongDataKeyFirstWins | src/suti.go:115-116 | "-datakey" is first-wins, and a second value is refused. |
| SrcSuti.LongDataKeyValue | src/suti.go:115-116 | A "-datakey" value sets only an empty key. |
| Suti.GiveValue | suti.go:65-82 | The else-if chain computes ValueStep. |
| Suti.ParseArgs | suti.go:46-86 | The loop computes ParseResult. |
| Suti.PanicsIffEmpty | suti.go:48-50 | The parse panics exactly when an argument it still has to read is empty. |
| Suti.FlagNeverDashed | suti.go:50-56 | The stored flag never starts with '-'. |
| Suti.ScanGrows | suti.go:65-82 | A parse keeps earlier warnings, and lists only grow. |
| Suti.ListAppended | suti.go:65-70 | The values after -t, -gd or -d are appended to their list as written, in order, without a warning. |
| Suti.ListValue | suti.go:65-70 | A list flag's value is appended to its list. |
| Suti.AppendTwice | suti.go:65-70 | Appending to a list flag twice is appending the two value lists joined. |
| Suti.SettingLastWins | suti.go:71-76 | After -dk/-datakey, -sd/-sortdata or -cfg/-config, the last value given is the setting. |
| Suti.SettingValue | suti.go:71-76 | A setting flag's value overwrites the setting, and a later one overwrites it again. |
| Suti.ValuesSkipped | suti.go:77-78 | Values with no current flag are skipped without a warning. |
| Suti.UnknownFlagWarned | suti.go:79-82 | An unknown flag is warned about once, at its first value, and it and later values change nothing. |
| Suti.FirstFlag | suti.go:50-56 | A leading "-name" sets the flag and nothing else. |
| Suti.DataPathsAsGiven | suti.go:69-70 | "-d" followed by values gives exactly those data paths. |
| Suti.DataKeyLastWins | suti.go:71-72 | "-dk a b" sets the data key to b. |
| Suti.ThreeDashesIgnored | suti.go:58-61 | "---x" is warned about, and the values after it change nothing. |
| Suti.EqualsUnknown | suti.go:65-76 | No list or setting flag holds '='. |
| Suti.EqualsNotSplit | suti.go:50-82 | "-name=value" is not split, and is warned about as an unknown flag at its value. |
| Suti.LoadData | suti.go:144-157 | A read failure is returned with no value. Only exactly "json" is decoded, and any other name is an error with no value. |
| Suti.LoadDataFile | suti.go:130-141 | An open failure is returned as it is. Otherwise the language is the extension without its dot, with case kept. |
| Suti.ExtensionDecides | suti.go:136-137 | A readable "*.json" file is decoded. ".JSON" or any other extension is refused. |
| Suti.VisitOk | suti.go:104-115 | An entry the callback accepts adds a file under its path, or passes over a directory, and the walk goes on. |
| Suti.WalkFailsIff | suti.go:103-116 | The walk ends in an error exactly when an entry it still has to visit fails. |
| Suti.WalkStopsAt | suti.go:103-116 | The entries after the first failing one are never visited. |
| Suti.WalkKeeps | suti.go:103-116 | A walk keeps earlier paths and earlier warnings. |
| Suti.WalkKeepsOnlyLoaded | suti.go:105-108 | A walk adds only files that load, each with the value it decodes to. |
| Suti.WalkLoadsAll | suti.go:103-116 | A walk in which nothing fails loads every file it visits. |
| Suti.StatFailureSkipped | suti.go:97-100 | A path that does not stat draws one warning and changes nothing else. |
| Suti.LoadPathKeeps | suti.go:96-124 | One top-level path keeps earlier paths and warnings. |
| Suti.LoadPathKeepsOnlyLoaded | suti.go:96-124 | One top-level path adds only files that load, each with its decoded value. |
| Suti.LoadFromKeeps | suti.go:96-124 | A failing path never stops the batch. |
| Suti.LoadFromOnlyLoaded | suti.go:96-124 | Only files that load are kept, each with its decoded value. |
| Suti.TopLevelFileLoaded | suti.go:117-119 | A top-level file that loads is in the result, whatever the other paths do. |
| Suti.LoadDataFiles | suti.go:89-127 | The loop computes LoadFrom, and everything kept loaded without error. |
| Suti.Walk | suti.go:103-116 | filepath.Walk with the callback visits the entries in order until the callback returns an error. |

## Left out

- JSON, YAML and TOML decoding: the decoders are function parameters that return a value and possibly an error message.
- Template parsing and rendering: text/template, html/template and mustache are function parameters. What a ParseFiles or ParseGlob method does on a nil template is left to that parameter: html/template starts a new template there, while text/template panics. So the panic of a tmpl loader that parses again after a failed parse is not modelled. Reflection (`reflect.TypeOf(...).String()`, `MethodByName`) is a dispatch on a tagged union whose cases are the dynamic types.
- Filesystem access: `os.Stat`, `os.Open`, `ioutil.ReadAll`, `filepath.Walk` and `filepath.Glob` are fields of an input value. Modification times are integers, so `time.Time` locations and monotonic readings are not modelled.
- `filepath.Join`, `filepath.Rel` and `filepath.Dir` are function parameters. Path cleaning is not modelled, and paths are Unix paths.
- `strings.ToLower` is modelled for ASCII letters only. Strings are sequences of characters rather than UTF-8 bytes; every character the core inspects ('-', '.', '/', '=', '*') is ASCII.
- Go map iteration order: any key may come next, so results that depend on it (sortFileData's fallback, the merge warnings, the tmpl/hmpl partial loops) are stated for every order.
- `loadGlobPaths` (src/data.go:41-53) and `loadFilePaths` (cmd/dati.go:258-282): glob and walk expansion of command-line paths. Their in-place slice edits depend on glob results; the loaders take the expanded paths.
- `LoadTemplateString` (template.go:144-150) and `WriteData`/`WriteDataFile` are not part of this model.
- The command-line glue: `init`, `main`, `help` text, `warn`/`assert` message formatting, `os.Exit` and printing. Warnings are values, and help is an outcome.
- `parseConfig` is given the file's lines, so bufio.Scanner's own line splitting and its token-size limit are not modelled.
- `defer f.Close()` and close errors are not modelled.
- suti.go's `main` prints the loaded map; that printing is not modelled.
- Go's nil map versus empty map: an empty map stands for both.
- SrcData.MergeData: the conflict warnings are stated as a multiset, because their order follows map iteration order.
- SrcData.GenerateSuperData: its warnings are stated as a multiset, for the same reason. Its `DataKeyOverwritten(key)` warning carries the key, but the text Go prints does not name it: src/data.go:234-235 passes a fixed sentence where the format's `%s` expects the key.
- SrcData.LoadDataFiles: the sort's own warnings are stated after the loading warnings. The loading part is exact.
- GoSort.SortStrings: stated as sorted and a permutation, which is all sort.Slice promises (it is not stable). The order of ties is left open.
- GoSort.SortTimes: stated as sorted and a permutation, for the same reason.
