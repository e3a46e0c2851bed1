/**
 * src/data.go: loading data files of the second generation, skipping the
 * ones that fail, ordering the loaded data, and merging global data into
 * the "super data" a template is executed with.
 *
 * The decoders are a parameter (`Decoder`): given the language and the
 * bytes read, the map Unmarshal leaves and, possibly, an error message.
 * Warnings printed with `warn` are collected in order in a log.
 */
module SrcData {
  import opened Common
  import opened GoStrings
  import opened GoSort
  import opened Merging
  import DatiFile

  type Decoder = (string, seq<byte>) -> (Data, Option<string>)

  /** getDataType: the extension without its dot, case kept. */
  function GetDataType(path: string): (r: string)
    ensures '.' !in r && '/' !in r
    ensures Ext(path) == "" ==> r == ""
    ensures Ext(path) != "" ==> Ext(path) == "." + r
  {
    TrimDot(Ext(path))
  }

  lemma DataTypeOfFileName(stem: string, ext: string)
    requires '.' !in ext && '/' !in ext
    ensures GetDataType(stem + "." + ext) == ext
  {
    ExtOfSuffix(stem, ext);
  }

  /**
   * LoadData: a read failure and empty input come back with an empty map;
   * only the exact names "json", "yaml" and "toml" are decoded, and any
   * other name is an error with no keys.
   */
  function LoadData(lang: string, input: Input, decode: Decoder): (r: (Data, Option<Error>))
    ensures input.Unreadable? ==> r == (map[], Some(ReadFailed(input.msg)))
    ensures input == Bytes([]) ==> r == (map[], None)
    ensures input.Bytes? && input.content != [] && lang !in {"json", "yaml", "toml"} ==>
      r == (map[], Some(UnsupportedDataLang(lang)))
    ensures input.Bytes? && input.content != [] && lang in {"json", "yaml", "toml"} ==>
      r.0 == decode(lang, input.content).0 && (r.1.None? <==> decode(lang, input.content).1.None?)
  {
    match input
    case Unreadable(msg) => (map[], Some(ReadFailed(msg)))
    case Bytes(buf) =>
      if |buf| == 0 then (map[], None)
      else if lang == "json" || lang == "yaml" || lang == "toml" then
        var (d, e) := decode(lang, buf);
        (d, if e.Some? then Some(DecodeFailed(e.value)) else None)
      else (map[], Some(UnsupportedDataLang(lang)))
  }

  /** Language names are case-sensitive: an upper-case name is never decoded. */
  lemma UpperCaseLangRejected(input: Input, decode: Decoder)
    requires input.Bytes? && input.content != []
    ensures LoadData("JSON", input, decode) == (map[], Some(UnsupportedDataLang("JSON")))
    ensures LoadData("Yaml", input, decode) == (map[], Some(UnsupportedDataLang("Yaml")))
  {
  }

  /**
   * LoadDataFile: an open failure is warned about and returned as it is;
   * otherwise the file is loaded in the language its extension names.
   */
  function LoadDataFile(path: string, fs: Fs, decode: Decoder): (r: (Data, Option<Error>, seq<Warning>))
    ensures path !in fs.files ==> r == (map[], Some(OpenFailed(path)), [CouldNotLoad(path, OpenFailed(path))])
    ensures path in fs.files ==> r.2 == [] && (r.0, r.1) == LoadData(GetDataType(path), fs.files[path], decode)
  {
    if path !in fs.files then (map[], Some(OpenFailed(path)), [CouldNotLoad(path, OpenFailed(path))])
    else
      var (d, e) := LoadData(GetDataType(path), fs.files[path], decode);
      (d, e, [])
  }

  /** A file whose extension is in upper case is not loaded, however good its content. */
  lemma UpperCaseExtensionFails(stem: string, fs: Fs, decode: Decoder)
    requires stem + ".JSON" in fs.files
    requires fs.files[stem + ".JSON"].Bytes? && fs.files[stem + ".JSON"].content != []
    ensures LoadDataFile(stem + ".JSON", fs, decode).1 == Some(UnsupportedDataLang("JSON"))
  {
    var p := stem + ".JSON";
    assert p == stem + "." + "JSON";
    DataTypeOfFileName(stem, "JSON");
    UpperCaseLangRejected(fs.files[p], decode);
  }

  /** What the loading loop has built so far: the loaded map and the warnings printed. */
  datatype LoadState = LoadState(loaded: map<string, Data>, warnings: seq<Warning>)

  /** Loading one file: kept under its path on success, warned about and skipped on failure. */
  function LoadOne(s: LoadState, p: string, fs: Fs, decode: Decoder): (r: LoadState)
    ensures LoadDataFile(p, fs, decode).1.None? ==>
      r.loaded == s.loaded[p := LoadDataFile(p, fs, decode).0] && r.warnings == s.warnings
    ensures LoadDataFile(p, fs, decode).1.Some? ==>
      r.loaded == s.loaded
      && r.warnings == s.warnings + LoadDataFile(p, fs, decode).2
                       + [SkippingDataFile(p, LoadDataFile(p, fs, decode).1.value)]
  {
    var (d, e, w) := LoadDataFile(p, fs, decode);
    if e.None? then LoadState(s.loaded[p := d], s.warnings + w)
    else LoadState(s.loaded, s.warnings + w + [SkippingDataFile(p, e.value)])
  }

  /**
   * The walk callback over the first entries of a walk: files are loaded,
   * directories passed over, and an error handed to the callback is
   * returned by it, which ends the walk with that error.
   */
  function WalkPrefix(s: LoadState, entries: seq<WalkEntry>, fs: Fs, decode: Decoder): (r: (LoadState, Option<string>))
  {
    if entries == [] then (s, None)
    else
      var n := |entries| - 1;
      var (s', err) := WalkPrefix(s, entries[..n], fs, decode);
      if err.Some? then (s', err)
      else match entries[n]
        case WalkError(_, msg) => (s', Some(msg))
        case Visit(p, isDir) => if isDir then (s', None) else (LoadOne(s', p, fs, decode), None)
  }

  /** Once the callback has returned an error, later entries are not visited. */
  lemma {:induction false} WalkStops(s: LoadState, entries: seq<WalkEntry>, fs: Fs, decode: Decoder, k: nat)
    requires k <= |entries|
    requires WalkPrefix(s, entries[..k], fs, decode).1.Some?
    ensures WalkPrefix(s, entries, fs, decode) == WalkPrefix(s, entries[..k], fs, decode)
    decreases |entries| - k
  {
    if k < |entries| {
      var n := |entries| - 1;
      assert entries[..n][..k] == entries[..k];
      WalkStops(s, entries[..n], fs, decode, k);
    } else {
      assert entries[..k] == entries;
    }
  }

  /**
   * One top-level path: a path os.Stat fails on is passed over without a
   * word; a directory is walked, a walk error being warned about; a file is
   * loaded as by the walk callback.
   */
  function LoadPath(s: LoadState, path: string, fs: Fs, decode: Decoder): (r: LoadState)
    ensures path !in fs.stat ==> r == s
  {
    if path !in fs.stat then s
    else if fs.stat[path].isDir then
      var (s', err) := WalkPrefix(s, fs.Walk(path), fs, decode);
      if err.Some? then LoadState(s'.loaded, s'.warnings + [ErrorLoadingFiles(path, WalkFailed(err.value))])
      else s'
    else LoadOne(s, path, fs, decode)
  }

  /** The loading loop over all top-level paths, from no data and no warnings. */
  function LoadPaths(paths: seq<string>, fs: Fs, decode: Decoder): LoadState {
    if paths == [] then LoadState(map[], [])
    else LoadPath(LoadPaths(paths[..|paths| - 1], fs, decode), paths[|paths| - 1], fs, decode)
  }

  /** Nothing is kept that did not load without error, and it is kept as it loaded. */
  predicate OnlyLoaded(loaded: map<string, Data>, fs: Fs, decode: Decoder) {
    forall p | p in loaded :: LoadDataFile(p, fs, decode).1.None? && loaded[p] == LoadDataFile(p, fs, decode).0
  }

  lemma {:induction false} WalkKeepsOnlyLoaded(s: LoadState, entries: seq<WalkEntry>, fs: Fs, decode: Decoder)
    requires OnlyLoaded(s.loaded, fs, decode)
    ensures OnlyLoaded(WalkPrefix(s, entries, fs, decode).0.loaded, fs, decode)
    ensures s.loaded.Keys <= WalkPrefix(s, entries, fs, decode).0.loaded.Keys
  {
    if entries != [] {
      var n := |entries| - 1;
      WalkKeepsOnlyLoaded(s, entries[..n], fs, decode);
      var (s', err) := WalkPrefix(s, entries[..n], fs, decode);
      if err.None? && entries[n].Visit? && !entries[n].isDir {
        LoadOneKeepsOnlyLoaded(s', entries[n].path, fs, decode);
      }
    }
  }

  lemma LoadOneKeepsOnlyLoaded(s: LoadState, p: string, fs: Fs, decode: Decoder)
    requires OnlyLoaded(s.loaded, fs, decode)
    ensures OnlyLoaded(LoadOne(s, p, fs, decode).loaded, fs, decode)
    ensures s.loaded.Keys <= LoadOne(s, p, fs, decode).loaded.Keys
  {
  }

  /** Every path in the result loaded without error, and the result holds what it loaded. */
  lemma {:induction false} LoadPathsKeepsOnlyLoaded(paths: seq<string>, fs: Fs, decode: Decoder)
    ensures OnlyLoaded(LoadPaths(paths, fs, decode).loaded, fs, decode)
  {
    if paths != [] {
      var init := paths[..|paths| - 1];
      var path := paths[|paths| - 1];
      LoadPathsKeepsOnlyLoaded(init, fs, decode);
      if path in fs.stat && fs.stat[path].isDir {
        WalkKeepsOnlyLoaded(LoadPaths(init, fs, decode), fs.Walk(path), fs, decode);
      }
    }
  }

  /** A failing path never stops the batch: what was loaded before stays loaded. */
  lemma {:induction false} LoadPathsGrows(paths: seq<string>, fs: Fs, decode: Decoder, k: nat)
    requires k <= |paths|
    ensures LoadPaths(paths[..k], fs, decode).loaded.Keys <= LoadPaths(paths, fs, decode).loaded.Keys
    decreases |paths| - k
  {
    if k < |paths| {
      var init := paths[..|paths| - 1];
      assert init[..k] == paths[..k];
      LoadPathsGrows(init, fs, decode, k);
      var s := LoadPaths(init, fs, decode);
      var path := paths[|paths| - 1];
      if path in fs.stat && fs.stat[path].isDir {
        WalkKeepsOnlyLoaded(LoadState(map[], []), [], fs, decode);
        WalkGrows(s, fs.Walk(path), fs, decode);
      }
    } else {
      assert paths[..k] == paths;
    }
  }

  lemma {:induction false} WalkGrows(s: LoadState, entries: seq<WalkEntry>, fs: Fs, decode: Decoder)
    ensures s.loaded.Keys <= WalkPrefix(s, entries, fs, decode).0.loaded.Keys
  {
    if entries != [] {
      WalkGrows(s, entries[..|entries| - 1], fs, decode);
    }
  }

  /** A top-level file that loads is in the result, whatever the other paths do. */
  lemma TopLevelFileLoaded(paths: seq<string>, fs: Fs, decode: Decoder, i: nat)
    requires i < |paths| && paths[i] in fs.stat && !fs.stat[paths[i]].isDir
    requires LoadDataFile(paths[i], fs, decode).1.None?
    ensures paths[i] in LoadPaths(paths, fs, decode).loaded
  {
    assert paths[..i + 1][..i] == paths[..i];
    LoadPathsGrows(paths, fs, decode, i + 1);
  }

  /** LoadDataFiles' loop, the walk callback writing into `loaded` and the log. */
  method LoadAll(paths: seq<string>, fs: Fs, decode: Decoder) returns (loaded: map<string, Data>, warnings: seq<Warning>)
    ensures LoadState(loaded, warnings) == LoadPaths(paths, fs, decode)
  {
    loaded, warnings := map[], [];
    for i := 0 to |paths|
      invariant LoadState(loaded, warnings) == LoadPaths(paths[..i], fs, decode)
    {
      var path := paths[i];
      assert paths[..i + 1][..i] == paths[..i];
      if path in fs.stat {
        if fs.stat[path].isDir {
          var err;
          loaded, warnings, err := Walk(path, loaded, warnings, fs, decode);
          if err.Some? {
            warnings := warnings + [ErrorLoadingFiles(path, WalkFailed(err.value))];
          }
        } else {
          var (d, e, w) := LoadDataFile(path, fs, decode);
          warnings := warnings + w;
          if e.None? {
            loaded := loaded[path := d];
          } else {
            warnings := warnings + [SkippingDataFile(path, e.value)];
          }
        }
      }
    }
    assert paths[..|paths|] == paths;
  }

  /** filepath.Walk with the loading callback: entries in order until the callback returns an error. */
  method Walk(dir: string, loaded0: map<string, Data>, warnings0: seq<Warning>, fs: Fs, decode: Decoder)
    returns (loaded: map<string, Data>, warnings: seq<Warning>, err: Option<string>)
    ensures (LoadState(loaded, warnings), err) == WalkPrefix(LoadState(loaded0, warnings0), fs.Walk(dir), fs, decode)
  {
    var entries := fs.Walk(dir);
    ghost var s0 := LoadState(loaded0, warnings0);
    loaded, warnings := loaded0, warnings0;
    for i := 0 to |entries|
      invariant WalkPrefix(s0, entries[..i], fs, decode) == (LoadState(loaded, warnings), None)
    {
      assert entries[..i + 1][..i] == entries[..i];
      match entries[i] {
        case WalkError(_, msg) =>
          WalkStops(s0, entries, fs, decode, i + 1);
          return loaded, warnings, Some(msg);
        case Visit(p, isDir) =>
          if !isDir {
            var (d, e, w) := LoadDataFile(p, fs, decode);
            warnings := warnings + w;
            if e.None? {
              loaded := loaded[p := d];
            } else {
              warnings := warnings + [SkippingDataFile(p, e.value)];
            }
          }
      }
    }
    assert entries[..|entries|] == entries;
    err := None;
  }

  /** filepath.Base as a value: the specifications below apply it through this name. */
  const BaseName: string -> string := p => Base(p)

  /** Paths whose base name is `b`. */
  ghost function WithBase(keys: set<string>, b: string): set<string> {
    set q | q in keys && BaseName(q) == b
  }

  /** The base names of `ps`, in order. */
  function Bases(ps: seq<string>): (r: seq<string>)
    ensures |r| == |ps| && forall i :: 0 <= i < |ps| ==> r[i] == BaseName(ps[i])
  {
    seq(|ps|, i requires 0 <= i < |ps| => BaseName(ps[i]))
  }

  lemma {:induction false} CountBases(ps: seq<string>, b: string)
    requires NoDup(ps)
    ensures multiset(Bases(ps))[b] == |WithBase(Elems(ps), b)|
  {
    if ps != [] {
      var init, last := ps[..|ps| - 1], ps[|ps| - 1];
      CountBases(init, b);
      BasesSnoc(ps);
      WithBaseSnoc(ps, b);
    }
  }

  lemma BasesSnoc(ps: seq<string>)
    requires ps != []
    ensures Bases(ps) == Bases(ps[..|ps| - 1]) + [BaseName(ps[|ps| - 1])]
  {
  }

  lemma WithBaseSnoc(ps: seq<string>, b: string)
    requires ps != [] && NoDup(ps)
    ensures NoDup(ps[..|ps| - 1])
    ensures |WithBase(Elems(ps), b)| ==
      |WithBase(Elems(ps[..|ps| - 1]), b)| + if BaseName(ps[|ps| - 1]) == b then 1 else 0
  {
    var init, last := ps[..|ps| - 1], ps[|ps| - 1];
    ElemsSnoc(ps);
    WithBaseAdd(Elems(init), last, b);
  }

  lemma ElemsSnoc(ps: seq<string>)
    requires ps != [] && NoDup(ps)
    ensures NoDup(ps[..|ps| - 1])
    ensures Elems(ps) == Elems(ps[..|ps| - 1]) + {ps[|ps| - 1]} && ps[|ps| - 1] !in Elems(ps[..|ps| - 1])
  {
    var init, last := ps[..|ps| - 1], ps[|ps| - 1];
    assert ps == init + [last];
  }

  lemma WithBaseAdd(keys: set<string>, x: string, b: string)
    requires x !in keys
    ensures |WithBase(keys + {x}, b)| == |WithBase(keys, b)| + if BaseName(x) == b then 1 else 0
  {
    if BaseName(x) == b {
      assert WithBase(keys + {x}, b) == WithBase(keys, b) + {x};
    } else {
      assert WithBase(keys + {x}, b) == WithBase(keys, b);
    }
  }

  lemma NoDupSnoc<T>(s: seq<T>, x: T)
    requires NoDup(s) && x !in s
    ensures NoDup(s + [x]) && Elems(s + [x]) == Elems(s) + {x}
  {
  }

  lemma NoDupCount<T>(s: seq<T>, x: T)
    requires NoDup(s)
    ensures multiset(s)[x] == if x in s then 1 else 0
  {
    if s != [] {
      var init := s[..|s| - 1];
      assert s == init + [s[|s| - 1]];
      NoDupCount(init, x);
    }
  }

  function Reverse<T>(s: seq<T>): (r: seq<T>)
    ensures |r| == |s| && forall i :: 0 <= i < |s| ==> r[i] == s[|s| - 1 - i]
  {
    seq(|s|, i requires 0 <= i < |s| => s[|s| - 1 - i])
  }

  lemma {:induction false} ReverseMultiset<T>(s: seq<T>)
    ensures multiset(Reverse(s)) == multiset(s)
  {
    if s != [] {
      var rest := s[1..];
      ReverseMultiset(rest);
      assert Reverse(s) == Reverse(rest) + [s[0]];
      assert s == [s[0]] + rest;
    }
  }

  /** `for fpath := range data { fnames = append(fnames, filepath.BaseName(fpath)) }`. */
  method MapBases(data: map<string, Data>) returns (fnames: array<string>, ghost visited: seq<string>)
    ensures fresh(fnames)
    ensures NoDup(visited) && Elems(visited) == data.Keys
    ensures fnames[..] == Bases(visited)
  {
    var left := data.Keys;
    var names: seq<string> := [];
    visited := [];
    while left != {}
      invariant left !! Elems(visited) && left + Elems(visited) == data.Keys
      invariant NoDup(visited) && names == Bases(visited)
      decreases |left|
    {
      var fpath :| fpath in left;
      MapBasesStep(data.Keys, left, visited, fpath);
      names := names + [BaseName(fpath)];
      visited := visited + [fpath];
      left := left - {fpath};
    }
    fnames := new string[|names|](j requires 0 <= j < |names| => names[j]);
    assert fnames[..] == names;
  }

  /** One iteration of MapBases keeps its invariant. */
  lemma MapBasesStep(keys: set<string>, left: set<string>, visited: seq<string>, fpath: string)
    requires left !! Elems(visited) && left + Elems(visited) == keys && NoDup(visited)
    requires fpath in left
    ensures left - {fpath} !! Elems(visited + [fpath]) && left - {fpath} + Elems(visited + [fpath]) == keys
    ensures NoDup(visited + [fpath])
    ensures Bases(visited + [fpath]) == Bases(visited) + [BaseName(fpath)]
  {
    NoDupSnoc(visited, fpath);
    BasesSnoc(visited + [fpath]);
    assert (visited + [fpath])[..|visited|] == visited;
  }

  /** The inner loop: every entry of `data` whose base name is `fname`, in map iteration order. */
  method GroupByBase(fname: string, data: map<string, Data>) returns (ds: seq<Data>, ghost ps: seq<string>)
    ensures |ds| == |ps| && NoDup(ps)
    ensures forall i :: 0 <= i < |ps| ==> ps[i] in data && ds[i] == data[ps[i]] && BaseName(ps[i]) == fname
    ensures forall q | q in data && BaseName(q) == fname :: q in ps
  {
    var left := data.Keys;
    ghost var seen: set<string> := {};
    ds, ps := [], [];
    while left != {}
      invariant left !! seen && left + seen == data.Keys
      invariant Grouped(fname, data, seen, ds, ps)
      decreases |left|
    {
      var fpath :| fpath in left;
      GroupStep(fname, data, seen, ds, ps, fpath);
      MoveOne(data.Keys, left, seen, fpath);
      if fname == BaseName(fpath) {
        ds, ps := ds + [data[fpath]], ps + [fpath];
      }
      left, seen := left - {fpath}, seen + {fpath};
    }
  }

  /** `ds`/`ps` hold exactly the entries of `seen` whose base name is `fname`. */
  ghost predicate Grouped(fname: string, data: map<string, Data>, seen: set<string>, ds: seq<Data>, ps: seq<string>) {
    && |ds| == |ps| && NoDup(ps)
    && (forall i :: 0 <= i < |ps| ==> ps[i] in seen && ps[i] in data && ds[i] == data[ps[i]] && BaseName(ps[i]) == fname)
    && (forall q | q in seen && BaseName(q) == fname :: q in ps)
  }

  lemma GroupStep(fname: string, data: map<string, Data>, seen: set<string>, ds: seq<Data>, ps: seq<string>, fpath: string)
    requires Grouped(fname, data, seen, ds, ps) && fpath in data && fpath !in seen
    ensures fname == BaseName(fpath) ==> Grouped(fname, data, seen + {fpath}, ds + [data[fpath]], ps + [fpath])
    ensures fname != BaseName(fpath) ==> Grouped(fname, data, seen + {fpath}, ds, ps)
  {
    if fname == BaseName(fpath) {
      GroupAdd(fname, data, seen, ds, ps, fpath);
    } else {
      GroupSkip(fname, data, seen, ds, ps, fpath);
    }
  }

  lemma GroupAdd(fname: string, data: map<string, Data>, seen: set<string>, ds: seq<Data>, ps: seq<string>, fpath: string)
    requires Grouped(fname, data, seen, ds, ps) && fpath in data && fpath !in seen && fname == BaseName(fpath)
    ensures Grouped(fname, data, seen + {fpath}, ds + [data[fpath]], ps + [fpath])
  {
    assert fpath !in ps;
    NoDupSnoc(ps, fpath);
    var ps', ds' := ps + [fpath], ds + [data[fpath]];
    forall i | 0 <= i < |ps'|
      ensures ps'[i] in seen + {fpath} && ps'[i] in data && ds'[i] == data[ps'[i]] && BaseName(ps'[i]) == fname
    {
      if i < |ps| {
        assert ps'[i] == ps[i] && ds'[i] == ds[i];
      }
    }
  }

  lemma GroupSkip(fname: string, data: map<string, Data>, seen: set<string>, ds: seq<Data>, ps: seq<string>, fpath: string)
    requires Grouped(fname, data, seen, ds, ps) && fname != BaseName(fpath)
    ensures Grouped(fname, data, seen + {fpath}, ds, ps)
  {
  }

  /**
   * The outer loop of sortFileDataFilename over the sorted names (visited
   * from the end when descending): each name contributes every entry whose
   * base name it is.
   */
  method Gather(names: seq<string>, data: map<string, Data>, desc: bool)
    returns (sorted: seq<Data>, ghost src: seq<string>, ghost groups: seq<seq<string>>)
    requires Sorted(names, false, desc)
    ensures Drawn(data, sorted, src)
    ensures Sorted(src, true, desc)
    ensures forall p | p in data :: multiset(src)[p] == multiset(names)[BaseName(p)]
    ensures Runs(data, names, groups, src)
  {
    sorted, src, groups := [], [], [];
    for k := 0 to |names|
      invariant k == 0 ==> src == []
      invariant Drawn(data, sorted, src)
      invariant Sorted(src, true, desc)
      invariant k > 0 ==> forall i :: 0 <= i < |src| ==> InOrder(BaseName(src[i]), names[k - 1], false, desc)
      invariant forall p | p in data :: multiset(src)[p] == multiset(names[..k])[BaseName(p)]
      invariant Runs(data, names[..k], groups, src)
    {
      var ds, ps := GroupByBase(names[k], data);
      GatherStep(names, k, data, desc, src, ps);
      GatherCount(names, k, data, src, ps);
      DrawnConcat(data, sorted, src, ds, ps);
      GroupElems(data, names[k], ps);
      RunsSnoc(data, names, k, groups, src, ps);
      sorted, src, groups := sorted + ds, src + ps, groups + [ps];
    }
    assert names[..|names|] == names;
  }

  /** The runs `groups`, laid end to end. */
  function Concat(groups: seq<seq<string>>): seq<string> {
    if groups == [] then [] else Concat(groups[..|groups| - 1]) + groups[|groups| - 1]
  }

  /**
   * `src` is one run per entry of `names`, in order, and each run lists
   * every path whose base name is that entry, each once.
   */
  ghost predicate Runs(data: map<string, Data>, names: seq<string>, groups: seq<seq<string>>, src: seq<string>) {
    && |groups| == |names| && src == Concat(groups)
    && forall k :: 0 <= k < |groups| ==> NoDup(groups[k]) && Elems(groups[k]) == WithBase(data.Keys, names[k])
  }

  /** What GroupByBase collects is exactly the paths with the given base name. */
  lemma GroupElems(data: map<string, Data>, fname: string, ps: seq<string>)
    requires forall i :: 0 <= i < |ps| ==> ps[i] in data && BaseName(ps[i]) == fname
    requires forall q | q in data && BaseName(q) == fname :: q in ps
    ensures Elems(ps) == WithBase(data.Keys, fname)
  {
  }

  /** One more run, for `names[k]`. */
  lemma RunsSnoc(data: map<string, Data>, names: seq<string>, k: nat, groups: seq<seq<string>>, src: seq<string>, ps: seq<string>)
    requires k < |names| && Runs(data, names[..k], groups, src)
    requires NoDup(ps) && Elems(ps) == WithBase(data.Keys, names[k])
    ensures Runs(data, names[..k + 1], groups + [ps], src + ps)
  {
    var gs := groups + [ps];
    assert gs[..|gs| - 1] == groups;
    assert names[..k + 1][k] == names[k];
    forall j | 0 <= j < |gs|
      ensures NoDup(gs[j]) && Elems(gs[j]) == WithBase(data.Keys, names[..k + 1][j])
    {
      if j < k {
        assert gs[j] == groups[j] && names[..k + 1][j] == names[..k][j];
      }
    }
  }

  /** Each entry of `sorted` is the value of `data` at the path `src` names at the same index. */
  ghost predicate Drawn(data: map<string, Data>, sorted: seq<Data>, src: seq<string>) {
    |sorted| == |src| && forall i :: 0 <= i < |src| ==> src[i] in data && sorted[i] == data[src[i]]
  }

  lemma DrawnConcat(data: map<string, Data>, s1: seq<Data>, p1: seq<string>, s2: seq<Data>, p2: seq<string>)
    requires Drawn(data, s1, p1) && Drawn(data, s2, p2)
    ensures Drawn(data, s1 + s2, p1 + p2)
  {
    forall i | 0 <= i < |p1 + p2|
      ensures (p1 + p2)[i] in data && (s1 + s2)[i] == data[(p1 + p2)[i]]
    {
      if i >= |p1| {
        assert (p1 + p2)[i] == p2[i - |p1|] && (s1 + s2)[i] == s2[i - |p1|];
      }
    }
  }

  lemma DrawnSnoc(data: map<string, Data>, sorted: seq<Data>, src: seq<string>, p: string)
    requires Drawn(data, sorted, src) && p in data
    ensures Drawn(data, sorted + [data[p]], src + [p])
  {
  }

  /** Appending the group of `names[k]` counts each path once more for that name. */
  lemma GatherCount(names: seq<string>, k: nat, data: map<string, Data>, src: seq<string>, ps: seq<string>)
    requires k < |names|
    requires forall p | p in data :: multiset(src)[p] == multiset(names[..k])[BaseName(p)]
    requires NoDup(ps) && forall i :: 0 <= i < |ps| ==> BaseName(ps[i]) == names[k]
    requires forall q | q in data && BaseName(q) == names[k] :: q in ps
    ensures forall p | p in data :: multiset(src + ps)[p] == multiset(names[..k + 1])[BaseName(p)]
  {
    assert names[..k + 1] == names[..k] + [names[k]];
    assert multiset(names[..k + 1]) == multiset(names[..k]) + multiset{names[k]};
    assert multiset(src + ps) == multiset(src) + multiset(ps);
    forall p | p in data
      ensures multiset(src + ps)[p] == multiset(names[..k + 1])[BaseName(p)]
    {
      NoDupCount(ps, p);
      GroupMember(ps, names[k], p);
    }
  }

  /** A path is in the group of a name exactly when its base name is that name. */
  lemma GroupMember(ps: seq<string>, name: string, p: string)
    requires forall i :: 0 <= i < |ps| ==> BaseName(ps[i]) == name
    ensures p in ps ==> BaseName(p) == name
  {
  }

  /** Appending one group keeps the gathered paths ordered. */
  lemma GatherStep(names: seq<string>, k: nat, data: map<string, Data>, desc: bool, src: seq<string>, ps: seq<string>)
    requires k < |names| && Sorted(names, false, desc)
    requires Sorted(src, true, desc)
    requires k > 0 ==> forall i :: 0 <= i < |src| ==> InOrder(BaseName(src[i]), names[k - 1], false, desc)
    requires k == 0 ==> src == []
    requires forall i :: 0 <= i < |ps| ==> BaseName(ps[i]) == names[k]
    ensures Sorted(src + ps, true, desc)
    ensures forall i :: 0 <= i < |src + ps| ==> InOrder(BaseName((src + ps)[i]), names[k], false, desc)
  {
    if k > 0 {
      BeforeNext(names, k, desc, src);
    }
    LeRefl(names[k]);
    SortedGroupAppend(src, ps, names[k], desc);
  }

  /** What came before `names[k - 1]` also comes before `names[k]`. */
  lemma BeforeNext(names: seq<string>, k: nat, desc: bool, src: seq<string>)
    requires 0 < k < |names| && Sorted(names, false, desc)
    requires forall i :: 0 <= i < |src| ==> InOrder(BaseName(src[i]), names[k - 1], false, desc)
    ensures forall i :: 0 <= i < |src| ==> InOrder(BaseName(src[i]), names[k], false, desc)
  {
    forall i | 0 <= i < |src|
      ensures InOrder(BaseName(src[i]), names[k], false, desc)
    {
      InOrderTrans(BaseName(src[i]), names[k - 1], names[k], false, desc);
    }
  }

  /** Sorted paths all up to `name`, followed by paths whose base name is `name`, stay sorted. */
  lemma SortedGroupAppend(src: seq<string>, ps: seq<string>, name: string, desc: bool)
    requires Sorted(src, true, desc)
    requires forall i :: 0 <= i < |src| ==> InOrder(BaseName(src[i]), name, false, desc)
    requires forall i :: 0 <= i < |ps| ==> BaseName(ps[i]) == name
    requires InOrder(name, name, false, desc)
    ensures Sorted(src + ps, true, desc)
    ensures forall i :: 0 <= i < |src + ps| ==> InOrder(BaseName((src + ps)[i]), name, false, desc)
  {
    var all := src + ps;
    forall i, j | 0 <= i < j < |all|
      ensures InOrder(all[i], all[j], true, desc)
    {
      if j >= |src| {
        assert all[j] == ps[j - |src|];
        if i < |src| {
          assert all[i] == src[i];
        } else {
          assert all[i] == ps[i - |src|];
        }
      } else {
        assert all[i] == src[i] && all[j] == src[j];
      }
    }
    forall i | 0 <= i < |all|
      ensures InOrder(BaseName(all[i]), name, false, desc)
    {
      if i < |src| { assert all[i] == src[i]; } else { assert all[i] == ps[i - |src|]; }
    }
  }

  lemma ReverseSorted(s: seq<string>)
    requires Sorted(s, false, false)
    ensures Sorted(Reverse(s), false, true)
  {
    var r := Reverse(s);
    forall i, j | 0 <= i < j < |r|
      ensures InOrder(r[i], r[j], false, true)
    {
      assert InOrder(s[|s| - 1 - j], s[|s| - 1 - i], false, false);
    }
  }

  /**
   * What sortFileDataFilename returns, through the paths `src` its entries
   * come from: entries ordered by base name, and each path repeated once
   * for every path sharing its base name (so k*k entries for k paths with
   * one base name). The entries for one base name are that many runs, one
   * after the other, each listing every path with that base name once, as
   * each pass over the map gives them.
   */
  ghost predicate ByFilename(data: map<string, Data>, desc: bool, sorted: seq<Data>, src: seq<string>) {
    && ByFilenameCounts(data, desc, sorted, src)
    && exists names: seq<string>, groups: seq<seq<string>> :: Sorted(names, false, desc) && Runs(data, names, groups, src)
  }

  /** ByFilename without the runs: the order and how often each path comes. */
  ghost predicate ByFilenameCounts(data: map<string, Data>, desc: bool, sorted: seq<Data>, src: seq<string>) {
    && Drawn(data, sorted, src)
    && Sorted(src, true, desc)
    && (forall p | p in data :: multiset(src)[p] == |WithBase(data.Keys, BaseName(p))|)
  }

  method SortFileDataFilename(desc: bool, data: map<string, Data>) returns (sorted: seq<Data>, ghost src: seq<string>)
    ensures ByFilename(data, desc, sorted, src)
  {
    var fnames, visited := MapBases(data);
    SortStrings(fnames, false, false);
    AdjSortedIsSorted(fnames[..], false, false);
    var names := fnames[..];
    if desc {
      ReverseSorted(names);
      ReverseMultiset(names);
      names := Reverse(names);
    }
    ghost var groups;
    sorted, src, groups := Gather(names, data, desc);
    forall p | p in data
      ensures multiset(src)[p] == |WithBase(data.Keys, BaseName(p))|
    {
      CountBases(visited, BaseName(p));
    }
  }

  /** With distinct base names the entries are exactly the map's values, each once. */
  lemma DistinctBasesGivePermutation(data: map<string, Data>, desc: bool, sorted: seq<Data>, src: seq<string>)
    requires ByFilenameCounts(data, desc, sorted, src)
    requires forall p, q | p in data && q in data && p != q :: BaseName(p) != BaseName(q)
    ensures multiset(src) == multiset(data.Keys)
    ensures NoDup(src) && Elems(src) == data.Keys
  {
    forall p | p in data
      ensures multiset(src)[p] == 1
    {
      assert WithBase(data.Keys, BaseName(p)) == {p};
    }
    OnceEachIsPermutation(data.Keys, src);
  }

  /** A sequence drawn from `keys` holding each key once is an enumeration of `keys`. */
  lemma OnceEachIsPermutation(keys: set<string>, src: seq<string>)
    requires forall i :: 0 <= i < |src| ==> src[i] in keys
    requires forall p | p in keys :: multiset(src)[p] == 1
    ensures multiset(src) == multiset(keys)
    ensures NoDup(src) && Elems(src) == keys
  {
    forall x
      ensures multiset(src)[x] == multiset(keys)[x]
    {
      if x !in keys {
        assert x !in src;
      }
    }
    forall i, j | 0 <= i < j < |src|
      ensures src[i] != src[j]
    {
      assert src == src[..i] + [src[i]] + src[i + 1..j] + [src[j]] + src[j + 1..];
      assert multiset(src)[src[i]] == 1;
    }
  }

  /** Two paths with one base name each appear twice: the duplication of sortFileDataFilename. */
  lemma SharedBaseDuplicates(data: map<string, Data>, desc: bool, sorted: seq<Data>, src: seq<string>, dir1: string, dir2: string, name: string)
    requires ByFilenameCounts(data, desc, sorted, src)
    requires name != "" && '/' !in name && dir1 != dir2
    requires dir1 + "/" + name in data && dir2 + "/" + name in data
    ensures multiset(src)[dir1 + "/" + name] >= 2 && |sorted| >= 4
  {
    var p, q := dir1 + "/" + name, dir2 + "/" + name;
    SiblingsShareBase(dir1, dir2, name);
    SharedBaseCount(data.Keys, src, p, q, name);
    SharedBaseCount(data.Keys, src, q, p, name);
    CountTwo(src, p, q);
  }

  /** A key counted once for every key sharing its base name, with one other such key, is counted twice. */
  lemma SharedBaseCount(keys: set<string>, src: seq<string>, p: string, q: string, b: string)
    requires p != q && p in keys && q in keys && BaseName(p) == b && BaseName(q) == b
    requires multiset(src)[p] == |WithBase(keys, b)|
    ensures multiset(src)[p] >= 2
  {
    assert {p, q} <= WithBase(keys, b);
    assert |{p, q}| == 2;
    SubsetCard({p, q}, WithBase(keys, b));
  }

  /** Occurrences of two distinct elements never outnumber the sequence. */
  lemma {:induction false} CountTwo<T>(s: seq<T>, p: T, q: T)
    requires p != q
    ensures multiset(s)[p] + multiset(s)[q] <= |s|
  {
    if s != [] {
      CountTwo(s[1..], p, q);
      assert s == [s[0]] + s[1..];
    }
  }

  /** Two directories holding one file name give two paths with that base name. */
  lemma SiblingsShareBase(dir1: string, dir2: string, name: string)
    requires name != "" && '/' !in name && dir1 != dir2
    ensures dir1 + "/" + name != dir2 + "/" + name
    ensures BaseName(dir1 + "/" + name) == name && BaseName(dir2 + "/" + name) == name
  {
    var p, q := dir1 + "/" + name, dir2 + "/" + name;
    BaseOfChild(dir1, name);
    BaseOfChild(dir2, name);
    assert p[..|p| - |name|] == dir1 + "/" && q[..|q| - |name|] == dir2 + "/";
    assert (dir1 + "/")[..|dir1|] == dir1 && (dir2 + "/")[..|dir2|] == dir2;
    assert p == q ==> dir1 + "/" == dir2 + "/";
  }

  lemma SubsetCard<T>(a: set<T>, b: set<T>)
    requires a <= b
    ensures |a| <= |b|
  {
    assert b == a + (b - a);
  }

  /**
   * The stat loop of sortFileDataModified: a path os.Stat fails on is
   * warned about and left out.
   */
  method StatKeys(data: map<string, Data>, stat: map<string, FileInfo>)
    returns (stats: map<string, int>, warnings: seq<Warning>)
    ensures stats.Keys == data.Keys * stat.Keys
    ensures forall p | p in stats :: stats[p] == stat[p].mtime
    ensures NoDup(warnings)
    ensures forall w :: w in warnings <==> exists p | p in data && p !in stat :: w == FailedToStat(p)
  {
    var left := data.Keys;
    ghost var seen: set<string> := {};
    stats, warnings := map[], [];
    while left != {}
      invariant left !! seen && left + seen == data.Keys
      invariant StatsOf(stats, seen, stat) && StatWarned(warnings, seen, stat)
      decreases |left|
    {
      var fpath :| fpath in left;
      MoveOne(data.Keys, left, seen, fpath);
      StatWarnStep(warnings, seen, stat, fpath);
      StatsStep(stats, seen, stat, fpath);
      if fpath !in stat {
        warnings := warnings + [FailedToStat(fpath)];
      } else {
        stats := stats[fpath := stat[fpath].mtime];
      }
      left, seen := left - {fpath}, seen + {fpath};
    }
  }

  /** `stats` holds the modification time of each path of `seen` os.Stat succeeds on. */
  ghost predicate StatsOf(stats: map<string, int>, seen: set<string>, stat: map<string, FileInfo>) {
    stats.Keys == seen * stat.Keys && forall p | p in stats :: p in stat && stats[p] == stat[p].mtime
  }

  /** The warnings hold one FailedToStat for each path of `seen` os.Stat fails on, and nothing else. */
  ghost predicate StatWarned(warnings: seq<Warning>, seen: set<string>, stat: map<string, FileInfo>) {
    NoDup(warnings)
    && forall w :: w in warnings <==> exists p | p in seen && p !in stat :: w == FailedToStat(p)
  }

  lemma StatWarnStep(warnings: seq<Warning>, seen: set<string>, stat: map<string, FileInfo>, fpath: string)
    requires StatWarned(warnings, seen, stat) && fpath !in seen
    ensures fpath !in stat ==> StatWarned(warnings + [FailedToStat(fpath)], seen + {fpath}, stat)
    ensures fpath in stat ==> StatWarned(warnings, seen + {fpath}, stat)
  {
    if fpath !in stat {
      assert FailedToStat(fpath) !in warnings;
      NoDupSnoc(warnings, FailedToStat(fpath));
    }
  }

  lemma StatsStep(stats: map<string, int>, seen: set<string>, stat: map<string, FileInfo>, fpath: string)
    requires StatsOf(stats, seen, stat) && fpath !in seen
    ensures fpath !in stat ==> StatsOf(stats, seen + {fpath}, stat)
    ensures fpath in stat ==> StatsOf(stats[fpath := stat[fpath].mtime], seen + {fpath}, stat)
  {
  }

  /**
   * What sortFileDataModified returns, through the paths `src` its entries
   * come from: every path os.Stat succeeds on exactly once, in
   * modification-time order; the others are dropped, each with a warning.
   */
  ghost predicate ByModified(data: map<string, Data>, stat: map<string, FileInfo>, desc: bool,
                       sorted: seq<Data>, warnings: seq<Warning>, src: seq<string>) {
    Drawn(data, sorted, src)
    && NoDup(src) && Elems(src) == data.Keys * stat.Keys
    && DatiFile.ByMtime(src, stat, desc)
    && NoDup(warnings)
    && (forall w :: w in warnings <==> exists p | p in data && p !in stat :: w == FailedToStat(p))
  }

  method SortFileDataModified(desc: bool, data: map<string, Data>, stat: map<string, FileInfo>)
    returns (sorted: seq<Data>, warnings: seq<Warning>, ghost src: seq<string>)
    ensures ByModified(data, stat, desc, sorted, warnings, src)
  {
    var stats;
    stats, warnings := StatKeys(data, stat);
    var modtimes, visited := DatiFile.MapTimes(stats);
    SortTimes(modtimes, desc);
    var picked := DatiFile.PickByTime(stats, modtimes, visited);
    DatiFile.PickedInOrder(stat, desc, stats, modtimes[..], picked);
    sorted := Lookup(data, picked);
    src := picked;
    ModifiedOrder(desc, data, stat, stats, warnings, picked);
  }

  /** The values of `ps` in `data`, in order. */
  function Lookup(data: map<string, Data>, ps: seq<string>): (r: seq<Data>)
    requires forall i :: 0 <= i < |ps| ==> ps[i] in data
    ensures Drawn(data, r, ps)
  {
    seq(|ps|, i requires 0 <= i < |ps| => data[ps[i]])
  }

  /** The paths os.Stat succeeds on, in modification order, give sortFileDataModified's result. */
  lemma ModifiedOrder(desc: bool, data: map<string, Data>, stat: map<string, FileInfo>,
                      stats: map<string, int>, warnings: seq<Warning>, picked: seq<string>)
    requires stats.Keys == data.Keys * stat.Keys
    requires NoDup(warnings)
    requires forall w :: w in warnings <==> exists p | p in data && p !in stat :: w == FailedToStat(p)
    requires NoDup(picked) && Elems(picked) == stats.Keys
    requires DatiFile.ByMtime(picked, stat, desc)
    ensures forall i :: 0 <= i < |picked| ==> picked[i] in data
    ensures ByModified(data, stat, desc, Lookup(data, picked), warnings, picked)
  {
    assert forall i :: 0 <= i < |picked| ==> picked[i] in Elems(picked);
  }

  /** `for _, d := range data { sorted = append(sorted, d) }`: the values in map iteration order. */
  method Values(data: map<string, Data>) returns (sorted: seq<Data>, ghost src: seq<string>)
    ensures NoDup(src) && Elems(src) == data.Keys
    ensures Drawn(data, sorted, src)
  {
    var left := data.Keys;
    sorted, src := [], [];
    while left != {}
      invariant left !! Elems(src) && left + Elems(src) == data.Keys
      invariant NoDup(src) && Drawn(data, sorted, src)
      decreases |left|
    {
      var fpath :| fpath in left;
      CollectStep(data, left, src, fpath);
      DrawnSnoc(data, sorted, src, fpath);
      sorted, src := sorted + [data[fpath]], src + [fpath];
      left := left - {fpath};
    }
  }

  lemma CollectStep(data: map<string, Data>, left: set<string>, src: seq<string>, fpath: string)
    requires left !! Elems(src) && left + Elems(src) == data.Keys && NoDup(src) && fpath in left
    ensures left - {fpath} !! Elems(src + [fpath]) && (left - {fpath}) + Elems(src + [fpath]) == data.Keys
    ensures NoDup(src + [fpath])
  {
    assert Elems(src + [fpath]) == Elems(src) + {fpath};
    assert forall i :: 0 <= i < |src| ==> src[i] in Elems(src);
  }

  /**
   * What sortFileData returns: an order starting "filename" sorts by base
   * name, descending only for exactly "filename-desc"; likewise for
   * "modified"; any other order gives the values in map iteration order.
   */
  ghost predicate SortOutcome(data: map<string, Data>, order: string, stat: map<string, FileInfo>,
                        sorted: seq<Data>, warnings: seq<Warning>, src: seq<string>) {
    if "filename" <= order then ByFilename(data, order == "filename-desc", sorted, src) && warnings == []
    else if "modified" <= order then ByModified(data, stat, order == "modified-desc", sorted, warnings, src)
    else
      warnings == [] && Drawn(data, sorted, src) && NoDup(src) && Elems(src) == data.Keys
  }

  method SortFileData(data: map<string, Data>, order: string, stat: map<string, FileInfo>)
    returns (sorted: seq<Data>, warnings: seq<Warning>, ghost src: seq<string>)
    ensures SortOutcome(data, order, stat, sorted, warnings, src)
  {
    warnings := [];
    if "filename" <= order {
      if order == "filename-desc" {
        sorted, src := SortFileDataFilename(true, data);
      } else {
        sorted, src := SortFileDataFilename(false, data);
      }
    } else if "modified" <= order {
      if order == "modified-desc" {
        sorted, warnings, src := SortFileDataModified(true, data, stat);
      } else {
        sorted, warnings, src := SortFileDataModified(false, data, stat);
      }
    } else {
      sorted, src := Values(data);
    }
  }

  /** "filename-asc" and any other order beginning "filename" sort ascending. */
  lemma FilenameOrdersAscend(data: map<string, Data>, stat: map<string, FileInfo>,
                             sorted: seq<Data>, warnings: seq<Warning>, src: seq<string>, suffix: string)
    requires suffix != "-desc"
    requires SortOutcome(data, "filename" + suffix, stat, sorted, warnings, src)
    ensures Sorted(src, true, false)
  {
    assert "filename" <= "filename" + suffix;
    assert ("filename" + suffix)[8..] == suffix && "filename-desc"[8..] == "-desc";
  }

  /**
   * LoadDataFiles: every path is loaded (directories walked), failures are
   * warned about and skipped, and what loaded is ordered by `order`.
   */
  method LoadDataFiles(order: string, paths: seq<string>, fs: Fs, decode: Decoder)
    returns (sorted: seq<Data>, warnings: seq<Warning>, ghost loaded: map<string, Data>, ghost src: seq<string>)
    ensures |LoadPaths(paths, fs, decode).warnings| <= |warnings|
    ensures LoadState(loaded, warnings[..|LoadPaths(paths, fs, decode).warnings|]) == LoadPaths(paths, fs, decode)
    ensures SortOutcome(loaded, order, fs.stat, sorted, warnings[|LoadPaths(paths, fs, decode).warnings|..], src)
  {
    var l, w := LoadAll(paths, fs, decode);
    loaded := l;
    var sw;
    sorted, sw, src := SortFileData(l, order, fs.stat);
    warnings := w + sw;
    assert warnings[..|w|] == w && warnings[|w|..] == sw;
  }

  /**
   * GenerateSuperData: the global data merged, with the data list stored
   * under the data key ("data" when empty), replacing a global value, which
   * draws a warning when it is not nil.
   */
  method GenerateSuperData(datakey: string, d: seq<Data>, global: seq<Data>)
    returns (superd: Data, warnings: seq<Warning>)
    ensures var key := if datakey == "" then "data" else datakey;
      superd == Merged(global)[key := Tables(d)]
      && multiset(warnings) == Conflicts(global)
                               + if key in Merged(global) && Merged(global)[key] != Null
                                 then multiset{DataKeyOverwritten(key)} else multiset{}
  {
    var key := datakey;
    if |key| == 0 {
      key := "data";
    }
    superd, warnings := MergeData(global);
    if key in superd && superd[key] != Null {
      warnings := warnings + [DataKeyOverwritten(key)];
    }
    superd := superd[key := Tables(d)];
  }

  /** The data key holds the data list; every other key holds the first non-nil global value. */
  lemma SuperDataContents(datakey: string, d: seq<Data>, global: seq<Data>, superd: Data)
    requires superd == Merged(global)[(if datakey == "" then "data" else datakey) := Tables(d)]
    ensures var key := if datakey == "" then "data" else datakey;
      superd.Keys == AllKeys(global) + {key} && superd[key] == Tables(d)
      && forall k | k in superd && k != key :: superd[k] == FirstNonNull(global, k)
  {
    MergedIsFirstNonNull(global);
  }

  /** The conflicts met while absorbing the keys `keys` into `acc`: those already holding a non-nil value. */
  ghost function Warned(keys: set<string>, acc: Data): set<Warning> {
    set k | k in keys && k in acc && acc[k] != Null :: MergeConflict(k)
  }

  /** The merge-conflict warnings MergeData prints for `ds`, as a multiset (their order follows map iteration). */
  ghost function Conflicts(ds: seq<Data>): multiset<Warning> {
    if ds == [] then multiset{}
    else Conflicts(ds[..|ds| - 1]) + multiset(Warned(ds[|ds| - 1].Keys, Merged(ds[..|ds| - 1])))
  }

  /**
   * MergeData: for each container in order, each key is stored unless a
   * non-nil value is already stored under it, in which case a conflict is
   * warned about.
   */
  method MergeData(data: seq<Data>) returns (merged: Data, warnings: seq<Warning>)
    ensures merged == Merged(data)
    ensures multiset(warnings) == Conflicts(data)
  {
    merged, warnings := map[], [];
    for i := 0 to |data|
      invariant merged == Merged(data[..i])
      invariant multiset(warnings) == Conflicts(data[..i])
    {
      assert data[..i + 1][..i] == data[..i];
      merged, warnings := MergeOne(merged, warnings, data[i]);
    }
    assert data[..|data|] == data;
  }

  /** `merged` is `acc` with the keys `seen` of `d` absorbed. */
  ghost predicate Absorbed(acc: Data, d: Data, seen: set<string>, merged: Data) {
    && seen <= d.Keys
    && merged.Keys == acc.Keys + seen
    && forall k | k in merged :: merged[k] == if k in seen && (k !in acc || acc[k] == Null) then d[k] else acc[k]
  }

  /** One iteration of MergeOne's loop. */
  lemma MergeStep(acc: Data, d: Data, seen: set<string>, merged: Data, k: string)
    requires Absorbed(acc, d, seen, merged) && k in d && k !in seen
    ensures (k !in merged || merged[k] == Null) <==> (k !in acc || acc[k] == Null)
    ensures (k !in acc || acc[k] == Null) ==>
      Absorbed(acc, d, seen + {k}, merged[k := d[k]]) && Warned(seen + {k}, acc) == Warned(seen, acc)
    ensures !(k !in acc || acc[k] == Null) ==> Absorbed(acc, d, seen + {k}, merged)
  {
  }

  /** A conflict on a key not yet seen adds one warning. */
  lemma WarnStep(acc: Data, seen: set<string>, k: string, warnings0: seq<Warning>, warnings: seq<Warning>)
    requires multiset(warnings) == multiset(warnings0) + multiset(Warned(seen, acc))
    requires k !in seen && k in acc && acc[k] != Null
    ensures multiset(warnings + [MergeConflict(k)]) == multiset(warnings0) + multiset(Warned(seen + {k}, acc))
  {
    var w := MergeConflict(k);
    assert w !in Warned(seen, acc);
    assert Warned(seen + {k}, acc) == Warned(seen, acc) + {w};
    MultisetAddFresh(Warned(seen, acc), w);
    assert multiset(warnings + [w]) == multiset(warnings) + multiset{w};
  }

  /** Adding an element a set does not hold adds it once to the set's multiset. */
  lemma MultisetAddFresh<T>(s: set<T>, x: T)
    requires x !in s
    ensures multiset(s + {x}) == multiset(s) + multiset{x}
  {
  }

  /** The inner loop: `for k, v := range d`. */
  method MergeOne(acc: Data, warnings0: seq<Warning>, d: Data) returns (merged: Data, warnings: seq<Warning>)
    ensures merged == Absorb(acc, d)
    ensures multiset(warnings) == multiset(warnings0) + multiset(Warned(d.Keys, acc))
  {
    var left := d.Keys;
    ghost var seen: set<string> := {};
    merged, warnings := acc, warnings0;
    while left != {}
      invariant left !! seen && left + seen == d.Keys
      invariant MergedSoFar(acc, d, seen, merged, warnings0, warnings)
      decreases |left|
    {
      var k :| k in left;
      MoveOne(d.Keys, left, seen, k);
      merged, warnings := MergeKey(acc, d, seen, merged, warnings0, warnings, k);
      left, seen := left - {k}, seen + {k};
    }
    assert seen == d.Keys;
    AbsorbedAll(acc, d, merged);
  }

  /** MergeOne's loop invariant: the keys `seen` are absorbed and their conflicts warned about. */
  ghost predicate MergedSoFar(acc: Data, d: Data, seen: set<string>, merged: Data,
                              warnings0: seq<Warning>, warnings: seq<Warning>) {
    Absorbed(acc, d, seen, merged)
    && multiset(warnings) == multiset(warnings0) + multiset(Warned(seen, acc))
  }

  /** The body of MergeOne's loop: key `k` is stored unless a non-nil value is there, which is warned about. */
  method MergeKey(acc: Data, d: Data, ghost seen: set<string>, merged: Data,
                  ghost warnings0: seq<Warning>, warnings: seq<Warning>, k: string)
    returns (merged': Data, warnings': seq<Warning>)
    requires MergedSoFar(acc, d, seen, merged, warnings0, warnings) && k in d && k !in seen
    ensures MergedSoFar(acc, d, seen + {k}, merged', warnings0, warnings')
  {
    MergeStep(acc, d, seen, merged, k);
    if k !in merged || merged[k] == Null {
      merged', warnings' := merged[k := d[k]], warnings;
    } else {
      WarnStep(acc, seen, k, warnings0, warnings);
      merged', warnings' := merged, warnings + [MergeConflict(k)];
    }
  }

  lemma AbsorbedAll(acc: Data, d: Data, merged: Data)
    requires Absorbed(acc, d, d.Keys, merged)
    ensures merged == Absorb(acc, d)
  {
  }
}
