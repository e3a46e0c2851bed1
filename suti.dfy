/**
 * suti.go, the first generation: its own argument parser, with every
 * setting taken from the last value given and unknown flags warned about,
 * and a loader that reads the JSON data files (or the files under data
 * directories) into a map from path to decoded value.
 *
 * The JSON decoder is a parameter (`Decoder`): given the bytes read, the
 * value json.Unmarshal leaves and, possibly, an error message. Warnings
 * printed with `warn` are collected in order in a log.
 */
module Suti {
  import opened Common
  import opened GoStrings
  import CliCommon

  /** The options struct of suti.go. */
  datatype Options = Options(
    TemplatePaths: seq<string>,
    GlobalDataPaths: seq<string>,
    DataPaths: seq<string>,
    DataKey: string,
    SortData: string,
    ConfigFile: string)

  /** The zero value parseArgs starts from. */
  const NoOptions := Options([], [], [], "", "", "")

  /** What the argument loop carries from one argument to the next. */
  datatype ParseState = ParseState(o: Options, flag: string, warnings: seq<Warning>)

  /** The flags whose values are appended to a list. */
  predicate ListFlag(flag: string) {
    flag in {"t", "template", "gd", "globaldata", "d", "data"}
  }

  /** The flags whose values overwrite a setting. */
  predicate SettingFlag(flag: string) {
    flag in {"dk", "datakey", "sd", "sortdata", "cfg", "config"}
  }

  /** The list a list flag appends to, with `vs` appended. */
  function Append(o: Options, flag: string, vs: seq<string>): Options
    requires ListFlag(flag)
  {
    if flag == "t" || flag == "template" then o.(TemplatePaths := o.TemplatePaths + vs)
    else if flag == "gd" || flag == "globaldata" then o.(GlobalDataPaths := o.GlobalDataPaths + vs)
    else o.(DataPaths := o.DataPaths + vs)
  }

  /** The setting a setting flag names, set to `v`. */
  function Set(o: Options, flag: string, v: string): Options
    requires SettingFlag(flag)
  {
    if flag == "dk" || flag == "datakey" then o.(DataKey := v)
    else if flag == "sd" || flag == "sortdata" then o.(SortData := v)
    else o.(ConfigFile := v)
  }

  /**
   * A value argument under the current flag: list flags append it, setting
   * flags overwrite their setting, no flag passes it over, and any other
   * flag is warned about and cleared.
   */
  function ValueStep(st: ParseState, arg: string): ParseState {
    var (o, flag) := (st.o, st.flag);
    if flag == "t" || flag == "template" then st.(o := o.(TemplatePaths := o.TemplatePaths + [arg]))
    else if flag == "gd" || flag == "globaldata" then st.(o := o.(GlobalDataPaths := o.GlobalDataPaths + [arg]))
    else if flag == "d" || flag == "data" then st.(o := o.(DataPaths := o.DataPaths + [arg]))
    else if flag == "dk" || flag == "datakey" then st.(o := o.(DataKey := arg))
    else if flag == "sd" || flag == "sortdata" then st.(o := o.(SortData := arg))
    else if flag == "cfg" || flag == "config" then st.(o := o.(ConfigFile := arg))
    else if |flag| == 0 then st
    else ParseState(o, "", st.warnings + [UnknownFlag(flag)])
  }

  /** The else-if chain of parseArgs for a value argument. */
  method GiveValue(st: ParseState, arg: string) returns (r: ParseState)
    ensures r == ValueStep(st, arg)
  {
    var o, flag, warnings := st.o, st.flag, st.warnings;
    if flag == "t" || flag == "template" {
      o := o.(TemplatePaths := o.TemplatePaths + [arg]);
    } else if flag == "gd" || flag == "globaldata" {
      o := o.(GlobalDataPaths := o.GlobalDataPaths + [arg]);
    } else if flag == "d" || flag == "data" {
      o := o.(DataPaths := o.DataPaths + [arg]);
    } else if flag == "dk" || flag == "datakey" {
      o := o.(DataKey := arg);
    } else if flag == "sd" || flag == "sortdata" {
      o := o.(SortData := arg);
    } else if flag == "cfg" || flag == "config" {
      o := o.(ConfigFile := arg);
    } else if |flag| == 0 {
      // a value for no flag is skipped
    } else {
      warnings := warnings + [UnknownFlag(flag)];
      flag := "";
    }
    r := ParseState(o, flag, warnings);
  }

  /**
   * One non-empty argument: unless the current flag is "--", one starting
   * with '-' names the new flag; any other is a value.
   */
  function ArgStep(st: ParseState, arg: string): ParseState
    requires arg != ""
  {
    if arg[0] == '-' && st.flag != "--" then ParseState(st.o, CliCommon.FlagOf(arg), CliCommon.FlagWarnings(arg, st.warnings))
    else ValueStep(st, arg)
  }

  /** The loop's end: it ran over every argument, or an empty argument made it panic. */
  datatype Scan = Running(st: ParseState) | Panicked(warnings: seq<Warning>)

  /** The loop from argument `a` on, in the state `st`. */
  function ScanFrom(args: seq<string>, a: nat, st: ParseState): Scan
    decreases |args| - a
  {
    if a >= |args| then Running(st)
    else if args[a] == "" then Panicked(st.warnings)
    else ScanFrom(args, a + 1, ArgStep(st, args[a]))
  }

  /** parseArgs' result: the options and warnings, or the panic. */
  function ParseResult(args: seq<string>): CliCommon.Outcome<Options> {
    match ScanFrom(args, 0, ParseState(NoOptions, "", []))
    case Running(st) => CliCommon.Parsed(st.o, st.warnings)
    case Panicked(w) => CliCommon.ArgPanic(w)
  }

  /** The loop goes on from the state one argument leads to. */
  lemma Read(args: seq<string>, a: nat, st: ParseState)
    requires a < |args| && args[a] != ""
    ensures ScanFrom(args, a, st) == ScanFrom(args, a + 1, ArgStep(st, args[a]))
  {
  }

  /** parseArgs: the loop over the arguments with the current flag as its state. */
  method ParseArgs(args: seq<string>) returns (out: CliCommon.Outcome<Options>)
    ensures out == ParseResult(args)
  {
    ghost var total := ScanFrom(args, 0, ParseState(NoOptions, "", []));
    var o, flag, warnings := NoOptions, "", [];
    for a := 0 to |args|
      invariant ScanFrom(args, a, ParseState(o, flag, warnings)) == total
    {
      var arg := args[a];
      if arg == "" {
        // arg[0] is out of range: the program panics here.
        return CliCommon.ArgPanic(warnings);
      }
      Read(args, a, ParseState(o, flag, warnings));
      if arg[0] == '-' && flag != "--" {
        var ndelims;
        flag, ndelims := CliCommon.StripDashes(arg);
        if ndelims > 2 {
          warnings := warnings + [BadFlagSyntax(arg)];
          flag := "";
        }
      } else {
        var st := GiveValue(ParseState(o, flag, warnings), arg);
        o, flag, warnings := st.o, st.flag, st.warnings;
      }
    }
    out := CliCommon.Parsed(o, warnings);
  }

  /** The loop panics exactly when one of the arguments it has still to read is empty. */
  lemma {:induction false} PanicsIffEmpty(args: seq<string>, a: nat, st: ParseState)
    ensures ScanFrom(args, a, st).Panicked? <==> exists i :: a <= i < |args| && args[i] == ""
    decreases |args| - a
  {
    if a < |args| && args[a] != "" {
      PanicsIffEmpty(args, a + 1, ArgStep(st, args[a]));
      assert (exists i :: a <= i < |args| && args[i] == "") <==> (exists i :: a + 1 <= i < |args| && args[i] == "");
    } else if a < |args| {
      assert args[a] == "";
    }
  }

  /**
   * The flag the loop holds never starts with '-', so the `flag != "--"`
   * guard never stops an argument starting with '-' from being a flag.
   */
  lemma {:induction false} FlagNeverDashed(args: seq<string>, a: nat, st: ParseState)
    requires CliCommon.Undashed(st.flag)
    ensures ScanFrom(args, a, st).Running? ==> CliCommon.Undashed(ScanFrom(args, a, st).st.flag)
    decreases |args| - a
  {
    if a < |args| && args[a] != "" {
      ArgKeepsUndashed(st, args[a]);
      FlagNeverDashed(args, a + 1, ArgStep(st, args[a]));
    }
  }

  lemma ArgKeepsUndashed(st: ParseState, arg: string)
    requires arg != "" && CliCommon.Undashed(st.flag)
    ensures CliCommon.Undashed(ArgStep(st, arg).flag)
  {
    if !(arg[0] == '-' && st.flag != "--") {
      assert ValueStep(st, arg).flag in {st.flag, ""};
    }
  }

  /** What a parse may do to the options: lists only grow at their end. */
  predicate Grows(o: Options, o': Options) {
    o.TemplatePaths <= o'.TemplatePaths && o.GlobalDataPaths <= o'.GlobalDataPaths && o.DataPaths <= o'.DataPaths
  }

  /** A parse keeps every warning printed before it, and its lists only grow. */
  lemma {:induction false} ScanGrows(args: seq<string>, a: nat, st: ParseState)
    ensures ScanFrom(args, a, st).Running? ==>
      st.warnings <= ScanFrom(args, a, st).st.warnings && Grows(st.o, ScanFrom(args, a, st).st.o)
    ensures ScanFrom(args, a, st).Panicked? ==> st.warnings <= ScanFrom(args, a, st).warnings
    decreases |args| - a
  {
    if a < |args| && args[a] != "" {
      ArgGrows(st, args[a]);
      ScanGrows(args, a + 1, ArgStep(st, args[a]));
    }
  }

  lemma ArgGrows(st: ParseState, arg: string)
    requires arg != ""
    ensures st.warnings <= ArgStep(st, arg).warnings && Grows(st.o, ArgStep(st, arg).o)
  {
  }

  /** Every value after a list flag is appended to its list as written, in order, without a warning. */
  lemma {:induction false} ListAppended(args: seq<string>, a: nat, st: ParseState)
    requires a <= |args| && ListFlag(st.flag)
    requires forall i :: a <= i < |args| ==> CliCommon.Plain(args[i])
    ensures ScanFrom(args, a, st) == Running(st.(o := Append(st.o, st.flag, args[a..])))
    decreases |args| - a
  {
    if a < |args| {
      var next := st.(o := Append(st.o, st.flag, [args[a]]));
      ListValue(st, args[a]);
      Read(args, a, st);
      ListAppended(args, a + 1, next);
      assert args[a..] == [args[a]] + args[a + 1..];
      AppendTwice(st.o, st.flag, [args[a]], args[a + 1..]);
    } else {
      assert args[a..] == [];
      AppendTwice(st.o, st.flag, [], []);
    }
  }

  /** A value for a list flag is appended to its list. */
  lemma ListValue(st: ParseState, arg: string)
    requires ListFlag(st.flag) && CliCommon.Plain(arg)
    ensures ArgStep(st, arg) == st.(o := Append(st.o, st.flag, [arg]))
  {
  }

  lemma AppendTwice(o: Options, flag: string, v1: seq<string>, v2: seq<string>)
    requires ListFlag(flag)
    ensures Append(Append(o, flag, v1), flag, v2) == Append(o, flag, v1 + v2)
  {
    CliCommon.ConcatAssoc(o.TemplatePaths, v1, v2);
    CliCommon.ConcatAssoc(o.GlobalDataPaths, v1, v2);
    CliCommon.ConcatAssoc(o.DataPaths, v1, v2);
  }

  /** After a setting flag, each value overwrites the setting, so the last one given counts. */
  lemma {:induction false} SettingLastWins(args: seq<string>, a: nat, st: ParseState)
    requires a < |args| && SettingFlag(st.flag)
    requires forall i :: a <= i < |args| ==> CliCommon.Plain(args[i])
    ensures ScanFrom(args, a, st) == Running(st.(o := Set(st.o, st.flag, args[|args| - 1])))
    decreases |args| - a
  {
    SettingValue(st, args[a]);
    Read(args, a, st);
    if a + 1 < |args| {
      SettingLastWins(args, a + 1, st.(o := Set(st.o, st.flag, args[a])));
    }
  }

  /** A value for a setting flag overwrites that setting. */
  lemma SettingValue(st: ParseState, arg: string)
    requires SettingFlag(st.flag) && CliCommon.Plain(arg)
    ensures ArgStep(st, arg) == st.(o := Set(st.o, st.flag, arg))
    ensures forall v :: Set(Set(st.o, st.flag, arg), st.flag, v) == Set(st.o, st.flag, v)
  {
  }

  /** Values for no flag are passed over without a word. */
  lemma {:induction false} ValuesSkipped(args: seq<string>, a: nat, st: ParseState)
    requires a <= |args| && st.flag == ""
    requires forall i :: a <= i < |args| ==> CliCommon.Plain(args[i])
    ensures ScanFrom(args, a, st) == Running(st)
    decreases |args| - a
  {
    if a < |args| {
      assert ArgStep(st, args[a]) == st;
      Read(args, a, st);
      ValuesSkipped(args, a + 1, st);
    }
  }

  /**
   * The first value for a flag neither list nor setting is warned about
   * once, and it and the values after it change nothing.
   */
  lemma UnknownFlagWarned(args: seq<string>, a: nat, st: ParseState)
    requires a < |args| && st.flag != "" && !ListFlag(st.flag) && !SettingFlag(st.flag)
    requires forall i :: a <= i < |args| ==> CliCommon.Plain(args[i])
    ensures ScanFrom(args, a, st) == Running(ParseState(st.o, "", st.warnings + [UnknownFlag(st.flag)]))
  {
    Read(args, a, st);
    ValuesSkipped(args, a + 1, ParseState(st.o, "", st.warnings + [UnknownFlag(st.flag)]));
  }

  /** A first argument naming a flag. */
  lemma FirstFlag(args: seq<string>, name: string)
    requires |args| > 0 && args[0] == "-" + name && CliCommon.Undashed(name)
    ensures ScanFrom(args, 0, ParseState(NoOptions, "", [])) == ScanFrom(args, 1, ParseState(NoOptions, name, []))
  {
    CliCommon.OneDashFlag(name);
    Read(args, 0, ParseState(NoOptions, "", []));
  }

  /** "-d" and then values: the values become the data paths exactly as given. */
  lemma DataPathsAsGiven(values: seq<string>)
    requires forall i :: 0 <= i < |values| ==> CliCommon.Plain(values[i])
    ensures ParseResult(["-d"] + values) == CliCommon.Parsed(NoOptions.(DataPaths := values), [])
  {
    var args := ["-d"] + values;
    assert args[0] == "-" + "d";
    FirstFlag(args, "d");
    ListAppended(args, 1, ParseState(NoOptions, "d", []));
    assert args[1..] == values;
    assert NoOptions.DataPaths + values == values;
  }

  /** "-dk" with two values: the second is the data key. */
  lemma DataKeyLastWins(k1: string, k2: string)
    requires CliCommon.Plain(k1) && CliCommon.Plain(k2)
    ensures ParseResult(["-dk", k1, k2]) == CliCommon.Parsed(NoOptions.(DataKey := k2), [])
  {
    var args := ["-dk", k1, k2];
    assert args[0] == "-" + "dk";
    FirstFlag(args, "dk");
    SettingLastWins(args, 1, ParseState(NoOptions, "dk", []));
  }

  /** A flag with three dashes is refused, and the values after it change nothing. */
  lemma ThreeDashesIgnored(name: string, values: seq<string>)
    requires forall i :: 0 <= i < |values| ==> CliCommon.Plain(values[i])
    ensures ParseResult(["---" + name] + values) == CliCommon.Parsed(NoOptions, [BadFlagSyntax("---" + name)])
  {
    var args := ["---" + name] + values;
    CliCommon.ThreeDashesBad(name);
    assert args[0] == "---" + name && args[0][0] == '-';
    assert ArgStep(ParseState(NoOptions, "", []), args[0]) == ParseState(NoOptions, "", [BadFlagSyntax("---" + name)]);
    Read(args, 0, ParseState(NoOptions, "", []));
    assert forall i :: 1 <= i < |args| ==> args[i] == values[i - 1];
    ValuesSkipped(args, 1, ParseState(NoOptions, "", [BadFlagSyntax("---" + name)]));
  }

  /** No list or setting flag holds a '='. */
  lemma EqualsUnknown(f: string)
    requires '=' in f
    ensures !ListFlag(f) && !SettingFlag(f)
  {
    forall k | ListFlag(k) || SettingFlag(k) ensures k != f {
      assert '=' !in k;
    }
  }

  /**
   * "-name=value" is not split: the whole "name=value" is an unknown flag,
   * warned about at the value that follows it.
   */
  lemma EqualsNotSplit(name: string, value: string, v: string)
    requires CliCommon.Undashed(name) && CliCommon.Plain(v)
    ensures ParseResult(["-" + name + "=" + value, v]) == CliCommon.Parsed(NoOptions, [UnknownFlag(name + "=" + value)])
  {
    var f := name + "=" + value;
    var args := ["-" + name + "=" + value, v];
    assert f[|name|] == '=';
    EqualsUnknown(f);
    assert args[0] == "-" + f;
    FirstFlag(args, f);
    UnknownFlagWarned(args, 1, ParseState(NoOptions, f, []));
  }

  // ---- Loading the data files ----

  type Decoder = seq<byte> -> (Value, Option<string>)

  /**
   * LoadData: a read failure is returned with no value; only the exact name
   * "json" is decoded, and any other name is an error with no value.
   */
  function LoadData(lang: string, input: Input, decode: Decoder): (r: (Value, Option<Error>))
    ensures input.Unreadable? ==> r == (Null, Some(ReadFailed(input.msg)))
    ensures input.Bytes? && lang != "json" ==> r == (Null, Some(UnsupportedDataLang(lang)))
    ensures input.Bytes? && lang == "json" ==>
      r.0 == decode(input.content).0 && (r.1.None? <==> decode(input.content).1.None?)
  {
    match input
    case Unreadable(msg) => (Null, Some(ReadFailed(msg)))
    case Bytes(buf) =>
      if lang == "json" then
        var (d, e) := decode(buf);
        (d, if e.Some? then Some(DecodeFailed(e.value)) else None)
      else (Null, Some(UnsupportedDataLang(lang)))
  }

  /** LoadDataFile: an open failure is returned; otherwise the language is the extension without its dot. */
  function LoadDataFile(path: string, fs: Fs, decode: Decoder): (r: (Value, Option<Error>))
    ensures path !in fs.files ==> r == (Null, Some(OpenFailed(path)))
    ensures path in fs.files ==> r == LoadData(TrimDot(Ext(path)), fs.files[path], decode)
  {
    if path !in fs.files then (Null, Some(OpenFailed(path)))
    else LoadData(TrimDot(Ext(path)), fs.files[path], decode)
  }

  /** A readable file named "*.json" is decoded; ".JSON" or any other extension is refused. */
  lemma ExtensionDecides(stem: string, ext: string, fs: Fs, decode: Decoder)
    requires '.' !in ext && '/' !in ext
    requires stem + "." + ext in fs.files && fs.files[stem + "." + ext].Bytes?
    ensures var r := LoadDataFile(stem + "." + ext, fs, decode);
      if ext == "json" then r.0 == decode(fs.files[stem + "." + ext].content).0
                            && (r.1.None? <==> decode(fs.files[stem + "." + ext].content).1.None?)
      else r == (Null, Some(UnsupportedDataLang(ext)))
  {
    ExtOfSuffix(stem, ext);
    assert TrimDot("." + ext) == ext;
  }

  /** What the loading loop has built so far: the loaded map and the warnings printed. */
  datatype LoadState = LoadState(loaded: map<string, Value>, warnings: seq<Warning>)

  /** Whether the walk callback returns an error for an entry. */
  predicate Fails(entry: WalkEntry, fs: Fs, decode: Decoder) {
    entry.WalkError? || (!entry.isDir && LoadDataFile(entry.path, fs, decode).1.Some?)
  }

  /**
   * The walk callback from entry `i` on: directories are passed over,
   * files are loaded under their path, and the first error (one handed to
   * the callback, or a file that does not load) is warned about and
   * returned, which ends the walk.
   */
  function WalkFrom(s: LoadState, entries: seq<WalkEntry>, i: nat, fs: Fs, decode: Decoder): (LoadState, Option<Error>)
    decreases |entries| - i
  {
    if i >= |entries| then (s, None)
    else match entries[i]
      case WalkError(p, msg) => (LoadState(s.loaded, s.warnings + [UnableToLoad(p, WalkFailed(msg))]), Some(WalkFailed(msg)))
      case Visit(p, isDir) =>
        if isDir then WalkFrom(s, entries, i + 1, fs, decode)
        else
          var (d, e) := LoadDataFile(p, fs, decode);
          if e.Some? then (LoadState(s.loaded, s.warnings + [UnableToLoad(p, e.value)]), e)
          else WalkFrom(LoadState(s.loaded[p := d], s.warnings), entries, i + 1, fs, decode)
  }

  /** The state after an entry the callback accepts, from which the walk goes on. */
  lemma VisitOk(s: LoadState, entries: seq<WalkEntry>, i: nat, fs: Fs, decode: Decoder) returns (s': LoadState)
    requires i < |entries| && !Fails(entries[i], fs, decode)
    ensures WalkFrom(s, entries, i, fs, decode) == WalkFrom(s', entries, i + 1, fs, decode)
    ensures s'.warnings == s.warnings
    ensures entries[i].isDir ==> s'.loaded == s.loaded
    ensures !entries[i].isDir ==> s'.loaded == s.loaded[entries[i].path := LoadDataFile(entries[i].path, fs, decode).0]
  {
    var p := entries[i].path;
    if entries[i].isDir {
      s' := s;
    } else {
      s' := LoadState(s.loaded[p := LoadDataFile(p, fs, decode).0], s.warnings);
    }
  }

  /** The walk ends in an error exactly when one of the entries it has still to visit fails. */
  lemma {:induction false} WalkFailsIff(s: LoadState, entries: seq<WalkEntry>, i: nat, fs: Fs, decode: Decoder)
    ensures WalkFrom(s, entries, i, fs, decode).1.Some? <==> exists j :: i <= j < |entries| && Fails(entries[j], fs, decode)
    decreases |entries| - i
  {
    if i < |entries| && !Fails(entries[i], fs, decode) {
      var s' := VisitOk(s, entries, i, fs, decode);
      WalkFailsIff(s', entries, i + 1, fs, decode);
      assert (exists j :: i <= j < |entries| && Fails(entries[j], fs, decode))
         <==> (exists j :: i + 1 <= j < |entries| && Fails(entries[j], fs, decode));
    } else if i < |entries| {
      assert Fails(entries[i], fs, decode);
    }
  }

  /** The entries after the first failing one are never visited. */
  lemma {:induction false} WalkStopsAt(s: LoadState, entries: seq<WalkEntry>, i: nat, k: nat, fs: Fs, decode: Decoder)
    requires i <= k < |entries| && Fails(entries[k], fs, decode)
    ensures WalkFrom(s, entries, i, fs, decode) == WalkFrom(s, entries[..k + 1], i, fs, decode)
    decreases k - i
  {
    var pre := entries[..k + 1];
    assert pre[i] == entries[i];
    if i < k && !Fails(entries[i], fs, decode) {
      var s' := VisitOk(s, entries, i, fs, decode);
      var s'' := VisitOk(s, pre, i, fs, decode);
      assert s'' == s';
      WalkStopsAt(s', entries, i + 1, k, fs, decode);
    }
  }

  /** A walk keeps every path loaded before it and every warning printed before it. */
  lemma {:induction false} WalkKeeps(s: LoadState, entries: seq<WalkEntry>, i: nat, fs: Fs, decode: Decoder)
    ensures s.loaded.Keys <= WalkFrom(s, entries, i, fs, decode).0.loaded.Keys
    ensures s.warnings <= WalkFrom(s, entries, i, fs, decode).0.warnings
    decreases |entries| - i
  {
    if i < |entries| && !Fails(entries[i], fs, decode) {
      var s' := VisitOk(s, entries, i, fs, decode);
      WalkKeeps(s', entries, i + 1, fs, decode);
    }
  }

  /** Nothing is kept that did not load without error, and it is kept as it loaded. */
  predicate OnlyLoaded(loaded: map<string, Value>, fs: Fs, decode: Decoder) {
    forall p | p in loaded :: LoadDataFile(p, fs, decode).1.None? && loaded[p] == LoadDataFile(p, fs, decode).0
  }

  /** A walk adds only files that load, each under its path with the value it decodes to. */
  lemma {:induction false} WalkKeepsOnlyLoaded(s: LoadState, entries: seq<WalkEntry>, i: nat, fs: Fs, decode: Decoder)
    requires OnlyLoaded(s.loaded, fs, decode)
    ensures OnlyLoaded(WalkFrom(s, entries, i, fs, decode).0.loaded, fs, decode)
    decreases |entries| - i
  {
    if i < |entries| && !Fails(entries[i], fs, decode) {
      var s' := VisitOk(s, entries, i, fs, decode);
      WalkKeepsOnlyLoaded(s', entries, i + 1, fs, decode);
    }
  }

  /** A walk in which nothing fails loads every file it visits. */
  lemma {:induction false} WalkLoadsAll(s: LoadState, entries: seq<WalkEntry>, i: nat, fs: Fs, decode: Decoder)
    requires forall j :: i <= j < |entries| ==> !Fails(entries[j], fs, decode)
    ensures forall j :: i <= j < |entries| && entries[j].Visit? && !entries[j].isDir ==> entries[j].path in WalkFrom(s, entries, i, fs, decode).0.loaded
    decreases |entries| - i
  {
    if i < |entries| {
      var s' := VisitOk(s, entries, i, fs, decode);
      WalkLoadsAll(s', entries, i + 1, fs, decode);
      WalkKeeps(s', entries, i + 1, fs, decode);
    }
  }

  /**
   * One top-level path: one os.Stat fails on is warned about and skipped;
   * a directory is walked, the walk's own result being dropped; a file is
   * loaded, a failure being warned about.
   */
  function LoadPath(s: LoadState, dpath: string, fs: Fs, decode: Decoder): LoadState {
    if dpath !in fs.stat then LoadState(s.loaded, s.warnings + [SkippingDataFile(dpath, StatFailed(dpath))])
    else if fs.stat[dpath].isDir then WalkFrom(s, fs.Walk(dpath), 0, fs, decode).0
    else
      var (d, e) := LoadDataFile(dpath, fs, decode);
      if e.None? then LoadState(s.loaded[dpath := d], s.warnings)
      else LoadState(s.loaded, s.warnings + [UnableToLoad(dpath, e.value)])
  }

  /** The loading loop from top-level path `i` on. */
  function LoadFrom(paths: seq<string>, i: nat, s: LoadState, fs: Fs, decode: Decoder): LoadState
    decreases |paths| - i
  {
    if i >= |paths| then s else LoadFrom(paths, i + 1, LoadPath(s, paths[i], fs, decode), fs, decode)
  }

  /** A path os.Stat fails on draws one warning and changes nothing else. */
  lemma StatFailureSkipped(s: LoadState, dpath: string, fs: Fs, decode: Decoder)
    requires dpath !in fs.stat
    ensures LoadPath(s, dpath, fs, decode) == LoadState(s.loaded, s.warnings + [SkippingDataFile(dpath, StatFailed(dpath))])
  {
  }

  lemma LoadPathKeeps(s: LoadState, dpath: string, fs: Fs, decode: Decoder)
    ensures s.loaded.Keys <= LoadPath(s, dpath, fs, decode).loaded.Keys
    ensures s.warnings <= LoadPath(s, dpath, fs, decode).warnings
  {
    if dpath in fs.stat && fs.stat[dpath].isDir {
      WalkKeeps(s, fs.Walk(dpath), 0, fs, decode);
    }
  }

  lemma LoadPathKeepsOnlyLoaded(s: LoadState, dpath: string, fs: Fs, decode: Decoder)
    requires OnlyLoaded(s.loaded, fs, decode)
    ensures OnlyLoaded(LoadPath(s, dpath, fs, decode).loaded, fs, decode)
  {
    if dpath in fs.stat && fs.stat[dpath].isDir {
      WalkKeepsOnlyLoaded(s, fs.Walk(dpath), 0, fs, decode);
    }
  }

  /** The loading loop keeps what it has loaded and every warning: a failing path never stops the batch. */
  lemma {:induction false} LoadFromKeeps(paths: seq<string>, i: nat, s: LoadState, fs: Fs, decode: Decoder)
    ensures s.loaded.Keys <= LoadFrom(paths, i, s, fs, decode).loaded.Keys
    ensures s.warnings <= LoadFrom(paths, i, s, fs, decode).warnings
    decreases |paths| - i
  {
    if i < |paths| {
      LoadPathKeeps(s, paths[i], fs, decode);
      LoadFromKeeps(paths, i + 1, LoadPath(s, paths[i], fs, decode), fs, decode);
    }
  }

  /** The loading loop adds only what loads, each under its path with the value it decodes to. */
  lemma {:induction false} LoadFromOnlyLoaded(paths: seq<string>, i: nat, s: LoadState, fs: Fs, decode: Decoder)
    requires OnlyLoaded(s.loaded, fs, decode)
    ensures OnlyLoaded(LoadFrom(paths, i, s, fs, decode).loaded, fs, decode)
    decreases |paths| - i
  {
    if i < |paths| {
      LoadPathKeepsOnlyLoaded(s, paths[i], fs, decode);
      LoadFromOnlyLoaded(paths, i + 1, LoadPath(s, paths[i], fs, decode), fs, decode);
    }
  }

  /** A top-level file that loads is in the result, whatever the other paths do. */
  lemma {:induction false} TopLevelFileLoaded(paths: seq<string>, i: nat, k: nat, s: LoadState, fs: Fs, decode: Decoder)
    requires i <= k < |paths| && paths[k] in fs.stat && !fs.stat[paths[k]].isDir
    requires LoadDataFile(paths[k], fs, decode).1.None?
    ensures paths[k] in LoadFrom(paths, i, s, fs, decode).loaded
    decreases k - i
  {
    if i < k {
      TopLevelFileLoaded(paths, i + 1, k, LoadPath(s, paths[i], fs, decode), fs, decode);
    } else {
      LoadFromKeeps(paths, i + 1, LoadPath(s, paths[i], fs, decode), fs, decode);
    }
  }

  /** LoadDataFiles: every path in turn into one map, with the warnings printed. */
  method LoadDataFiles(paths: seq<string>, fs: Fs, decode: Decoder) returns (loaded: map<string, Value>, warnings: seq<Warning>)
    ensures LoadState(loaded, warnings) == LoadFrom(paths, 0, LoadState(map[], []), fs, decode)
    ensures OnlyLoaded(loaded, fs, decode)
  {
    ghost var total := LoadFrom(paths, 0, LoadState(map[], []), fs, decode);
    loaded, warnings := map[], [];
    for i := 0 to |paths|
      invariant LoadFrom(paths, i, LoadState(loaded, warnings), fs, decode) == total
    {
      var dpath := paths[i];
      if dpath !in fs.stat {
        warnings := warnings + [SkippingDataFile(dpath, StatFailed(dpath))];
        continue;
      }
      if fs.stat[dpath].isDir {
        // the walk's own error is dropped
        var walkErr;
        loaded, warnings, walkErr := Walk(dpath, loaded, warnings, fs, decode);
      } else {
        var (d, err) := LoadDataFile(dpath, fs, decode);
        if err.None? {
          loaded := loaded[dpath := d];
        } else {
          warnings := warnings + [UnableToLoad(dpath, err.value)];
        }
      }
    }
    LoadFromOnlyLoaded(paths, 0, LoadState(map[], []), fs, decode);
  }

  /** filepath.Walk with the loading callback: entries in order until the callback returns an error. */
  method Walk(dir: string, loaded0: map<string, Value>, warnings0: seq<Warning>, fs: Fs, decode: Decoder)
    returns (loaded: map<string, Value>, warnings: seq<Warning>, err: Option<Error>)
    ensures (LoadState(loaded, warnings), err) == WalkFrom(LoadState(loaded0, warnings0), fs.Walk(dir), 0, fs, decode)
  {
    var entries := fs.Walk(dir);
    ghost var total := WalkFrom(LoadState(loaded0, warnings0), entries, 0, fs, decode);
    loaded, warnings := loaded0, warnings0;
    for i := 0 to |entries|
      invariant WalkFrom(LoadState(loaded, warnings), entries, i, fs, decode) == total
    {
      match entries[i] {
        case WalkError(p, msg) =>
          warnings := warnings + [UnableToLoad(p, WalkFailed(msg))];
          return loaded, warnings, Some(WalkFailed(msg));
        case Visit(p, isDir) =>
          if !isDir {
            var (d, e) := LoadDataFile(p, fs, decode);
            if e.Some? {
              warnings := warnings + [UnableToLoad(p, e.value)];
              return loaded, warnings, e;
            }
            loaded := loaded[p := d];
          }
      }
    }
    err := None;
  }
}
