/**
 * The command-line front end of src/suti.go, the older sibling of
 * cmd/dati.go's: the same dash stripping and the same else-if chain of
 * flags, but no "-flag=value" splitting and no help flag, data paths taken
 * as written, and the other paths made relative to the working directory
 * with filepath.Rel, whose failure is warned about.
 *
 * filepath.Rel is a parameter (`Rel`); the working directory `cwd` is an
 * input. The arguments are never written to, so they are a sequence.
 */
module SrcSuti {
  import opened Common
  import opened GoStrings
  import opened CliCommon

  /** filepath.Rel(base, target): the path it returns and, when it fails, its error message. */
  type Rel = (string, string) -> (string, Option<string>)

  /**
   * basedir: an absolute path is kept; a relative one is replaced by what
   * filepath.Rel returns for it, and a failure is warned about with that
   * (replaced) path.
   */
  function Basedir(path: string, cwd: string, rel: Rel): (r: (string, seq<Warning>))
    ensures IsAbs(path) ==> r == (path, [])
    ensures !IsAbs(path) ==> r.0 == rel(cwd, path).0
    ensures r.1 == [] || (!IsAbs(path) && rel(cwd, path).1.Some? && r.1 == [RelFailed(r.0)])
  {
    if IsAbs(path) then (path, [])
    else
      var (p, err) := rel(cwd, path);
      (p, if err.Some? then [RelFailed(p)] else [])
  }

  /**
   * An argument that is not a flag, given to the current flag. As in
   * cmd/dati.go, lists grow, "-r" and the long names "-datakey",
   * "-sortdata" and "-config" only set an empty field, and a value for an
   * unknown flag is warned about and clears the flag; but data paths are
   * appended as written.
   */
  function ValueStep(st: ParseState, arg: string, cwd: string, rel: Rel): ParseState {
    var o, flag := st.o, st.flag;
    var (path, w) := Basedir(arg, cwd, rel);
    if (flag == "r" || flag == "root") && |o.RootPath| == 0 then
      ParseState(o.(RootPath := path), flag, st.warnings + w)
    else if flag == "p" || flag == "partial" then
      ParseState(o.(PartialPaths := o.PartialPaths + [path]), flag, st.warnings + w)
    else if flag == "gd" || flag == "globaldata" then
      ParseState(o.(GlobalDataPaths := o.GlobalDataPaths + [path]), flag, st.warnings + w)
    else if flag == "d" || flag == "data" then
      st.(o := o.(DataPaths := o.DataPaths + [arg]))
    else if flag == "dk" || (flag == "datakey" && |o.DataKey| == 0) then
      st.(o := o.(DataKey := arg))
    else if flag == "sd" || (flag == "sortdata" && |o.SortData| == 0) then
      st.(o := o.(SortData := arg))
    else if flag == "cfg" || (flag == "config" && |o.ConfigFile| == 0) then
      ParseState(o.(ConfigFile := path), flag, st.warnings + w)
    else if |flag| == 0 then
      st
    else
      ParseState(o, "", st.warnings + [IgnoringFlag(flag)])
  }

  /** The else-if chain of the loop body that gives a value to the current flag. */
  method GiveValue(arg: string, st: ParseState, cwd: string, rel: Rel) returns (r: ParseState)
    ensures r == ValueStep(st, arg, cwd, rel)
  {
    var o, flag, warnings := st.o, st.flag, st.warnings;
    if (flag == "r" || flag == "root") && |o.RootPath| == 0 {
      var (path, w) := Basedir(arg, cwd, rel);
      o, warnings := o.(RootPath := path), warnings + w;
    } else if flag == "p" || flag == "partial" {
      var (path, w) := Basedir(arg, cwd, rel);
      o, warnings := o.(PartialPaths := o.PartialPaths + [path]), warnings + w;
    } else if flag == "gd" || flag == "globaldata" {
      var (path, w) := Basedir(arg, cwd, rel);
      o, warnings := o.(GlobalDataPaths := o.GlobalDataPaths + [path]), warnings + w;
    } else if flag == "d" || flag == "data" {
      o := o.(DataPaths := o.DataPaths + [arg]);
    } else if flag == "dk" || (flag == "datakey" && |o.DataKey| == 0) {
      o := o.(DataKey := arg);
    } else if flag == "sd" || (flag == "sortdata" && |o.SortData| == 0) {
      o := o.(SortData := arg);
    } else if flag == "cfg" || (flag == "config" && |o.ConfigFile| == 0) {
      var (path, w) := Basedir(arg, cwd, rel);
      o, warnings := o.(ConfigFile := path), warnings + w;
    } else if |flag| == 0 {
      // skip unknown flag arguments
    } else {
      warnings := warnings + [IgnoringFlag(flag)];
      flag := "";
    }
    r := ParseState(o, flag, warnings);
  }

  /**
   * The loop body for one non-empty argument: an argument starting with
   * '-' names the new flag, whatever it holds; any other is a value.
   */
  function ArgStep(st: ParseState, arg: string, cwd: string, rel: Rel): ParseState
    requires arg != ""
  {
    if arg[0] == '-' && st.flag != "--" then ParseState(st.o, FlagOf(arg), FlagWarnings(arg, st.warnings))
    else ValueStep(st, arg, cwd, rel)
  }

  /** The loop's end: it ran over every argument, or an empty argument made it panic. */
  datatype Scan = Running(st: ParseState) | Panicked(warnings: seq<Warning>)

  /** The loop from argument `a` on, in the state `st`. */
  function ScanFrom(args: seq<string>, a: nat, st: ParseState, cwd: string, rel: Rel): Scan
    decreases |args| - a
  {
    if a >= |args| then Running(st)
    else if args[a] == "" then Panicked(st.warnings)
    else ScanFrom(args, a + 1, ArgStep(st, args[a], cwd, rel), cwd, rel)
  }

  /** parseArgs' result: the options and warnings, or the panic. */
  function ParseResult(args: seq<string>, existing: Options, cwd: string, rel: Rel): Outcome<Options> {
    match ScanFrom(args, 0, Start(existing), cwd, rel)
    case Running(st) => Parsed(st.o, st.warnings)
    case Panicked(w) => ArgPanic(w)
  }

  /** The loop goes on from the state one argument leads to. */
  lemma Read(args: seq<string>, a: nat, st: ParseState, cwd: string, rel: Rel)
    requires a < |args| && args[a] != ""
    ensures ScanFrom(args, a, st, cwd, rel) == ScanFrom(args, a + 1, ArgStep(st, args[a], cwd, rel), cwd, rel)
  {
  }

  /** parseArgs: the loop over the arguments with the current flag as its state. */
  method ParseArgs(args: seq<string>, existing: Options, cwd: string, rel: Rel) returns (out: Outcome<Options>)
    ensures out == ParseResult(args, existing, cwd, rel)
  {
    ghost var total := ScanFrom(args, 0, Start(existing), cwd, rel);
    var o, flag, warnings := existing, "", [];
    for a := 0 to |args|
      invariant ScanFrom(args, a, ParseState(o, flag, warnings), cwd, rel) == total
    {
      var arg := args[a];
      if arg == "" {
        // arg[0] is out of range: the program panics here.
        return ArgPanic(warnings);
      }
      Read(args, a, ParseState(o, flag, warnings), cwd, rel);
      if arg[0] == '-' && flag != "--" {
        var ndelims;
        flag, ndelims := StripDashes(arg);
        if ndelims > 2 {
          warnings := warnings + [BadFlagSyntax(arg)];
          flag := "";
        }
      } else {
        var st := GiveValue(arg, ParseState(o, flag, warnings), cwd, rel);
        o, flag, warnings := st.o, st.flag, st.warnings;
      }
    }
    out := Parsed(o, warnings);
  }

  /**
   * parseConfig: the config file's lines as arguments, parsed on top of the
   * options so far. A file that cannot be opened is warned about and reads
   * as no lines.
   */
  method ParseConfig(fpath: string, existing: Options, lines: Option<seq<string>>, cwd: string, rel: Rel)
    returns (out: Outcome<Options>)
    ensures lines.None? ==> out == Parsed(existing, [ConfigUnreadable(fpath)])
    ensures lines.Some? ==> out == ParseResult(ConfigArgs(lines.value), existing, cwd, rel)
  {
    var warnings := [];
    var text := [];
    if lines.None? {
      warnings := [ConfigUnreadable(fpath)];
    } else {
      text := lines.value;
    }
    var args := ConfigToArgs(text);
    out := ParseArgs(args, existing, cwd, rel);
    out := out.(warnings := warnings + out.warnings);
  }

  /**
   * With no "-h" to leave early, the loop panics exactly when one of the
   * arguments it has still to read is empty.
   */
  lemma {:induction false} PanicsIffEmpty(args: seq<string>, a: nat, st: ParseState, cwd: string, rel: Rel)
    ensures ScanFrom(args, a, st, cwd, rel).Panicked? <==> exists i :: a <= i < |args| && args[i] == ""
    decreases |args| - a
  {
    if a < |args| && args[a] != "" {
      PanicsIffEmpty(args, a + 1, ArgStep(st, args[a], cwd, rel), cwd, rel);
      assert (exists i :: a <= i < |args| && args[i] == "") <==> (exists i :: a + 1 <= i < |args| && args[i] == "");
    } else if a < |args| {
      assert args[a] == "";
    }
  }

  /**
   * The flag the loop holds never starts with '-', so the `flag != "--"`
   * guard never stops an argument starting with '-' from being a flag.
   */
  lemma {:induction false} FlagNeverDashed(args: seq<string>, a: nat, st: ParseState, cwd: string, rel: Rel)
    requires Undashed(st.flag)
    ensures ScanFrom(args, a, st, cwd, rel).Running? ==> Undashed(ScanFrom(args, a, st, cwd, rel).st.flag)
    decreases |args| - a
  {
    if a < |args| && args[a] != "" {
      ArgKeepsUndashed(st, args[a], cwd, rel);
      FlagNeverDashed(args, a + 1, ArgStep(st, args[a], cwd, rel), cwd, rel);
    }
  }

  lemma ArgKeepsUndashed(st: ParseState, arg: string, cwd: string, rel: Rel)
    requires arg != "" && Undashed(st.flag)
    ensures Undashed(ArgStep(st, arg, cwd, rel).flag)
  {
    if !(arg[0] == '-' && st.flag != "--") {
      assert ValueStep(st, arg, cwd, rel).flag in {st.flag, ""};
    }
  }

  /**
   * A whole parse keeps every warning printed before it, and the options
   * it ends with extend the ones it started from: lists only grow at
   * their end, and a root path once set is never replaced.
   */
  lemma {:induction false} ScanGrows(args: seq<string>, a: nat, st: ParseState, cwd: string, rel: Rel)
    ensures ScanFrom(args, a, st, cwd, rel).Running? ==>
      st.warnings <= ScanFrom(args, a, st, cwd, rel).st.warnings && Grows(st.o, ScanFrom(args, a, st, cwd, rel).st.o)
    ensures ScanFrom(args, a, st, cwd, rel).Panicked? ==> st.warnings <= ScanFrom(args, a, st, cwd, rel).warnings
    decreases |args| - a
  {
    if a < |args| && args[a] != "" {
      ArgGrows(st, args[a], cwd, rel);
      ScanGrows(args, a + 1, ArgStep(st, args[a], cwd, rel), cwd, rel);
    }
  }

  lemma ArgGrows(st: ParseState, arg: string, cwd: string, rel: Rel)
    requires arg != ""
    ensures st.warnings <= ArgStep(st, arg, cwd, rel).warnings && Grows(st.o, ArgStep(st, arg, cwd, rel).o)
  {
    if !(arg[0] == '-' && st.flag != "--") {
      ValueGrows(st, arg, cwd, rel);
    }
  }

  lemma ValueGrows(st: ParseState, arg: string, cwd: string, rel: Rel)
    ensures st.warnings <= ValueStep(st, arg, cwd, rel).warnings && Grows(st.o, ValueStep(st, arg, cwd, rel).o)
  {
  }

  /** Every value after "-d" is appended to the data paths as written, in order, without a warning. */
  lemma {:induction false} DataAppendedRaw(args: seq<string>, a: nat, st: ParseState, cwd: string, rel: Rel)
    requires a <= |args| && (st.flag == "d" || st.flag == "data")
    requires forall i :: a <= i < |args| ==> Plain(args[i])
    ensures ScanFrom(args, a, st, cwd, rel) == Running(st.(o := st.o.(DataPaths := st.o.DataPaths + args[a..])))
    decreases |args| - a
  {
    if a < |args| {
      var next := st.(o := st.o.(DataPaths := st.o.DataPaths + [args[a]]));
      DataValue(st, args[a], cwd, rel);
      Read(args, a, st, cwd, rel);
      DataAppendedRaw(args, a + 1, next, cwd, rel);
      assert args[a..] == [args[a]] + args[a + 1..];
      ConcatAssoc(st.o.DataPaths, [args[a]], args[a + 1..]);
    } else {
      assert st.o.DataPaths + args[a..] == st.o.DataPaths;
    }
  }

  /** A value for "-d" is appended as written. */
  lemma DataValue(st: ParseState, arg: string, cwd: string, rel: Rel)
    requires (st.flag == "d" || st.flag == "data") && Plain(arg)
    ensures ArgStep(st, arg, cwd, rel) == st.(o := st.o.(DataPaths := st.o.DataPaths + [arg]))
  {
    var f := st.flag;
    assert |f| == 1 || (|f| == 4 && f[0] == 'd' && f[1] == 'a');
  }

  /** Values for no flag are passed over without a word. */
  lemma {:induction false} ValuesSkipped(args: seq<string>, a: nat, st: ParseState, cwd: string, rel: Rel)
    requires a <= |args| && st.flag == ""
    requires forall i :: a <= i < |args| ==> Plain(args[i])
    ensures ScanFrom(args, a, st, cwd, rel) == Running(st)
    decreases |args| - a
  {
    if a < |args| {
      assert ArgStep(st, args[a], cwd, rel) == st;
      Read(args, a, st, cwd, rel);
      ValuesSkipped(args, a + 1, st, cwd, rel);
    }
  }

  /** A first argument naming a flag. */
  lemma FirstFlag(args: seq<string>, name: string, o: Options, cwd: string, rel: Rel)
    requires |args| > 0 && args[0] == "-" + name && (name == "" || name[0] != '-')
    ensures ScanFrom(args, 0, Start(o), cwd, rel) == ScanFrom(args, 1, ParseState(o, name, []), cwd, rel)
  {
    OneDashFlag(name);
    Read(args, 0, Start(o), cwd, rel);
  }

  /** "-d" and then values: the values become data paths exactly as given. */
  lemma DataPathsAsGiven(values: seq<string>, o: Options, cwd: string, rel: Rel)
    requires forall i :: 0 <= i < |values| ==> Plain(values[i])
    ensures ParseResult(["-d"] + values, o, cwd, rel) == Parsed(o.(DataPaths := o.DataPaths + values), [])
  {
    var args := ["-d"] + values;
    assert args[0] == "-" + "d";
    FirstFlag(args, "d", o, cwd, rel);
    DataAppendedRaw(args, 1, ParseState(o, "d", []), cwd, rel);
    assert args[1..] == values;
  }

  /** A flag with three dashes is refused, and the values after it change nothing. */
  lemma ThreeDashesIgnored(name: string, values: seq<string>, o: Options, cwd: string, rel: Rel)
    requires forall i :: 0 <= i < |values| ==> Plain(values[i])
    ensures ParseResult(["---" + name] + values, o, cwd, rel) == Parsed(o, [BadFlagSyntax("---" + name)])
  {
    var args := ["---" + name] + values;
    ThreeDashesBad(name);
    assert args[0] == "---" + name && args[0][0] == '-';
    assert ArgStep(Start(o), args[0], cwd, rel) == ParseState(o, "", [BadFlagSyntax("---" + name)]);
    Read(args, 0, Start(o), cwd, rel);
    assert forall i :: 1 <= i < |args| ==> args[i] == values[i - 1];
    ValuesSkipped(args, 1, ParseState(o, "", [BadFlagSyntax("---" + name)]), cwd, rel);
  }

  /** A flag, then a value: the state the value leaves. */
  lemma FlagThenValue(args: seq<string>, name: string, o: Options, cwd: string, rel: Rel)
    requires |args| >= 2 && args[0] == "-" + name && (name == "" || name[0] != '-') && Plain(args[1])
    ensures ScanFrom(args, 0, Start(o), cwd, rel)
         == ScanFrom(args, 2, ValueStep(ParseState(o, name, []), args[1], cwd, rel), cwd, rel)
  {
    FirstFlag(args, name, o, cwd, rel);
    Read(args, 1, ParseState(o, name, []), cwd, rel);
  }

  /** Flags the value chain knows. */
  predicate Known(flag: string) {
    flag in {"r", "root", "p", "partial", "gd", "globaldata", "d", "data", "dk", "datakey", "sd", "sortdata", "cfg", "config"}
  }

  /** A value for a flag the chain does not know is refused and clears the flag. */
  lemma UnknownValue(st: ParseState, arg: string, cwd: string, rel: Rel)
    requires !Known(st.flag) && st.flag != ""
    ensures ValueStep(st, arg, cwd, rel) == ParseState(st.o, "", st.warnings + [IgnoringFlag(st.flag)])
  {
  }

  /** No flag the chain knows holds a '='. */
  lemma EqualsUnknown(f: string)
    requires '=' in f
    ensures !Known(f)
  {
    forall k | Known(k) ensures k != f {
      assert '=' !in k;
    }
  }

  /**
   * "-name=value" is not split: the whole "name=value" is taken as an
   * unknown flag, and the value after it is refused.
   */
  lemma EqualsNotSplit(name: string, value: string, v: string, o: Options, cwd: string, rel: Rel)
    requires name == "" || name[0] != '-'
    requires Plain(v)
    ensures ParseResult(["-" + name + "=" + value, v], o, cwd, rel) == Parsed(o, [IgnoringFlag(name + "=" + value)])
  {
    var f := name + "=" + value;
    var args := ["-" + name + "=" + value, v];
    assert f[|name|] == '=';
    EqualsUnknown(f);
    assert args[0] == "-" + f;
    FlagThenValue(args, f, o, cwd, rel);
    UnknownValue(ParseState(o, f, []), v, cwd, rel);
  }

  /** There is no help flag: "-h" is an unknown flag like any other. */
  lemma HelpIsUnknown(v: string, o: Options, cwd: string, rel: Rel)
    requires Plain(v)
    ensures ParseResult(["-h", v], o, cwd, rel) == Parsed(o, [IgnoringFlag("h")])
  {
    var args := ["-h", v];
    assert args[0] == "-" + "h";
    FlagThenValue(args, "h", o, cwd, rel);
    UnknownValue(ParseState(o, "h", []), v, cwd, rel);
  }

  /** The root path is set by the first value only: a second draws a warning. */
  lemma RootFirstWins(v1: string, v2: string, o: Options, cwd: string, rel: Rel)
    requires Plain(v1) && Plain(v2) && o.RootPath == "" && Basedir(v1, cwd, rel).0 != ""
    ensures ParseResult(["-r", v1, v2], o, cwd, rel)
         == Parsed(o.(RootPath := Basedir(v1, cwd, rel).0), Basedir(v1, cwd, rel).1 + [IgnoringFlag("r")])
  {
    var args := ["-r", v1, v2];
    assert args[0] == "-" + "r";
    var (path, w) := Basedir(v1, cwd, rel);
    var s2 := ParseState(o.(RootPath := path), "r", w);
    FlagThenValue(args, "r", o, cwd, rel);
    RootValue(ParseState(o, "r", []), v1, cwd, rel);
    RootValue(s2, v2, cwd, rel);
    Read(args, 2, s2, cwd, rel);
  }

  /** A value for "-r" sets an empty root path, and is refused once one is set. */
  lemma RootValue(st: ParseState, arg: string, cwd: string, rel: Rel)
    requires st.flag == "r"
    ensures ValueStep(st, arg, cwd, rel)
         == if st.o.RootPath == "" then ParseState(st.o.(RootPath := Basedir(arg, cwd, rel).0), "r", st.warnings + Basedir(arg, cwd, rel).1)
            else ParseState(st.o, "", st.warnings + [IgnoringFlag("r")])
  {
    var f := st.flag;
    assert |f| == 1 && f[0] == 'r';
  }

  /** "-dk" sets the data key every time, so the last value counts. */
  lemma ShortDataKeyLastWins(k1: string, k2: string, o: Options, cwd: string, rel: Rel)
    requires Plain(k1) && Plain(k2)
    ensures ParseResult(["-dk", k1, k2], o, cwd, rel) == Parsed(o.(DataKey := k2), [])
  {
    var args := ["-dk", k1, k2];
    assert args[0] == "-" + "dk";
    var s2 := ParseState(o.(DataKey := k1), "dk", []);
    FlagThenValue(args, "dk", o, cwd, rel);
    ShortDataKeyValue(ParseState(o, "dk", []), k1, cwd, rel);
    ShortDataKeyValue(s2, k2, cwd, rel);
    Read(args, 2, s2, cwd, rel);
  }

  /** A value for "-dk" always sets the data key. */
  lemma ShortDataKeyValue(st: ParseState, arg: string, cwd: string, rel: Rel)
    requires st.flag == "dk"
    ensures ValueStep(st, arg, cwd, rel) == st.(o := st.o.(DataKey := arg))
  {
    var f := st.flag;
    assert |f| == 2 && f[0] == 'd' && f[1] == 'k';
  }

  /** "-datakey" sets an empty data key only, so the first value counts and the next is refused. */
  lemma LongDataKeyFirstWins(k1: string, k2: string, o: Options, cwd: string, rel: Rel)
    requires Plain(k1) && Plain(k2) && o.DataKey == ""
    ensures ParseResult(["-datakey", k1, k2], o, cwd, rel) == Parsed(o.(DataKey := k1), [IgnoringFlag("datakey")])
  {
    var args := ["-datakey", k1, k2];
    assert args[0] == "-" + "datakey";
    var s2 := ParseState(o.(DataKey := k1), "datakey", []);
    FlagThenValue(args, "datakey", o, cwd, rel);
    LongDataKeyValue(ParseState(o, "datakey", []), k1, cwd, rel);
    LongDataKeyValue(s2, k2, cwd, rel);
    Read(args, 2, s2, cwd, rel);
  }

  /** A value for "-datakey" sets an empty data key, and is refused once one is set. */
  lemma LongDataKeyValue(st: ParseState, arg: string, cwd: string, rel: Rel)
    requires st.flag == "datakey"
    ensures ValueStep(st, arg, cwd, rel)
         == if st.o.DataKey == "" then st.(o := st.o.(DataKey := arg))
            else ParseState(st.o, "", st.warnings + [IgnoringFlag("datakey")])
  {
    var f := st.flag;
    assert |f| == 7 && f[0] == 'd' && f[4] == 'k';
  }
}
