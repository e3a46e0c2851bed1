/**
 * The argument parser of cmd/dati.go, which cmd/suti.go repeats line for
 * line: a hand-written loop over the arguments that remembers the last
 * flag seen and gives every following argument to it, splits "-flag=value"
 * in place, and leaves on "-h". Then the config file, read as more
 * arguments on top of the options already parsed.
 *
 * filepath.Join is a parameter (`Join`); the working directory `cwd` is an
 * input.
 */
module Cli {
  import opened Common
  import opened GoStrings
  import opened CliCommon

  type Join = (string, string) -> string

  /** basedir: a relative path is taken relative to the working directory. */
  function Basedir(path: string, cwd: string, join: Join): string {
    if IsAbs(path) then path else join(cwd, path)
  }

  /**
   * An argument that is not a flag, given to the current flag. Lists
   * grow, a root path and a long-named data key, sort order or config
   * file are only set while empty, and an argument for a flag that takes
   * none of these draws a warning and clears the flag.
   */
  function ValueStep(st: ParseState, arg: string, cwd: string, join: Join): ParseState {
    var o, flag := st.o, st.flag;
    if (flag == "r" || flag == "root") && |o.RootPath| == 0 then
      st.(o := o.(RootPath := Basedir(arg, cwd, join)))
    else if flag == "p" || flag == "partial" then
      st.(o := o.(PartialPaths := o.PartialPaths + [Basedir(arg, cwd, join)]))
    else if flag == "gd" || flag == "globaldata" then
      st.(o := o.(GlobalDataPaths := o.GlobalDataPaths + [Basedir(arg, cwd, join)]))
    else if flag == "d" || flag == "data" then
      st.(o := o.(DataPaths := o.DataPaths + [Basedir(arg, cwd, join)]))
    else if flag == "dk" || (flag == "datakey" && |o.DataKey| == 0) then
      st.(o := o.(DataKey := arg))
    else if flag == "sd" || (flag == "sortdata" && |o.SortData| == 0) then
      st.(o := o.(SortData := arg))
    else if flag == "cfg" || (flag == "config" && |o.ConfigFile| == 0) then
      st.(o := o.(ConfigFile := Basedir(arg, cwd, join)))
    else if |flag| == 0 then
      st
    else
      ParseState(o, "", st.warnings + [IgnoringFlag(flag)])
  }

  /**
   * A value changes the options only by growing them, and the flag only by
   * clearing it, with a warning, when the flag takes no value.
   */
  lemma ValueStepGrows(st: ParseState, arg: string, cwd: string, join: Join)
    ensures Grows(st.o, ValueStep(st, arg, cwd, join).o)
    ensures var r := ValueStep(st, arg, cwd, join);
      (r.flag == st.flag && r.warnings == st.warnings)
      || (r.flag == "" && r.o == st.o && r.warnings == st.warnings + [IgnoringFlag(st.flag)])
      || (r.flag == "" && r == st)
  {
  }

  /** The else-if chain of the loop body that gives a value to the current flag. */
  method GiveValue(arg: string, st: ParseState, cwd: string, join: Join) returns (r: ParseState)
    ensures r == ValueStep(st, arg, cwd, join)
  {
    var o, flag := st.o, st.flag;
    if (flag == "r" || flag == "root") && |o.RootPath| == 0 {
      o := o.(RootPath := Basedir(arg, cwd, join));
    } else if flag == "p" || flag == "partial" {
      o := o.(PartialPaths := o.PartialPaths + [Basedir(arg, cwd, join)]);
    } else if flag == "gd" || flag == "globaldata" {
      o := o.(GlobalDataPaths := o.GlobalDataPaths + [Basedir(arg, cwd, join)]);
    } else if flag == "d" || flag == "data" {
      o := o.(DataPaths := o.DataPaths + [Basedir(arg, cwd, join)]);
    } else if flag == "dk" || (flag == "datakey" && |o.DataKey| == 0) {
      o := o.(DataKey := arg);
    } else if flag == "sd" || (flag == "sortdata" && |o.SortData| == 0) {
      o := o.(SortData := arg);
    } else if flag == "cfg" || (flag == "config" && |o.ConfigFile| == 0) {
      o := o.(ConfigFile := Basedir(arg, cwd, join));
    } else if |flag| == 0 {
      // skip unknown flag arguments
    } else {
      return ParseState(o, "", st.warnings + [IgnoringFlag(flag)]);
    }
    r := ParseState(o, flag, st.warnings);
  }

  /** One turn of the loop: the parse ends, or goes on at an argument with a new state. */
  datatype Move = Halt(out: Outcome<Options>, args: seq<string>) | Next(args: seq<string>, a: nat, st: ParseState)

  /**
   * The loop body at argument `a`. A flag argument loses its dashes; a
   * "-f=v" is split at its first '=', "v" taking the argument's place to
   * be read next; "-h" and "-help" end the program; any other argument is
   * a value.
   */
  function Step(args: seq<string>, a: nat, st: ParseState, cwd: string, join: Join): (m: Move)
    requires a < |args|
    ensures |m.args| == |args|
    ensures m.Next? ==> m.a == a + 1 || (m.a == a && |m.args[a]| < |args[a]|)
  {
    var arg := args[a];
    if arg == "" then Halt(ArgPanic(st.warnings), args)
    else if arg[0] == '-' && st.flag != "--" then FlagMove(args, a, st)
    else Next(args, a + 1, ValueStep(st, arg, cwd, join))
  }

  /** The branch of the loop body for an argument starting with '-'. */
  function FlagMove(args: seq<string>, a: nat, st: ParseState): (m: Move)
    requires a < |args| && args[a] != ""
    ensures |m.args| == |args|
    ensures m.Next? ==> m.a == a + 1 || (m.a == a && |m.args[a]| < |args[a]|)
  {
    var arg := args[a];
    var flag := FlagOf(arg);
    var ws := FlagWarnings(arg, st.warnings);
    if '=' in flag then
      var i := IndexOf(flag, '=');
      var args' := args[a := flag[i + 1..]];
      if IsHelp(flag[..i]) then Halt(HelpExit(ws), args')
      else Next(args', a, ParseState(st.o, flag[..i], ws))
    else if IsHelp(flag) then Halt(HelpExit(ws), args)
    else Next(args, a + 1, ParseState(st.o, flag, ws))
  }

  predicate IsHelp(flag: string) {
    flag == "h" || flag == "help"
  }

  /** A value is given to the current flag and the loop moves on. */
  lemma StepValue(args: seq<string>, a: nat, st: ParseState, cwd: string, join: Join)
    requires a < |args| && Plain(args[a])
    ensures Step(args, a, st, cwd, join) == Next(args, a + 1, ValueStep(st, args[a], cwd, join))
  {
  }

  /** "-name", for a name that is not help and has no '=', sets the current flag. */
  lemma StepFlag(args: seq<string>, a: nat, name: string, st: ParseState, cwd: string, join: Join)
    requires a < |args| && args[a] == "-" + name && Undashed(st.flag)
    requires '=' !in name && (name == "" || name[0] != '-') && !IsHelp(name)
    ensures Step(args, a, st, cwd, join) == Next(args, a + 1, ParseState(st.o, name, st.warnings))
  {
    OneDashFlag(name);
  }

  /**
   * The parse from argument `a` on, with the arguments as they are then.
   * Returns how the parse ends and the arguments as left behind.
   */
  function ParseFrom(args: seq<string>, a: nat, st: ParseState, cwd: string, join: Join): (r: (Outcome<Options>, seq<string>))
    ensures |r.1| == |args|
    decreases |args| - a, if a < |args| then |args[a]| else 0
  {
    if a >= |args| then (Parsed(st.o, st.warnings), args)
    else match Step(args, a, st, cwd, join)
      case Halt(out, args') => (out, args')
      case Next(args', a', st') => ParseFrom(args', a', st', cwd, join)
  }

  /**
   * The loop body as it would read without the `flag != "--"` test: an
   * argument starting with '-' is always a flag.
   */
  function UnguardedStep(args: seq<string>, a: nat, st: ParseState, cwd: string, join: Join): (m: Move)
    requires a < |args|
    ensures |m.args| == |args|
    ensures m.Next? ==> m.a == a + 1 || (m.a == a && |m.args[a]| < |args[a]|)
  {
    var arg := args[a];
    if arg == "" then Halt(ArgPanic(st.warnings), args)
    else if arg[0] == '-' then FlagMove(args, a, st)
    else Next(args, a + 1, ValueStep(st, arg, cwd, join))
  }

  /** The parse with every turn taken by UnguardedStep. */
  function UnguardedParse(args: seq<string>, a: nat, st: ParseState, cwd: string, join: Join): (r: (Outcome<Options>, seq<string>))
    ensures |r.1| == |args|
    decreases |args| - a, if a < |args| then |args[a]| else 0
  {
    if a >= |args| then (Parsed(st.o, st.warnings), args)
    else match UnguardedStep(args, a, st, cwd, join)
      case Halt(out, args') => (out, args')
      case Next(args', a', st') => UnguardedParse(args', a', st', cwd, join)
  }

  /**
   * A turn of the loop from a flag without leading dashes leads to another
   * one, and the `flag != "--"` test has no effect on it.
   */
  lemma StepKeepsUndashed(args: seq<string>, a: nat, st: ParseState, cwd: string, join: Join)
    requires a < |args| && Undashed(st.flag)
    ensures Step(args, a, st, cwd, join) == UnguardedStep(args, a, st, cwd, join)
    ensures Step(args, a, st, cwd, join).Next? ==> Undashed(Step(args, a, st, cwd, join).st.flag)
  {
    var arg := args[a];
    if arg != "" && arg[0] == '-' {
      var flag := FlagOf(arg);
      if '=' in flag {
        var i := IndexOf(flag, '=');
        assert flag[..i] == "" || flag[..i][0] == flag[0];
      }
    } else if arg != "" {
      ValueStepGrows(st, arg, cwd, join);
    }
  }

  /**
   * The flag the loop holds never starts with '-' (Start holds none), so
   * the `flag != "--"` guard is dead: the parse is the same without it.
   */
  lemma {:induction false} FlagNeverDashed(args: seq<string>, a: nat, st: ParseState, cwd: string, join: Join)
    requires Undashed(st.flag)
    ensures ParseFrom(args, a, st, cwd, join) == UnguardedParse(args, a, st, cwd, join)
    decreases |args| - a, if a < |args| then |args[a]| else 0
  {
    if a < |args| {
      StepKeepsUndashed(args, a, st, cwd, join);
      var m := Step(args, a, st, cwd, join);
      if m.Next? {
        FlagNeverDashed(m.args, m.a, m.st, cwd, join);
      }
    }
  }

  /** The parse goes on from where a turn of the loop leaves it. */
  lemma ParseFromNext(args: seq<string>, a: nat, st: ParseState, cwd: string, join: Join)
    requires a < |args| && Step(args, a, st, cwd, join).Next?
    ensures ParseFrom(args, a, st, cwd, join)
         == ParseFrom(Step(args, a, st, cwd, join).args, Step(args, a, st, cwd, join).a, Step(args, a, st, cwd, join).st, cwd, join)
  {
  }

  /** The parse goes on from the state a turn of the loop leads to. */
  lemma NextParse(args: seq<string>, a: nat, st: ParseState, args': seq<string>, a': nat, st': ParseState, cwd: string, join: Join)
    requires a < |args| && Step(args, a, st, cwd, join) == Next(args', a', st')
    ensures ParseFrom(args, a, st, cwd, join) == ParseFrom(args', a', st', cwd, join)
  {
  }

  /** The loop invariant: parsing the rest still gives the whole parse's result. */
  ghost predicate Pending(args: seq<string>, a: nat, st: ParseState, total: (Outcome<Options>, seq<string>), cwd: string, join: Join) {
    ParseFrom(args, a, st, cwd, join) == total
  }

  /** The loop invariant carried over one turn of the loop. */
  lemma Advance(args: seq<string>, a: nat, st: ParseState, total: (Outcome<Options>, seq<string>),
                args': seq<string>, a': nat, st': ParseState, cwd: string, join: Join)
    requires a < |args| && Step(args, a, st, cwd, join) == Next(args', a', st') && Pending(args, a, st, total, cwd, join)
    ensures Pending(args', a', st', total, cwd, join)
  {
  }

  /**
   * A turn of the loop keeps the warnings printed so far and lets the
   * options only grow; the program stops only by help or panic.
   */
  lemma StepGrows(args: seq<string>, a: nat, st: ParseState, cwd: string, join: Join)
    requires a < |args|
    ensures Step(args, a, st, cwd, join).Halt? ==>
      st.warnings <= Step(args, a, st, cwd, join).out.warnings && !Step(args, a, st, cwd, join).out.Parsed?
    ensures Step(args, a, st, cwd, join).Next? ==>
      st.warnings <= Step(args, a, st, cwd, join).st.warnings && Grows(st.o, Step(args, a, st, cwd, join).st.o)
  {
    var arg := args[a];
    if arg != "" && !(arg[0] == '-' && st.flag != "--") {
      ValueStepGrows(st, arg, cwd, join);
    }
  }

  /**
   * A whole parse keeps every warning printed before it, and the options
   * it ends with extend the ones it started from: a list flag given again
   * (on the command line, then in the config file) appends, and a root
   * path once set is never replaced.
   */
  lemma {:induction false} ParseGrows(args: seq<string>, a: nat, st: ParseState, cwd: string, join: Join)
    ensures st.warnings <= ParseFrom(args, a, st, cwd, join).0.warnings
    ensures ParseFrom(args, a, st, cwd, join).0.Parsed? ==> Grows(st.o, ParseFrom(args, a, st, cwd, join).0.o)
    decreases |args| - a, if a < |args| then |args[a]| else 0
  {
    if a < |args| {
      StepGrows(args, a, st, cwd, join);
      var m := Step(args, a, st, cwd, join);
      if m.Next? {
        ParseGrows(m.args, m.a, m.st, cwd, join);
      }
    }
  }

  /** An empty argument, in the loop invariant's terms: the whole parse panics. */
  lemma PanicTurn(args: seq<string>, a: nat, st: ParseState, total: (Outcome<Options>, seq<string>), cwd: string, join: Join)
    requires a < |args| && args[a] == "" && Pending(args, a, st, total, cwd, join)
    ensures total == (ArgPanic(st.warnings), args)
  {
  }

  /** The arguments used up, in the loop invariant's terms. */
  lemma Done(args: seq<string>, a: nat, st: ParseState, total: (Outcome<Options>, seq<string>), cwd: string, join: Join)
    requires a >= |args| && Pending(args, a, st, total, cwd, join)
    ensures total == (Parsed(st.o, st.warnings), args)
  {
  }

  /** A value for the current flag, in the loop invariant's terms. */
  lemma ValueTurn(args: seq<string>, a: nat, st: ParseState, total: (Outcome<Options>, seq<string>), cwd: string, join: Join)
    requires a < |args| && args[a] != "" && !(args[a][0] == '-' && st.flag != "--")
    requires Pending(args, a, st, total, cwd, join)
    ensures Pending(args, a + 1, ValueStep(st, args[a], cwd, join), total, cwd, join)
  {
    assert Step(args, a, st, cwd, join) == Next(args, a + 1, ValueStep(st, args[a], cwd, join));
  }

  /** The value branch of the loop body, in the loop invariant's terms. */
  method ValueArg(ghost args: seq<string>, a: nat, arg: string, st: ParseState,
                  ghost total: (Outcome<Options>, seq<string>), cwd: string, join: Join)
    returns (st': ParseState)
    requires a < |args| && arg == args[a] && arg != "" && !(arg[0] == '-' && st.flag != "--")
    requires Pending(args, a, st, total, cwd, join)
    ensures Pending(args, a + 1, st', total, cwd, join)
  {
    st' := GiveValue(arg, st, cwd, join);
    ValueTurn(args, a, st, total, cwd, join);
  }

  /**
   * The flag branch of the loop body: the dashes stripped and counted,
   * more than two refused with a warning, a "-f=v" split at its first '='
   * with "v" written back in the argument's place (`split`) to be read
   * again, and the help check.
   */
  method ReadFlag(args: array<string>, a: nat, st: ParseState, ghost total: (Outcome<Options>, seq<string>), cwd: string, join: Join)
    returns (flag: string, warnings: seq<Warning>, split: bool)
    requires a < args.Length && args[a] != "" && args[a][0] == '-' && st.flag != "--"
    requires Pending(args[..], a, st, total, cwd, join)
    modifies args
    ensures split ==> |args[a]| < |old(args[a])|
    ensures IsHelp(flag) ==> total == (HelpExit(warnings), args[..])
    ensures !IsHelp(flag) ==> Pending(args[..], if split then a else a + 1, ParseState(st.o, flag, warnings), total, cwd, join)
  {
    ghost var before := args[..];
    assert Step(before, a, st, cwd, join) == FlagMove(before, a, st);
    var arg := args[a];
    var ndelims;
    warnings := st.warnings;
    flag, ndelims := StripDashes(arg);
    if ndelims > 2 {
      warnings := warnings + [BadFlagSyntax(arg)];
      flag := "";
    }
    assert flag == FlagOf(arg) && warnings == FlagWarnings(arg, st.warnings);
    split := '=' in flag;
    if split {
      var i := IndexOf(flag, '=');
      args[a] := flag[i + 1..];
      assert args[..] == before[a := flag[i + 1..]];
      flag := flag[..i];
    }
    assert FlagMove(before, a, st)
        == if IsHelp(flag) then Halt(HelpExit(warnings), args[..])
           else Next(args[..], if split then a else a + 1, ParseState(st.o, flag, warnings));
  }

  /** parseArgs, on the caller's argument slice, which it rewrites where it splits "-f=v". */
  method ParseArgs(args: array<string>, existing: Options, cwd: string, join: Join) returns (out: Outcome<Options>)
    modifies args
    ensures (out, args[..]) == ParseFrom(old(args[..]), 0, Start(existing), cwd, join)
  {
    ghost var total := ParseFrom(args[..], 0, Start(existing), cwd, join);
    var st := Start(existing);
    var a: nat := 0;
    while a < args.Length
      invariant a <= args.Length
      invariant Pending(args[..], a, st, total, cwd, join)
      decreases args.Length - a, if a < args.Length then |args[a]| else 0
    {
      var stop;
      stop, a, st := Turn(args, a, st, total, cwd, join);
      if stop.Some? {
        return stop.value;
      }
    }
    Done(args[..], a, st, total, cwd, join);
    out := Parsed(st.o, st.warnings);
  }

  /**
   * The body of parseArgs' loop at argument `a`: the program stops
   * (`stop`), or the loop goes on at `a'`, which is the next argument or,
   * after a split, the same one made shorter.
   */
  method Turn(args: array<string>, a: nat, st: ParseState, ghost total: (Outcome<Options>, seq<string>), cwd: string, join: Join)
    returns (stop: Option<Outcome<Options>>, a': nat, st': ParseState)
    requires a < args.Length && Pending(args[..], a, st, total, cwd, join)
    modifies args
    ensures stop.Some? ==> total == (stop.value, args[..])
    ensures stop.None? ==> a' <= args.Length && Pending(args[..], a', st', total, cwd, join)
    ensures stop.None? ==> a' == a + 1 || (a' == a && |args[a]| < |old(args[a])|)
  {
    var arg := args[a];
    if arg == "" {
      // arg[0] is out of range: the program panics here.
      PanicTurn(args[..], a, st, total, cwd, join);
      return Some(ArgPanic(st.warnings)), a, st;
    }
    var next: int := a;
    if arg[0] == '-' && st.flag != "--" {
      var flag, warnings, split := ReadFlag(args, a, st, total, cwd, join);
      if split {
        next := next - 1;
      }
      if flag == "h" || flag == "help" {
        return Some(HelpExit(warnings)), a, st;
      }
      st' := ParseState(st.o, flag, warnings);
    } else {
      st' := ValueArg(args[..], a, arg, st, total, cwd, join);
    }
    a', stop := next + 1, None;
  }

  /**
   * parseConfig: the config file's lines as arguments, parsed on top of the
   * options so far. A file that cannot be opened is warned about and reads
   * as no lines.
   */
  method ParseConfig(fpath: string, existing: Options, lines: Option<seq<string>>, cwd: string, join: Join)
    returns (out: Outcome<Options>)
    ensures lines.None? ==> out == Parsed(existing, [ConfigUnreadable(fpath)])
    ensures lines.Some? ==> out == ParseFrom(ConfigArgs(lines.value), 0, Start(existing), cwd, join).0
  {
    var warnings := [];
    var text := [];
    if lines.None? {
      warnings := [ConfigUnreadable(fpath)];
    } else {
      text := lines.value;
    }
    var args := ConfigToArgs(text);
    var buf := new string[|args|](i requires 0 <= i < |args| => args[i]);
    assert buf[..] == args;
    out := ParseArgs(buf, existing, cwd, join);
    out := out.(warnings := warnings + out.warnings);
  }

  /** A turn of the loop that goes on only looks at the arguments from `a` on. */
  lemma NextSuffix(args: seq<string>, a: nat, k: nat, st: ParseState, args': seq<string>, a': nat, st': ParseState,
                   cwd: string, join: Join)
    requires k <= a < |args| && Step(args, a, st, cwd, join) == Next(args', a', st')
    ensures k <= a' && k <= |args'|
    ensures ParseFrom(args[k..], a - k, st, cwd, join) == ParseFrom(args'[k..], a' - k, st', cwd, join)
  {
    SuffixNextStep(args, a, k, st, args', a', st', cwd, join);
    NextParse(args[k..], a - k, st, args'[k..], a' - k, st', cwd, join);
  }

  lemma SuffixNextStep(args: seq<string>, a: nat, k: nat, st: ParseState, args': seq<string>, a': nat, st': ParseState,
                   cwd: string, join: Join)
    requires k <= a < |args| && Step(args, a, st, cwd, join) == Next(args', a', st')
    ensures k <= a' && k <= |args'|
    ensures Step(args[k..], a - k, st, cwd, join) == Next(args'[k..], a' - k, st')
  {
    StepSuffixArgs(args, a, k, st, cwd, join);
  }

  /** A turn of the loop that stops the program only looks at the arguments from `a` on. */
  lemma HaltSuffix(args: seq<string>, a: nat, k: nat, st: ParseState, out: Outcome<Options>, args': seq<string>,
                   cwd: string, join: Join)
    requires k <= a < |args| && Step(args, a, st, cwd, join) == Halt(out, args')
    ensures ParseFrom(args[k..], a - k, st, cwd, join).0 == out
  {
    SuffixHaltStep(args, a, k, st, out, args', cwd, join);
    HaltParse(args[k..], a - k, st, out, args'[k..], cwd, join);
  }

  lemma SuffixHaltStep(args: seq<string>, a: nat, k: nat, st: ParseState, out: Outcome<Options>, args': seq<string>,
                       cwd: string, join: Join)
    requires k <= a < |args| && Step(args, a, st, cwd, join) == Halt(out, args')
    ensures Step(args[k..], a - k, st, cwd, join) == Halt(out, args'[k..])
  {
    StepSuffixArgs(args, a, k, st, cwd, join);
  }

  lemma StepSuffixArgs(args: seq<string>, a: nat, k: nat, st: ParseState, cwd: string, join: Join)
    requires k <= a < |args|
    ensures Step(args[k..], a - k, st, cwd, join)
         == match Step(args, a, st, cwd, join)
              case Halt(out, args') => Halt(out, args'[k..])
              case Next(args', a', st') => Next(args'[k..], a' - k, st')
  {
    var arg := args[a];
    assert args[k..][a - k] == arg;
    if arg != "" && arg[0] == '-' && st.flag != "--" {
      var flag := FlagOf(arg);
      if '=' in flag {
        var i := IndexOf(flag, '=');
        assert args[a := flag[i + 1..]][k..] == args[k..][a - k := flag[i + 1..]];
      }
    }
  }

  /** The parse ends where a turn of the loop stops the program. */
  lemma HaltParse(args: seq<string>, a: nat, st: ParseState, out: Outcome<Options>, args': seq<string>, cwd: string, join: Join)
    requires a < |args| && Step(args, a, st, cwd, join) == Halt(out, args')
    ensures ParseFrom(args, a, st, cwd, join) == (out, args')
  {
  }

  /** The parse from argument `a` on does not depend on the arguments before `k <= a`. */
  lemma {:induction false} ParseFromSuffix(args: seq<string>, a: nat, k: nat, st: ParseState, cwd: string, join: Join)
    requires k <= a && k <= |args|
    ensures ParseFrom(args, a, st, cwd, join).0 == ParseFrom(args[k..], a - k, st, cwd, join).0
    decreases |args| - a, if a < |args| then |args[a]| else 0
  {
    if a < |args| {
      match Step(args, a, st, cwd, join)
      case Next(args', a', st') =>
        NextSuffix(args, a, k, st, args', a', st', cwd, join);
        NextParse(args, a, st, args', a', st', cwd, join);
        ParseFromSuffix(args', a', k, st', cwd, join);
      case Halt(out, args') =>
        HaltSuffix(args, a, k, st, out, args', cwd, join);
        HaltParse(args, a, st, out, args', cwd, join);
    }
  }

  /**
   * "-name=value" is read exactly as "-name" followed by "value", for a
   * value that is not itself a flag.
   */
  lemma EqualsSameAsSeparate(name: string, value: string, rest: seq<string>, st: ParseState, cwd: string, join: Join)
    requires '=' !in name && (name == "" || name[0] != '-') && Plain(value)
    requires Undashed(st.flag)
    ensures ParseFrom(["-" + name + "=" + value] + rest, 0, st, cwd, join).0
         == ParseFrom(["-" + name, value] + rest, 0, st, cwd, join).0
  {
    var joined := name + "=" + value;
    var left := ["-" + name + "=" + value] + rest;
    var right := ["-" + name, value] + rest;
    assert left[0] == "-" + joined;
    OneDashFlag(joined);
    assert FlagWarnings(left[0], st.warnings) == st.warnings;
    assert joined[|name|] == '=' && joined[..|name|] == name;
    IndexOfAt(joined, '=', |name|);
    assert joined[|name| + 1..] == value;
    var s := ParseState(st.o, name, st.warnings);
    var left' := left[0 := value];
    assert Step(left, 0, st, cwd, join) == FlagMove(left, 0, st);
    if IsHelp(name) {
      assert FlagMove(left, 0, st) == Halt(HelpExit(st.warnings), left');
      OneDashFlag(name);
      assert Step(right, 0, st, cwd, join) == FlagMove(right, 0, st) == Halt(HelpExit(st.warnings), right);
    } else {
      assert FlagMove(left, 0, st) == Next(left', 0, s);
      var v := ValueStep(s, value, cwd, join);
      StepValue(left', 0, s, cwd, join);
      StepFlag(right, 0, name, st, cwd, join);
      StepValue(right, 1, s, cwd, join);
      assert ParseFrom(left, 0, st, cwd, join).0 == ParseFrom(left', 1, v, cwd, join).0;
      assert ParseFrom(right, 0, st, cwd, join).0 == ParseFrom(right, 2, v, cwd, join).0;
      ParseFromSuffix(left', 1, 1, v, cwd, join);
      ParseFromSuffix(right, 2, 2, v, cwd, join);
      assert left'[1..] == rest && right[2..] == rest;
    }
  }

  /** The root path is set by the first value only: a second draws a warning. */
  lemma RootFirstWins(v1: string, v2: string, o: Options, cwd: string, join: Join)
    requires Plain(v1) && Plain(v2) && o.RootPath == "" && Basedir(v1, cwd, join) != ""
    ensures ParseFrom(["-r", v1, v2], 0, Start(o), cwd, join).0
         == Parsed(o.(RootPath := Basedir(v1, cwd, join)), [IgnoringFlag("r")])
  {
    var args := ["-r", v1, v2];
    assert args[0] == "-" + "r";
    var s1 := ParseState(o, "r", []);
    var s2 := ParseState(o.(RootPath := Basedir(v1, cwd, join)), "r", []);
    StepFlag(args, 0, "r", Start(o), cwd, join);
    StepValue(args, 1, s1, cwd, join);
    StepValue(args, 2, s2, cwd, join);
    assert ValueStep(s1, v1, cwd, join) == s2;
    assert ValueStep(s2, v2, cwd, join) == ParseState(s2.o, "", [IgnoringFlag("r")]);
    NextParse(args, 0, Start(o), args, 1, s1, cwd, join);
    NextParse(args, 1, s1, args, 2, s2, cwd, join);
    NextParse(args, 2, s2, args, 3, ParseState(s2.o, "", [IgnoringFlag("r")]), cwd, join);
  }

  /** "-dk" sets the data key every time, so the last value counts. */
  lemma ShortDataKeyLastWins(k1: string, k2: string, o: Options, cwd: string, join: Join)
    requires Plain(k1) && Plain(k2)
    ensures ParseFrom(["-dk", k1, k2], 0, Start(o), cwd, join).0 == Parsed(o.(DataKey := k2), [])
  {
    var args := ["-dk", k1, k2];
    assert args[0] == "-" + "dk";
    var s1 := ParseState(o, "dk", []);
    var s2 := ParseState(o.(DataKey := k1), "dk", []);
    StepFlag(args, 0, "dk", Start(o), cwd, join);
    StepValue(args, 1, s1, cwd, join);
    StepValue(args, 2, s2, cwd, join);
    assert ValueStep(s1, k1, cwd, join) == s2;
    assert ValueStep(s2, k2, cwd, join) == ParseState(o.(DataKey := k2), "dk", []);
    NextParse(args, 0, Start(o), args, 1, s1, cwd, join);
    NextParse(args, 1, s1, args, 2, s2, cwd, join);
    NextParse(args, 2, s2, args, 3, ParseState(o.(DataKey := k2), "dk", []), cwd, join);
  }

  /** "-datakey" sets an empty data key only, so the first value counts and the next is refused. */
  lemma LongDataKeyFirstWins(k1: string, k2: string, o: Options, cwd: string, join: Join)
    requires Plain(k1) && Plain(k2) && o.DataKey == ""
    ensures ParseFrom(["-datakey", k1, k2], 0, Start(o), cwd, join).0
         == Parsed(o.(DataKey := k1), [IgnoringFlag("datakey")])
  {
    var args := ["-datakey", k1, k2];
    assert args[0] == "-" + "datakey";
    var s1 := ParseState(o, "datakey", []);
    var s2 := ParseState(o.(DataKey := k1), "datakey", []);
    StepFlag(args, 0, "datakey", Start(o), cwd, join);
    StepValue(args, 1, s1, cwd, join);
    StepValue(args, 2, s2, cwd, join);
    LongDataKeyValue(s1, k1, cwd, join);
    LongDataKeyValue(s2, k2, cwd, join);
    NextParse(args, 0, Start(o), args, 1, s1, cwd, join);
    NextParse(args, 1, s1, args, 2, s2, cwd, join);
    NextParse(args, 2, s2, args, 3, ParseState(s2.o, "", [IgnoringFlag("datakey")]), cwd, join);
  }

  /** A value for "-datakey" sets an empty data key, and is refused once one is set. */
  lemma LongDataKeyValue(st: ParseState, arg: string, cwd: string, join: Join)
    requires st.flag == "datakey"
    ensures ValueStep(st, arg, cwd, join)
         == if st.o.DataKey == "" then st.(o := st.o.(DataKey := arg))
            else ParseState(st.o, "", st.warnings + [IgnoringFlag("datakey")])
  {
    var f := st.flag;
    assert |f| == 7 && f[0] == 'd' && f[4] == 'k';
  }

  /** Each argument of a list, made relative to the working directory. */
  function BasedirAll(paths: seq<string>, cwd: string, join: Join): (r: seq<string>)
    ensures |r| == |paths|
    ensures forall i :: 0 <= i < |paths| ==> r[i] == Basedir(paths[i], cwd, join)
  {
    if paths == [] then [] else [Basedir(paths[0], cwd, join)] + BasedirAll(paths[1..], cwd, join)
  }

  /** Every value after "-p" is appended to the partial paths, in order. */
  lemma {:induction false} PartialsAppended(args: seq<string>, a: nat, st: ParseState, cwd: string, join: Join)
    requires a <= |args| && (st.flag == "p" || st.flag == "partial")
    requires forall i :: a <= i < |args| ==> Plain(args[i])
    ensures ParseFrom(args, a, st, cwd, join).0
         == Parsed(st.o.(PartialPaths := st.o.PartialPaths + BasedirAll(args[a..], cwd, join)), st.warnings)
    decreases |args| - a
  {
    if a < |args| {
      var v := Basedir(args[a], cwd, join);
      var next := st.(o := st.o.(PartialPaths := st.o.PartialPaths + [v]));
      PartialValue(st, args[a], cwd, join);
      StepValue(args, a, st, cwd, join);
      NextParse(args, a, st, args, a + 1, next, cwd, join);
      PartialsAppended(args, a + 1, next, cwd, join);
      BasedirAllFrom(args, a, cwd, join);
      ConcatAssoc(st.o.PartialPaths, [v], BasedirAll(args[a + 1..], cwd, join));
    } else {
      assert st.o.PartialPaths + BasedirAll(args[a..], cwd, join) == st.o.PartialPaths;
    }
  }

  /** A value for "-p" is appended to the partial paths. */
  lemma PartialValue(st: ParseState, arg: string, cwd: string, join: Join)
    requires st.flag == "p" || st.flag == "partial"
    ensures ValueStep(st, arg, cwd, join) == st.(o := st.o.(PartialPaths := st.o.PartialPaths + [Basedir(arg, cwd, join)]))
  {
    var f := st.flag;
    assert |f| == 1 || (|f| == 7 && f[0] == 'p');
  }

  lemma BasedirAllFrom(args: seq<string>, a: nat, cwd: string, join: Join)
    requires a < |args|
    ensures BasedirAll(args[a..], cwd, join) == [Basedir(args[a], cwd, join)] + BasedirAll(args[a + 1..], cwd, join)
  {
    assert args[a..][1..] == args[a + 1..];
  }

  /** Values for no flag are passed over without a word. */
  lemma {:induction false} ValuesSkipped(args: seq<string>, a: nat, st: ParseState, cwd: string, join: Join)
    requires a <= |args| && st.flag == ""
    requires forall i :: a <= i < |args| ==> Plain(args[i])
    ensures ParseFrom(args, a, st, cwd, join).0 == Parsed(st.o, st.warnings)
    decreases |args| - a
  {
    if a < |args| {
      assert ValueStep(st, args[a], cwd, join) == st;
      StepValue(args, a, st, cwd, join);
      NextParse(args, a, st, args, a + 1, st, cwd, join);
      ValuesSkipped(args, a + 1, st, cwd, join);
    }
  }

  /** Flags the value chain knows. */
  predicate Known(flag: string) {
    flag in {"r", "root", "p", "partial", "gd", "globaldata", "d", "data", "dk", "datakey", "sd", "sortdata", "cfg", "config"}
  }

  /** A value for a flag the chain does not know is refused and clears the flag. */
  lemma UnknownValue(st: ParseState, arg: string, cwd: string, join: Join)
    requires !Known(st.flag) && st.flag != ""
    ensures ValueStep(st, arg, cwd, join) == ParseState(st.o, "", st.warnings + [IgnoringFlag(st.flag)])
  {
  }

  /** No flag the chain knows holds a '-'. */
  lemma DashedUnknown(f: string)
    requires '-' in f
    ensures !Known(f)
  {
    forall k | Known(k) ensures k != f {
      assert '-' !in k;
    }
  }

  /** "-name v", for a name the chain does not know, draws a warning, clears the flag and sets nothing. */
  lemma UnknownFlagIgnored(name: string, v: string, o: Options, cwd: string, join: Join)
    requires Plain(name) && '=' !in name && !IsHelp(name) && !Known(name) && Plain(v)
    ensures ParseFrom(["-" + name, v], 0, Start(o), cwd, join).0 == Parsed(o, [IgnoringFlag(name)])
  {
    var args := ["-" + name, v];
    var s1 := ParseState(o, name, []);
    StepFlag(args, 0, name, Start(o), cwd, join);
    StepValue(args, 1, s1, cwd, join);
    UnknownValue(s1, v, cwd, join);
    NextParse(args, 0, Start(o), args, 1, s1, cwd, join);
    NextParse(args, 1, s1, args, 2, ParseState(o, "", [IgnoringFlag(name)]), cwd, join);
  }

  /**
   * The long names the help text gives, "global-data", "data-key" and
   * "sort-data", are not the ones the chain knows: a value after one of
   * them draws a warning, clears the flag and sets nothing.
   */
  lemma HelpTextNamesIgnored(name: string, v: string, o: Options, cwd: string, join: Join)
    requires name == "global-data" || name == "data-key" || name == "sort-data"
    requires Plain(v)
    ensures ParseFrom(["-" + name, v], 0, Start(o), cwd, join).0 == Parsed(o, [IgnoringFlag(name)])
  {
    assert Plain(name) && '-' in name && '=' !in name && !IsHelp(name);
    DashedUnknown(name);
    UnknownFlagIgnored(name, v, o, cwd, join);
  }

  /** A flag with three dashes is refused, and the values after it change nothing. */
  lemma ThreeDashesIgnored(name: string, values: seq<string>, st: ParseState, cwd: string, join: Join)
    requires Undashed(st.flag)
    requires forall i :: 0 <= i < |values| ==> Plain(values[i])
    ensures ParseFrom(["---" + name] + values, 0, st, cwd, join).0
         == Parsed(st.o, st.warnings + [BadFlagSyntax("---" + name)])
  {
    var args := ["---" + name] + values;
    ThreeDashesBad(name);
    assert args[0] == "---" + name;
    assert Step(args, 0, st, cwd, join) == FlagMove(args, 0, st);
    assert FlagMove(args, 0, st) == Next(args, 1, ParseState(st.o, "", st.warnings + [BadFlagSyntax("---" + name)]));
    ValuesSkipped(args, 1, ParseState(st.o, "", st.warnings + [BadFlagSyntax("---" + name)]), cwd, join);
  }

  /** "-h" ends the program before any later argument is read. */
  lemma HelpStops(rest: seq<string>, st: ParseState, cwd: string, join: Join)
    requires Undashed(st.flag)
    ensures ParseFrom(["-h"] + rest, 0, st, cwd, join).0 == HelpExit(st.warnings)
  {
    OneDashFlag("h");
    var args := ["-h"] + rest;
    assert args[0] == "-" + "h";
    assert Step(args, 0, st, cwd, join) == FlagMove(args, 0, st);
    assert FlagMove(args, 0, st) == Halt(HelpExit(st.warnings), args);
  }

  /** An empty argument, as a config line "root=" gives, makes the parse panic. */
  lemma EmptyValuePanics(name: string, o: Options, cwd: string, join: Join)
    requires '=' !in name && TrimSpace(name) == name && Plain(name) && !IsHelp(name)
    ensures ParseFrom(ConfigArgs([name + "="]), 0, Start(o), cwd, join).0.ArgPanic?
  {
    KeyValueLine(name, "");
    assert name + "=" == name + "=" + "";
    assert ConfigArgs([name + "="]) == ConfigArgs([]) + LineArgs(name + "=");
    var args := ["-" + name, ""];
    assert ConfigArgs([name + "="]) == args;
    var s1 := ParseState(o, name, []);
    StepFlag(args, 0, name, Start(o), cwd, join);
    assert Step(args, 1, s1, cwd, join) == Halt(ArgPanic([]), args);
  }
}
