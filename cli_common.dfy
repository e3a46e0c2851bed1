/**
 * What the command-line front ends of cmd/dati.go, cmd/suti.go and
 * src/suti.go share word for word: the options they fill, how a flag
 * argument loses its leading dashes, how a config file becomes a list of
 * arguments, and the defaults filled in last.
 */
module CliCommon {
  import opened Common
  import opened GoStrings

  /** The options struct of the three later front ends. */
  datatype Options = Options(
    RootPath: string,
    PartialPaths: seq<string>,
    GlobalDataPaths: seq<string>,
    DataPaths: seq<string>,
    DataKey: string,
    SortData: string,
    ConfigFile: string)

  /** `options{}`: every field empty. */
  const NoOptions := Options("", [], [], [], "", "", "")

  /**
   * How a parse ends: it runs to the end of the arguments, or `-h` exits
   * the program, or an empty argument makes `arg[0]` panic. The warnings
   * printed until then are kept in every case.
   */
  datatype Outcome<O> = Parsed(o: O, warnings: seq<Warning>) | HelpExit(warnings: seq<Warning>) | ArgPanic(warnings: seq<Warning>)

  /** What the argument loop carries from one argument to the next. */
  datatype ParseState = ParseState(o: Options, flag: string, warnings: seq<Warning>)

  /** The loop's state before the first argument: the options given, no flag, no warnings. */
  function Start(existing: Options): ParseState {
    ParseState(existing, "", [])
  }

  /** The warnings after reading a flag argument: one more if it has more than two dashes. */
  function FlagWarnings(arg: string, warnings: seq<Warning>): seq<Warning> {
    if LeadingDashes(arg) > 2 then warnings + [BadFlagSyntax(arg)] else warnings
  }

  /**
   * What a parse may do to the options: lists only grow at their end, and
   * a root path once set stays.
   */
  predicate Grows(o: Options, o': Options) {
    o.PartialPaths <= o'.PartialPaths && o.GlobalDataPaths <= o'.GlobalDataPaths
    && o.DataPaths <= o'.DataPaths && (o.RootPath != "" ==> o'.RootPath == o.RootPath)
  }

  /** An argument that is read as the value of the current flag. */
  predicate Plain(arg: string) {
    arg != "" && arg[0] != '-'
  }

  /** A flag name without leading dashes. */
  predicate Undashed(flag: string) {
    flag == "" || flag[0] != '-'
  }

  /** The dash-stripping loop: drops every leading '-' and counts them. */
  method StripDashes(arg: string) returns (flag: string, ndelims: nat)
    ensures ndelims == LeadingDashes(arg)
    ensures flag == arg[ndelims..]
    ensures flag == "" || flag[0] != '-'
  {
    flag, ndelims := arg, 0;
    while |flag| > 0 && flag[0] == '-'
      invariant ndelims <= |arg| && flag == arg[ndelims..]
      invariant LeadingDashes(arg) == ndelims + LeadingDashes(flag)
      decreases |flag|
    {
      flag := flag[1..];
      ndelims := ndelims + 1;
    }
  }

  /**
   * The flag a flag argument sets: the name after its dashes, or no flag
   * at all when there are more than two dashes (which is warned about).
   */
  function FlagOf(arg: string): (r: string)
    ensures |r| <= |arg|
    ensures r == "" || r[0] != '-'
    ensures LeadingDashes(arg) <= 2 ==> r == arg[LeadingDashes(arg)..]
    ensures LeadingDashes(arg) > 2 ==> r == ""
  {
    var n := LeadingDashes(arg);
    if n > 2 then "" else arg[n..]
  }

  /** "-" followed by a name that does not start with a dash is that name as a flag. */
  lemma OneDashFlag(name: string)
    requires name == "" || name[0] != '-'
    ensures LeadingDashes("-" + name) == 1 && FlagOf("-" + name) == name
  {
    assert ("-" + name)[1..] == name;
    assert LeadingDashes("-" + name) == 1 + LeadingDashes(name);
  }

  /** Three dashes or more name no flag, whatever follows. */
  lemma ThreeDashesBad(rest: string)
    ensures LeadingDashes("---" + rest) > 2 && FlagOf("---" + rest) == ""
  {
    var s := "---" + rest;
    assert s[1..][1..][1..] == rest;
    assert LeadingDashes(s) == 3 + LeadingDashes(rest);
  }

  /** setDefaultOptions: an empty sort order becomes "filename", an empty data key "data". */
  function SetDefaultOptions(o: Options): (r: Options)
    ensures r.SortData != "" && r.DataKey != ""
    ensures o.SortData != "" ==> r.SortData == o.SortData
    ensures o.DataKey != "" ==> r.DataKey == o.DataKey
    ensures o.SortData == "" ==> r.SortData == "filename"
    ensures o.DataKey == "" ==> r.DataKey == "data"
    ensures r.(SortData := o.SortData, DataKey := o.DataKey) == o
  {
    var o1 := if |o.SortData| == 0 then o.(SortData := "filename") else o;
    if |o1.DataKey| == 0 then o1.(DataKey := "data") else o1
  }

  /** Filling in the defaults twice is filling them in once. */
  lemma DefaultsIdempotent(o: Options)
    ensures SetDefaultOptions(SetDefaultOptions(o)) == SetDefaultOptions(o)
  {
  }

  /**
   * One line of a config file as arguments: the line split at every '=',
   * each piece trimmed of white space, the first piece made a flag by a
   * leading '-'.
   */
  function LineArgs(line: string): seq<string> {
    var parts := Split(line, '=');
    seq(|parts|, i requires 0 <= i < |parts| => TrimmedPiece(parts, i))
  }

  /**
   * A line gives one argument more than it has '=' characters, none of
   * them holding a '=', the first a flag.
   */
  lemma LineArgsShape(line: string)
    ensures |LineArgs(line)| == Count(line, '=') + 1
    ensures forall i :: 0 <= i < |LineArgs(line)| ==> '=' !in LineArgs(line)[i]
    ensures LineArgs(line)[0] != "" && LineArgs(line)[0][0] == '-'
  {
    SplitLength(line, '=');
  }

  /** The i-th argument a line's pieces give. */
  function TrimmedPiece(parts: seq<string>, i: nat): (r: string)
    requires i < |parts| && '=' !in parts[i]
    ensures '=' !in r
    ensures i == 0 ==> r != "" && r[0] == '-'
  {
    TrimNoEquals(parts[i]);
    if i == 0 then "-" + TrimSpace(parts[i]) else TrimSpace(parts[i])
  }

  lemma TrimNoEquals(s: string)
    requires '=' !in s
    ensures '=' !in TrimSpace(s)
  {
    var i, j :| 0 <= i <= j <= |s| && TrimSpace(s) == s[i..j];
    assert forall k :: 0 <= k < j - i ==> s[i..j][k] == s[i + k];
  }

  /** A line `name = value` is the two arguments "-name" and "value", trimmed. */
  lemma KeyValueLine(name: string, value: string)
    requires '=' !in name && '=' !in value
    ensures LineArgs(name + "=" + value) == ["-" + TrimSpace(name), TrimSpace(value)]
  {
    var line := name + "=" + value;
    assert line[|name|] == '=' && line[..|name|] == name;
    IndexOfAt(line, '=', |name|);
    assert line[|name| + 1..] == value;
    assert Split(line, '=') == [name, value];
  }

  /** The first `c` of `s` is at `k` when `s[k]` is one and none comes before it. */
  lemma {:induction false} IndexOfAt(s: string, c: char, k: nat)
    requires k < |s| && s[k] == c && c !in s[..k]
    ensures IndexOf(s, c) == k
  {
    if k > 0 {
      assert s[..k][0] == s[0];
      assert s[1..][..k - 1] == s[..k][1..];
      IndexOfAt(s[1..], c, k - 1);
    }
  }

  /** The arguments a whole config file gives: its lines' arguments, in order. */
  function ConfigArgs(lines: seq<string>): seq<string> {
    if lines == [] then []
    else ConfigArgs(lines[..|lines| - 1]) + LineArgs(lines[|lines| - 1])
  }

  /** A config file split anywhere gives the arguments of its two halves, one after the other. */
  lemma {:induction false} ConfigArgsConcat(front: seq<string>, back: seq<string>)
    ensures ConfigArgs(front + back) == ConfigArgs(front) + ConfigArgs(back)
    decreases |back|
  {
    if back != [] {
      var n := |back| - 1;
      var whole := front + back;
      assert whole[..|whole| - 1] == front + back[..n];
      assert whole[|whole| - 1] == back[n];
      ConfigArgsConcat(front, back[..n]);
      var f, b, l := ConfigArgs(front), ConfigArgs(back[..n]), LineArgs(back[n]);
      assert ConfigArgs(whole) == f + b + l;
      assert ConfigArgs(back) == b + l;
      ConcatAssoc(f, b, l);
    } else {
      assert front + back == front;
    }
  }

  lemma ConcatAssoc<T>(a: seq<T>, b: seq<T>, c: seq<T>)
    ensures a + b + c == a + (b + c)
  {
  }

  /** Each line contributes one argument more than it has '=' characters. */
  lemma {:induction false} ConfigArgsCount(lines: seq<string>)
    ensures |ConfigArgs(lines)| >= |lines|
  {
    if lines != [] {
      ConfigArgsCount(lines[..|lines| - 1]);
    }
  }

  /** parseConfig's scanning loop: every line split, trimmed and appended. */
  method ConfigToArgs(lines: seq<string>) returns (args: seq<string>)
    ensures args == ConfigArgs(lines)
  {
    args := [];
    for l := 0 to |lines|
      invariant args == ConfigArgs(lines[..l])
    {
      assert lines[..l + 1][..l] == lines[..l];
      var more := LineToArgs(lines[l]);
      args := args + more;
    }
    assert lines[..|lines|] == lines;
  }

  /** The inner loop of parseConfig: one line's pieces, trimmed, the first made a flag. */
  method LineToArgs(line: string) returns (args: seq<string>)
    ensures args == LineArgs(line)
  {
    var pieces := Split(line, '=');
    ghost var want := LineArgs(line);
    args := [];
    for i := 0 to |pieces|
      invariant |args| == i && forall j :: 0 <= j < i ==> args[j] == want[j]
    {
      var arg := PieceArg(pieces, i);
      args := args + [arg];
    }
  }

  /** One piece of a line, trimmed, the first made a flag. */
  method PieceArg(pieces: seq<string>, i: nat) returns (arg: string)
    requires i < |pieces| && '=' !in pieces[i]
    ensures arg == TrimmedPiece(pieces, i)
  {
    arg := TrimSpace(pieces[i]);
    if i == 0 {
      arg := "-" + arg;
    }
  }
}
