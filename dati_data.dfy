/**
 * data.go: recognising a data language from a path or a name, and loading
 * a data file into the value a caller's `outp` designates. The JSON, YAML
 * and TOML decoders are a parameter (`Decoder`): given the language, the
 * bytes read and the value currently behind `outp`, it returns the
 * value left behind `outp` and, possibly, an error message.
 */
module DatiData {
  import opened Common
  import opened GoStrings

  /** The supported data languages, in the order ReadDataFormat tries them. */
  const Formats: seq<string> := ["json", "yaml", "toml"]

  type Decoder = (string, seq<byte>, Value) -> (Value, Option<string>)

  /** The value a caller's `outp` argument designates. */
  class Target {
    var value: Value

    constructor(v: Value)
      ensures value == v
    {
      value := v;
    }
  }

  /**
   * The language name a path suggests: its extension, or the whole string
   * when it has none, lower-cased and without one leading dot.
   */
  function Suggested(path: string): (name: string)
    ensures Ext(path) != "" ==> "." + name == ToLower(Ext(path))
  {
    var ext := if Ext(path) == "" then path else Ext(path);
    TrimDot(ToLower(ext))
  }

  /** The data format `path` names: one of Formats, or "" for none. */
  function FormatOf(path: string): (r: string)
    ensures r == "" || r in Formats
    ensures r != "" ==> r == Suggested(path)
    ensures path != "" && Suggested(path) in Formats ==> r == Suggested(path)
  {
    if path == "" then ""
    else if Suggested(path) in Formats then Suggested(path)
    else ""
  }

  /** ReadDataFormat: the empty string first, then a search of Formats that returns on the first match. */
  method ReadDataFormat(path: string) returns (r: string)
    ensures r == FormatOf(path)
  {
    if |path| == 0 {
      return "";
    }
    var ext := Ext(path);
    if |ext| == 0 {
      ext := path;
    }
    ext := ToLower(ext);
    if |ext| > 0 && ext[0] == '.' {
      ext := ext[1..];
    }
    assert ext == Suggested(path);
    for i := 0 to |Formats|
      invariant ext !in Formats[..i]
    {
      if Formats[i] == ext {
        return Formats[i];
      }
    }
    assert Formats[..|Formats|] == Formats;
    return "";
  }

  /** IsDataFormat holds exactly when ReadDataFormat finds a language. */
  method IsDataFormat(path: string) returns (b: bool)
    ensures b <==> FormatOf(path) in Formats
  {
    var f := ReadDataFormat(path);
    b := f != "";
  }

  /** Lower-casing never changes the language a path names. */
  lemma FormatOfCaseInsensitive(path: string)
    ensures FormatOf(ToLower(path)) == FormatOf(path)
  {
    ExtToLower(path);
    ToLowerIdempotent(path);
    ToLowerIdempotent(Ext(path));
  }

  /** A file name's extension decides its language, whatever its case. */
  lemma FormatOfFileName(stem: string, ext: string)
    requires '.' !in ext && '/' !in ext
    ensures FormatOf(stem + "." + ext) == if ToLower(ext) in Formats then ToLower(ext) else ""
  {
    ExtOfSuffix(stem, ext);
    assert ToLower("." + ext) == "." + ToLower(ext);
  }

  /** A dot followed by a dot-free name names that language, whatever its case. */
  lemma FormatOfDotted(path: string)
    requires |path| > 0 && path[0] == '.' && '.' !in path[1..] && '/' !in path[1..]
    ensures FormatOf(path) == if ToLower(path[1..]) in Formats then ToLower(path[1..]) else ""
  {
    FormatOfFileName("", path[1..]);
    assert "" + "." + path[1..] == path;
  }

  /** A name without dot or slash is taken as a language name, whatever its case. */
  lemma FormatOfBareName(name: string)
    requires name != "" && '.' !in name && '/' !in name
    ensures FormatOf(name) == if ToLower(name) in Formats then ToLower(name) else ""
  {
    ExtWithoutDot(name);
  }

  lemma {:induction false} ExtWithoutDot(p: string)
    requires '.' !in p && '/' !in p
    ensures Ext(p) == ""
  {
    if p != [] {
      ExtWithoutDot(p[..|p| - 1]);
    }
  }

  /** Rows of the dataExts table of data_test.go: "json" and "JSON". */
  lemma JsonNameRows()
    ensures FormatOf("json") == "json" && FormatOf("JSON") == "json"
  {
    assert ToLower("json") == "json" && ToLower("JSON") == "json";
    FormatOfBareName("json");
    FormatOfBareName("JSON");
  }

  /** Row ".json" of the dataExts table. */
  lemma JsonDotRow()
    ensures FormatOf(".json") == "json"
  {
    assert ".json"[1..] == "json" && ToLower("json") == "json";
    FormatOfDotted(".json");
  }

  /** Row ".JSON" of the dataExts table. */
  lemma JsonUpperDotRow()
    ensures FormatOf(".JSON") == "json"
  {
    assert ".JSON"[1..] == "JSON" && ToLower("JSON") == "json";
    FormatOfDotted(".JSON");
  }

  /** Rows of the dataExts table of data_test.go: "yaml" and "YAML". */
  lemma YamlNameRows()
    ensures FormatOf("yaml") == "yaml" && FormatOf("YAML") == "yaml"
  {
    assert ToLower("yaml") == "yaml" && ToLower("YAML") == "yaml";
    FormatOfBareName("yaml");
    FormatOfBareName("YAML");
  }

  /** Row ".yaml" of the dataExts table. */
  lemma YamlDotRow()
    ensures FormatOf(".yaml") == "yaml"
  {
    assert ".yaml"[1..] == "yaml" && ToLower("yaml") == "yaml";
    FormatOfDotted(".yaml");
  }

  /** Row ".YAML" of the dataExts table. */
  lemma YamlUpperDotRow()
    ensures FormatOf(".YAML") == "yaml"
  {
    assert ".YAML"[1..] == "YAML" && ToLower("YAML") == "yaml";
    FormatOfDotted(".YAML");
  }

  /** Rows of the dataExts table of data_test.go: "toml" and "TOML". */
  lemma TomlNameRows()
    ensures FormatOf("toml") == "toml" && FormatOf("TOML") == "toml"
  {
    assert ToLower("toml") == "toml" && ToLower("TOML") == "toml";
    FormatOfBareName("toml");
    FormatOfBareName("TOML");
  }

  /** Row ".toml" of the dataExts table. */
  lemma TomlDotRow()
    ensures FormatOf(".toml") == "toml"
  {
    assert ".toml"[1..] == "toml" && ToLower("toml") == "toml";
    FormatOfDotted(".toml");
  }

  /** Row ".TOML" of the dataExts table. */
  lemma TomlUpperDotRow()
    ensures FormatOf(".TOML") == "toml"
  {
    assert ".TOML"[1..] == "TOML" && ToLower("TOML") == "toml";
    FormatOfDotted(".TOML");
  }

  /** Row ".misc" of the dataExts table: an unknown extension. */
  lemma MiscDotRow()
    ensures FormatOf(".misc") == ""
  {
    assert ".misc"[1..] == "misc" && ToLower("misc") == "misc";
    FormatOfDotted(".misc");
  }

  /** Rows "-", "." and "" of the dataExts table. */
  lemma NoNameRows()
    ensures FormatOf("-") == "" && FormatOf(".") == "" && FormatOf("") == ""
  {
    assert ToLower("-") == "-";
    FormatOfBareName("-");
    assert "."[1..] == "";
    FormatOfDotted(".");
  }

  /**
   * What LoadData does: a read failure is returned; empty input succeeds
   * before the language is looked at, leaving the target alone; otherwise
   * the decoder for the language runs, and any other language is an error.
   */
  function LoadResult(format: string, input: Input, prior: Value, decode: Decoder): (r: (Value, Option<Error>))
    ensures input.Unreadable? ==> r == (prior, Some(ReadFailed(input.msg)))
    ensures input == Bytes([]) ==> r == (prior, None)
    ensures input.Bytes? && input.content != [] && format !in Formats ==>
      r == (prior, Some(UnsupportedDataLang(format)))
    ensures input.Bytes? && input.content != [] && format in Formats ==>
      r.0 == decode(format, input.content, prior).0
      && (r.1.None? <==> decode(format, input.content, prior).1.None?)
  {
    match input
    case Unreadable(msg) => (prior, Some(ReadFailed(msg)))
    case Bytes(content) =>
      if |content| == 0 then (prior, None)
      else if format in Formats then
        var (v, e) := decode(format, content, prior);
        (v, if e.Some? then Some(DecodeFailed(e.value)) else None)
      else (prior, Some(UnsupportedDataLang(format)))
  }

  /** Empty input succeeds for every language, even one that is not supported. */
  lemma EmptyInputAlwaysLoads(format: string, prior: Value, decode: Decoder)
    ensures LoadResult(format, Bytes([]), prior, decode) == (prior, None)
  {
  }

  method LoadData(format: string, input: Input, outp: Target, decode: Decoder) returns (err: Option<Error>)
    modifies outp
    ensures (outp.value, err) == LoadResult(format, input, old(outp.value), decode)
  {
    match input {
      case Unreadable(msg) =>
        return Some(ReadFailed(msg));
      case Bytes(inbuf) =>
        if |inbuf| == 0 {
          return None;
        }
        if format == "json" || format == "yaml" || format == "toml" {
          var (v, e) := decode(format, inbuf, outp.value);
          outp.value := v;
          err := if e.Some? then Some(DecodeFailed(e.value)) else None;
        } else {
          err := Some(UnsupportedDataLang(format));
        }
    }
  }

  /**
   * What LoadDataFile does: an open failure is returned as it is; a load
   * failure is wrapped with the path.
   */
  function LoadFileResult(path: string, fs: Fs, prior: Value, decode: Decoder): (r: (Value, Option<Error>))
    ensures path !in fs.files ==> r == (prior, Some(OpenFailed(path)))
    ensures path in fs.files ==>
      var (v, e) := LoadResult(FormatOf(path), fs.files[path], prior, decode);
      r.0 == v && (e.None? ==> r.1.None?) && (e.Some? ==> r.1 == Some(LoadFailed(path, e.value)))
  {
    if path !in fs.files then (prior, Some(OpenFailed(path)))
    else
      var (v, e) := LoadResult(FormatOf(path), fs.files[path], prior, decode);
      (v, if e.Some? then Some(LoadFailed(path, e.value)) else None)
  }

  /** An empty file loads without error whatever its extension. */
  lemma EmptyFileLoads(path: string, fs: Fs, prior: Value, decode: Decoder)
    requires path in fs.files && fs.files[path] == Bytes([])
    ensures LoadFileResult(path, fs, prior, decode) == (prior, None)
  {
  }

  /** A non-empty file whose extension names no data language fails, wrapped with its path. */
  lemma UnknownExtensionFails(path: string, fs: Fs, prior: Value, decode: Decoder)
    requires path in fs.files && fs.files[path].Bytes? && fs.files[path].content != []
    requires FormatOf(path) == ""
    ensures LoadFileResult(path, fs, prior, decode) == (prior, Some(LoadFailed(path, UnsupportedDataLang(""))))
  {
  }

  method LoadDataFile(path: string, fs: Fs, outp: Target, decode: Decoder) returns (err: Option<Error>)
    modifies outp
    ensures (outp.value, err) == LoadFileResult(path, fs, old(outp.value), decode)
  {
    if path !in fs.files {
      return Some(OpenFailed(path));
    }
    var format := ReadDataFormat(path);
    err := LoadData(format, fs.files[path], outp, decode);
    if err.Some? {
      err := Some(LoadFailed(path, err.value));
    }
  }
}
