/**
 * template.go: recognising a template language, loading a root template
 * with its partials into one of three engines, and executing it.
 *
 * The engines (text/template, html/template, mustache) are parameters:
 * `GoParser` parses one named Go template text, `MstParser` parses a
 * mustache root against a map of partial texts, and `Renderer` performs
 * the library call Execute chooses. A parsed template is represented by
 * the texts it was built from.
 */
module DatiTemplate {
  import opened Common
  import opened GoStrings

  /** SupportedTemplateLangs. */
  const Langs: seq<string> := ["tmpl", "hmpl", "mst"]

  datatype Kind = Text | Html | Mustache

  /** A successfully parsed template. */
  datatype Engine =
    | GoTemplate(html: bool, name: string, root: seq<byte>, defs: map<string, seq<byte>>)
    | MstTemplate(root: seq<byte>, partials: map<string, seq<byte>>)

  /**
   * The dynamic value held in Template.T: nil, a reference to one of the
   * engines' template types (itself possibly nil, as when a loader fails),
   * or a value of any other type.
   */
  datatype TValue = NilT | Ptr(kind: Kind, engine: Option<Engine>) | Other(typeName: string)

  datatype Template = Template(Name: string, T: TValue)

  type GoParser = (Kind, string, seq<byte>) -> Option<string>
  type MstParser = (seq<byte>, map<string, seq<byte>>) -> Option<string>

  /** Position of `x` in `s`, or -1. */
  function IndexIn(s: seq<string>, x: string): (i: int)
    ensures -1 <= i < |s|
    ensures i >= 0 ==> s[i] == x && x !in s[..i]
    ensures i == -1 <==> x !in s
  {
    if s == [] then -1
    else if s[0] == x then 0
    else
      var j := IndexIn(s[1..], x);
      assert s[1..] == s[..|s|][1..];
      if j == -1 then -1
      else
        assert s[..j + 1] == [s[0]] + s[1..][..j];
        j + 1
  }

  /** The index IsSupportedTemplateLang reports for `lang`. */
  function LangIndex(lang: string): (i: int)
    ensures -1 <= i < |Langs|
    ensures i >= 0 ==> Langs[i] == TrimDot(ToLower(lang))
    ensures i == -1 <==> TrimDot(ToLower(lang)) !in Langs
  {
    IndexIn(Langs, TrimDot(ToLower(lang)))
  }

  /** IsSupportedTemplateLang: lower-case, strip one dot, search with early return. */
  method IsSupportedTemplateLang(lang: string) returns (r: int)
    ensures r == LangIndex(lang)
  {
    var l := ToLower(lang);
    if |l| > 0 && l[0] == '.' {
      l := l[1..];
    }
    for i := 0 to |Langs|
      invariant l !in Langs[..i]
    {
      if l == Langs[i] {
        assert Langs[..i + 1] == Langs[..i] + [Langs[i]];
        return i;
      }
    }
    assert Langs[..|Langs|] == Langs;
    return -1;
  }

  /** Upper-case letters and a leading dot make no difference to the index. */
  lemma LangIndexNormalises(lang: string)
    ensures LangIndex("." + lang) == LangIndex(lang) || (|lang| > 0 && lang[0] == '.')
    ensures LangIndex(ToLower(lang)) == LangIndex(lang)
  {
    LangIndexLower(lang);
    if !(|lang| > 0 && lang[0] == '.') {
      LangIndexDot(lang);
    }
  }

  lemma LangIndexLower(lang: string)
    ensures LangIndex(ToLower(lang)) == LangIndex(lang)
  {
    ToLowerIdempotent(lang);
    assert TrimDot(ToLower(ToLower(lang))) == TrimDot(ToLower(lang));
  }

  lemma LangIndexDot(lang: string)
    requires !(|lang| > 0 && lang[0] == '.')
    ensures LangIndex("." + lang) == LangIndex(lang)
  {
    ToLowerCons('.', lang);
    var l := ToLower(lang);
    var dl := ToLower("." + lang);
    assert LowerChar('.') == '.' && dl == ['.'] + l;
    assert dl[1..] == l;
    assert TrimDot(dl) == TrimDot(l);
  }

  /** The tmpl rows of TestIsSupportedTemplateLang. */
  lemma TmplRows()
    ensures LangIndex(".tmpl") == 0 && LangIndex("tmpl") == 0
    ensures LangIndex("TMPL") == 0 && LangIndex(".TMPL") == 0
  {
    assert ToLower("tmpl") == "tmpl" && ToLower("TMPL") == "tmpl";
    assert ToLower(".tmpl") == ".tmpl" && ToLower(".TMPL") == ".tmpl";
  }

  /** The hmpl rows of TestIsSupportedTemplateLang. */
  lemma HmplRows()
    ensures LangIndex(".hmpl") == 1 && LangIndex("hmpl") == 1
    ensures LangIndex("HMPL") == 1 && LangIndex(".HMPL") == 1
  {
    assert ToLower("hmpl") == "hmpl" && ToLower("HMPL") == "hmpl";
    assert ToLower(".hmpl") == ".hmpl" && ToLower(".HMPL") == ".hmpl";
  }

  /** The mst rows of TestIsSupportedTemplateLang. */
  lemma MstRows()
    ensures LangIndex(".mst") == 2 && LangIndex("mst") == 2
    ensures LangIndex("MST") == 2 && LangIndex(".MST") == 2
  {
    assert ToLower("mst") == "mst" && ToLower("MST") == "mst";
    assert ToLower(".mst") == ".mst" && ToLower(".MST") == ".mst";
  }

  /** The unsupported rows of TestIsSupportedTemplateLang. */
  lemma UnsupportedRows()
    ensures LangIndex(".NONE") == -1 && LangIndex("-") == -1
    ensures LangIndex(".") == -1 && LangIndex("") == -1
  {
    assert ToLower(".NONE") == ".none" && ToLower("-") == "-" && ToLower(".") == ".";
  }

  /** getTemplateType: the extension of `path` without its dot, case kept. */
  function GetTemplateType(path: string): (r: string)
    ensures '.' !in r && '/' !in r
    ensures Ext(path) == "" ==> r == ""
    ensures Ext(path) != "" ==> Ext(path) == "." + r
  {
    TrimDot(Ext(path))
  }

  /** A file's template type is its extension exactly as written. */
  lemma TemplateTypeOfFileName(stem: string, ext: string)
    requires '.' !in ext && '/' !in ext
    ensures GetTemplateType(stem + "." + ext) == ext
  {
    ExtOfSuffix(stem, ext);
  }

  /** The root name: the base name of the path without its extension. */
  function RootName(path: string): (r: string)
    ensures IsSuffix(Ext(path), Base(path)) ==> Base(path) == r + Ext(path)
  {
    TrimSuffix(Base(path), Ext(path))
  }

  lemma RootNameOfFile(dir: string, stem: string, ext: string)
    requires stem != "" && '/' !in stem && '.' !in ext && '/' !in ext
    ensures RootName(dir + "/" + stem + "." + ext) == stem
  {
    var p := dir + "/" + stem + "." + ext;
    BaseOfFile(dir, stem, ext);
    ExtOfFile(dir, stem, ext);
    DotSuffixTrimmed(stem, ext);
  }

  lemma BaseOfFile(dir: string, stem: string, ext: string)
    requires '/' !in stem && '/' !in ext
    ensures Base(dir + "/" + stem + "." + ext) == stem + "." + ext
  {
    assert dir + "/" + stem + "." + ext == dir + "/" + (stem + "." + ext);
    BaseOfChild(dir, stem + "." + ext);
  }

  lemma ExtOfFile(dir: string, stem: string, ext: string)
    requires '.' !in ext && '/' !in ext
    ensures Ext(dir + "/" + stem + "." + ext) == "." + ext
  {
    ExtOfSuffix(dir + "/" + stem, ext);
  }

  lemma DotSuffixTrimmed(stem: string, ext: string)
    ensures TrimSuffix(stem + "." + ext, "." + ext) == stem
  {
    var s := stem + "." + ext;
    assert s == stem + ("." + ext);
    assert s[|stem|..] == "." + ext;
    assert s[..|stem|] == stem;
  }
  /** The error ReadAll followed by parsing gives for one Go template text. */
  function GoTextError(kind: Kind, name: string, input: Input, parse: GoParser): (r: Option<Error>)
    ensures input.Unreadable? ==> r == Some(ReadFailed(input.msg))
    ensures input.Bytes? ==> (r.None? <==> parse(kind, name, input.content).None?)
  {
    match input
    case Unreadable(msg) => Some(ReadFailed(msg))
    case Bytes(buf) =>
      match parse(kind, name, buf)
      case Some(msg) => Some(ParseFailed(msg))
      case None => None
  }

  /** The texts of readable inputs. */
  function Texts(partials: map<string, Input>): (r: map<string, seq<byte>>)
    ensures r.Keys == set n | n in partials && partials[n].Bytes?
    ensures forall n | n in r :: r[n] == partials[n].content
  {
    map n | n in partials && partials[n].Bytes? :: partials[n].content
  }

  /**
   * What loadTemplateTmpl / loadTemplateHmpl give: the root's error if it
   * fails, otherwise the error of some failing partial (the first one map
   * iteration reaches) with a nil template, otherwise a template
   * holding the root and every partial.
   */
  predicate GoLoadOutcome(kind: Kind, rootName: string, root: Input, partials: map<string, Input>,
                          parse: GoParser, tv: TValue, e: Option<Error>) {
    var rootErr := GoTextError(kind, rootName, root, parse);
    if rootErr.Some? then tv == Ptr(kind, None) && e == rootErr
    else if exists n | n in partials :: GoTextError(kind, n, partials[n], parse).Some? then
      tv == Ptr(kind, None)
      && exists n | n in partials :: e == GoTextError(kind, n, partials[n], parse) && e.Some?
    else
      e.None? && tv == Ptr(kind, Some(GoTemplate(kind == Html, rootName, root.content, Texts(partials))))
  }

  /**
   * The partial loop of loadTemplateTmpl / loadTemplateHmpl, in map
   * iteration order: every text parsed, or the first partial that fails.
   */
  method ParseGoPartials(kind: Kind, partials: map<string, Input>, parse: GoParser)
    returns (defs: map<string, seq<byte>>, bad: Option<string>)
    ensures bad.Some? ==> bad.value in partials && GoTextError(kind, bad.value, partials[bad.value], parse).Some?
    ensures bad.None? ==> defs == Texts(partials) && forall n | n in partials :: GoTextError(kind, n, partials[n], parse).None?
  {
    defs := map[];
    var left := partials.Keys;
    while left != {}
      invariant left <= partials.Keys
      invariant forall n | n in partials && n !in left :: GoTextError(kind, n, partials[n], parse).None?
      invariant forall n | n in partials && n !in left :: partials[n].Bytes?
      invariant defs == map n | n in partials && n !in left :: partials[n].content
      decreases |left|
    {
      var name :| name in left;
      var e := GoTextError(kind, name, partials[name], parse);
      if e.Some? {
        return defs, Some(name);
      }
      assert partials[name].Bytes?;
      defs := defs[name := partials[name].content];
      left := left - {name};
    }
    bad := None;
  }

  method LoadGoTemplate(kind: Kind, rootName: string, root: Input, partials: map<string, Input>, parse: GoParser)
    returns (tv: TValue, e: Option<Error>)
    requires kind != Mustache
    ensures GoLoadOutcome(kind, rootName, root, partials, parse, tv, e)
  {
    e := GoTextError(kind, rootName, root, parse);
    if e.Some? {
      return Ptr(kind, None), e;
    }
    var defs, bad := ParseGoPartials(kind, partials, parse);
    if bad.Some? {
      return Ptr(kind, None), GoTextError(kind, bad.value, partials[bad.value], parse);
    }
    tv := Ptr(kind, Some(GoTemplate(kind == Html, rootName, root.content, defs)));
  }

  /**
   * What loadTemplateMst gives: every partial is read before the root, so
   * an unreadable partial wins over an unreadable root; then the root is
   * parsed against all partial texts.
   */
  predicate MstLoadOutcome(root: Input, partials: map<string, Input>, parse: MstParser,
                           tv: TValue, e: Option<Error>) {
    if exists n | n in partials :: partials[n].Unreadable? then
      tv == Ptr(Mustache, None)
      && exists n | n in partials && partials[n].Unreadable? :: e == Some(ReadFailed(partials[n].msg))
    else if root.Unreadable? then
      tv == Ptr(Mustache, None) && e == Some(ReadFailed(root.msg))
    else
      match parse(root.content, Texts(partials))
      case Some(msg) => tv == Ptr(Mustache, None) && e == Some(ParseFailed(msg))
      case None => e.None? && tv == Ptr(Mustache, Some(MstTemplate(root.content, Texts(partials))))
  }

  /** An unreadable partial fails the load with its read error, whatever the root holds. */
  lemma MstPartialUnreadable(root: Input, partials: map<string, Input>, parse: MstParser, name: string)
    requires name in partials && partials[name].Unreadable?
    ensures MstLoadOutcome(root, partials, parse, Ptr(Mustache, None), Some(ReadFailed(partials[name].msg)))
  {
  }

  /**
   * The partial loop of loadTemplateMst, in map iteration order: every text
   * read, or the first partial found unreadable.
   */
  method ReadMstPartials(partials: map<string, Input>) returns (provider: map<string, seq<byte>>, bad: Option<string>)
    ensures bad.Some? ==> bad.value in partials && partials[bad.value].Unreadable?
    ensures bad.None? ==> provider == Texts(partials) && forall n | n in partials :: partials[n].Bytes?
  {
    provider := map[];
    var left := partials.Keys;
    while left != {}
      invariant left <= partials.Keys
      invariant forall n | n in partials && n !in left :: partials[n].Bytes?
      invariant provider == map n | n in partials && n !in left :: partials[n].content
      decreases |left|
    {
      var name :| name in left;
      if partials[name].Unreadable? {
        return provider, Some(name);
      }
      provider := provider[name := partials[name].content];
      left := left - {name};
    }
    bad := None;
  }

  method LoadMstTemplate(root: Input, partials: map<string, Input>, parse: MstParser)
    returns (tv: TValue, e: Option<Error>)
    ensures MstLoadOutcome(root, partials, parse, tv, e)
  {
    var provider, bad := ReadMstPartials(partials);
    if bad.Some? {
      MstPartialUnreadable(root, partials, parse, bad.value);
      return Ptr(Mustache, None), Some(ReadFailed(partials[bad.value].msg));
    }
    match root {
      case Unreadable(msg) =>
        return Ptr(Mustache, None), Some(ReadFailed(msg));
      case Bytes(buf) =>
        match parse(buf, provider) {
          case Some(msg) =>
            return Ptr(Mustache, None), Some(ParseFailed(msg));
          case None =>
            return Ptr(Mustache, Some(MstTemplate(buf, provider))), None;
        }
    }
  }

  /**
   * What LoadTemplate gives: a language IsSupportedTemplateLang rejects is an
   * "invalid type" error with the zero Template; otherwise the Name is the
   * root name and the exact, case-sensitive language chooses the loader, any
   * other spelling being an unsupported-language error with a nil T.
   */
  predicate LoadOutcome(lang: string, rootName: string, root: Input, partials: map<string, Input>,
                        parse: GoParser, parseMst: MstParser, t: Template, e: Option<Error>) {
    if LangIndex(lang) == -1 then t == Template("", NilT) && e == Some(InvalidType(lang))
    else
      t.Name == rootName
      && if lang == "tmpl" then GoLoadOutcome(Text, rootName, root, partials, parse, t.T, e)
      else if lang == "hmpl" then GoLoadOutcome(Html, rootName, root, partials, parse, t.T, e)
      else if lang == "mst" then MstLoadOutcome(root, partials, parseMst, t.T, e)
      else t.T == NilT && e == Some(UnsupportedTemplateLang(lang))
  }

  method LoadTemplate(lang: string, rootName: string, root: Input, partials: map<string, Input>,
                      parse: GoParser, parseMst: MstParser)
    returns (t: Template, e: Option<Error>)
    ensures LoadOutcome(lang, rootName, root, partials, parse, parseMst, t, e)
  {
    var index := IsSupportedTemplateLang(lang);
    if index == -1 {
      return Template("", NilT), Some(InvalidType(lang));
    }
    t := Template(rootName, NilT);
    var tv: TValue;
    if lang == "tmpl" {
      tv, e := LoadGoTemplate(Text, rootName, root, partials, parse);
      t := t.(T := tv);
    } else if lang == "hmpl" {
      tv, e := LoadGoTemplate(Html, rootName, root, partials, parse);
      t := t.(T := tv);
    } else if lang == "mst" {
      tv, e := LoadMstTemplate(root, partials, parseMst);
      t := t.(T := tv);
    } else {
      e := Some(UnsupportedTemplateLang(lang));
    }
  }

  /** Spellings IsSupportedTemplateLang accepts but the case-sensitive switch rejects. */
  lemma SupportedButNotLoadable()
    ensures LangIndex("TMPL") == 0 && LangIndex(".tmpl") == 0 && LangIndex(".MST") == 2
  {
    assert ToLower("TMPL") == "tmpl" && ToLower(".tmpl") == ".tmpl" && ToLower(".MST") == ".mst";
  }

  /** The key a partial is stored under: its base name, without extension when the root is mustache. */
  function PartialName(path: string, mst: bool): string {
    var name := Base(path);
    if mst then TrimSuffix(name, Ext(name)) else name
  }

  function PartialKey(mst: bool): string -> string {
    p => PartialName(p, mst)
  }

  /** A mustache partial is keyed by its stem, any other partial by its file name. */
  lemma PartialNameOfFile(dir: string, stem: string, ext: string)
    requires stem != "" && '/' !in stem && '.' !in ext && '/' !in ext
    ensures PartialName(dir + "/" + stem + "." + ext, true) == stem
    ensures PartialName(dir + "/" + stem + "." + ext, false) == stem + "." + ext
  {
    var p := dir + "/" + stem + "." + ext;
    assert p == dir + "/" + (stem + "." + ext);
    BaseOfChild(dir, stem + "." + ext);
    ExtOfSuffix(stem, ext);
  }

  /** `p` passes both os.Stat and os.Open. */
  predicate Readable(p: string, fs: Fs) {
    p in fs.stat && p in fs.files
  }

  /**
   * What the partial loop of LoadTemplateFilepath leaves: the partials map
   * (a later path with the same key replaces an earlier one) and the stat or
   * open error of the first path that fails, at which the loop stops.
   */
  function PartialsRead(paths: seq<string>, key: string -> string, fs: Fs): (map<string, Input>, Option<Error>) {
    if paths == [] then (map[], None)
    else
      var n := |paths| - 1;
      var last := paths[n];
      var (m, e) := PartialsRead(paths[..n], key, fs);
      if e.Some? then (m, e)
      else if last !in fs.stat then (m, Some(StatFailed(last)))
      else if last !in fs.files then (m, Some(OpenFailed(last)))
      else (m[key(last) := fs.files[last]], None)
  }

  /**
   * The loop fails exactly when some path is unreadable; when it does not,
   * every path's key is in the map; and every key in the map is some
   * path's key.
   */
  lemma {:induction false} PartialsReadShape(paths: seq<string>, key: string -> string, fs: Fs)
    ensures PartialsRead(paths, key, fs).1.None? <==> forall p | p in paths :: Readable(p, fs)
    ensures PartialsRead(paths, key, fs).1.None? ==>
      forall i :: 0 <= i < |paths| ==> key(paths[i]) in PartialsRead(paths, key, fs).0
    ensures forall n | n in PartialsRead(paths, key, fs).0 :: exists i :: 0 <= i < |paths| && key(paths[i]) == n
  {
    if paths != [] {
      var n := |paths| - 1;
      var last := paths[n];
      var init := paths[..n];
      PartialsReadShape(init, key, fs);
      var (m, e) := PartialsRead(init, key, fs);
      var r := PartialsRead(paths, key, fs);
      assert forall p | p in paths :: p in init || p == last;
      assert forall i :: 0 <= i < n ==> paths[i] == init[i];
      assert last in paths;
      forall k | k in r.0
        ensures exists i :: 0 <= i < |paths| && key(paths[i]) == k
      {
        if k in m {
          var i :| 0 <= i < n && key(init[i]) == k;
          assert key(paths[i]) == k;
        } else {
          assert key(paths[n]) == k;
        }
      }
    }
  }

  /** Once a path has failed, later paths change nothing. */
  lemma {:induction false} PartialsReadStops(paths: seq<string>, key: string -> string, fs: Fs, k: nat)
    requires k <= |paths|
    requires PartialsRead(paths[..k], key, fs).1.Some?
    ensures PartialsRead(paths, key, fs) == PartialsRead(paths[..k], key, fs)
    decreases |paths| - k
  {
    if k < |paths| {
      var n := |paths| - 1;
      assert paths[..n][..k] == paths[..k];
      PartialsReadStops(paths[..n], key, fs, k);
      assert PartialsRead(paths[..n], key, fs).1.Some?;
      assert PartialsRead(paths, key, fs) == PartialsRead(paths[..n], key, fs);
    } else {
      assert paths[..k] == paths;
    }
  }

  /** The error reported is that of the first unreadable path, stat checked before open. */
  lemma PartialsReadFirstFailure(paths: seq<string>, key: string -> string, fs: Fs, i: nat)
    requires i < |paths| && !Readable(paths[i], fs)
    requires forall j :: 0 <= j < i ==> Readable(paths[j], fs)
    ensures PartialsRead(paths, key, fs).1 ==
      if paths[i] !in fs.stat then Some(StatFailed(paths[i])) else Some(OpenFailed(paths[i]))
  {
    var pre := paths[..i + 1];
    assert pre[..i] == paths[..i];
    assert forall p | p in paths[..i] :: Readable(p, fs);
    PartialsReadShape(paths[..i], key, fs);
    PartialsReadStops(paths, key, fs, i + 1);
  }

  /** Every partial's key holds the file of the last path with that key. */
  lemma {:induction false} PartialsReadLastWins(paths: seq<string>, key: string -> string, fs: Fs, i: nat)
    requires PartialsRead(paths, key, fs).1.None?
    requires i < |paths|
    requires forall j :: i < j < |paths| ==> key(paths[j]) != key(paths[i])
    ensures paths[i] in fs.files
    ensures key(paths[i]) in PartialsRead(paths, key, fs).0
    ensures PartialsRead(paths, key, fs).0[key(paths[i])] == fs.files[paths[i]]
  {
    var n := |paths| - 1;
    PartialsReadShape(paths, key, fs);
    assert paths[i] in paths;
    if i < n {
      PartialsReadShape(paths[..n], key, fs);
      assert forall p | p in paths[..n] :: p in paths;
      PartialsReadLastWins(paths[..n], key, fs, i);
      assert key(paths[n]) != key(paths[i]);
    }
  }

  /**
   * What LoadTemplateFilepath gives: stat, directory and open failures of the
   * root, then the first failing partial, return the zero Template before
   * anything is parsed; otherwise LoadTemplate runs on the root's extension,
   * root name and partials map.
   */
  predicate FilepathOutcome(rootPath: string, partialPaths: seq<string>, fs: Fs,
                            parse: GoParser, parseMst: MstParser, t: Template, e: Option<Error>) {
    var lang := GetTemplateType(rootPath);
    var (partials, perr) := PartialsRead(partialPaths, PartialKey(lang == "mst"), fs);
    if rootPath !in fs.stat then t == Template("", NilT) && e == Some(StatFailed(rootPath))
    else if fs.stat[rootPath].isDir then t == Template("", NilT) && e == Some(RootIsDir(rootPath))
    else if rootPath !in fs.files then t == Template("", NilT) && e == Some(OpenFailed(rootPath))
    else if perr.Some? then t == Template("", NilT) && e == perr
    else LoadOutcome(lang, RootName(rootPath), fs.files[rootPath], partials, parse, parseMst, t, e)
  }

  method LoadTemplateFilepath(rootPath: string, partialPaths: seq<string>, fs: Fs,
                              parse: GoParser, parseMst: MstParser)
    returns (t: Template, e: Option<Error>)
    ensures FilepathOutcome(rootPath, partialPaths, fs, parse, parseMst, t, e)
  {
    t := Template("", NilT);
    if rootPath !in fs.stat {
      return t, Some(StatFailed(rootPath));
    } else if fs.stat[rootPath].isDir {
      return t, Some(RootIsDir(rootPath));
    }
    var lang := GetTemplateType(rootPath);
    var rootName := RootName(rootPath);
    if rootPath !in fs.files {
      return t, Some(OpenFailed(rootPath));
    }
    var root := fs.files[rootPath];
    var partials, err := ReadPartials(partialPaths, lang == "mst", fs);
    if err.Some? {
      return t, err;
    }
    t, e := LoadTemplate(lang, rootName, root, partials, parse, parseMst);
  }

  /** The partial loop of LoadTemplateFilepath: stat and open each path in turn, keying it by PartialName. */
  method ReadPartials(partialPaths: seq<string>, mst: bool, fs: Fs)
    returns (partials: map<string, Input>, err: Option<Error>)
    ensures (partials, err) == PartialsRead(partialPaths, PartialKey(mst), fs)
  {
    partials := map[];
    for i := 0 to |partialPaths|
      invariant PartialsRead(partialPaths[..i], PartialKey(mst), fs) == (partials, None)
    {
      var path := partialPaths[i];
      var name := Base(path);
      if mst {
        name := TrimSuffix(name, Ext(name));
      }
      assert name == PartialKey(mst)(path);
      assert partialPaths[..i + 1][..i] == partialPaths[..i];
      if path !in fs.stat {
        PartialsReadStops(partialPaths, PartialKey(mst), fs, i + 1);
        return partials, Some(StatFailed(path));
      }
      if path !in fs.files {
        PartialsReadStops(partialPaths, PartialKey(mst), fs, i + 1);
        return partials, Some(OpenFailed(path));
      }
      partials := partials[name := fs.files[path]];
    }
    assert partialPaths[..|partialPaths|] == partialPaths;
    err := None;
  }

  /** Which library method Execute calls. */
  datatype Call = CallExecute | CallFRender

  /** The reflected call: given its receiver and the data, the output written and any error returned. */
  type Renderer = (Call, TValue, Value) -> (string, Option<string>)

  /**
   * How Execute ends: it returns the result buffer, the error and the
   * library call made (if any), or the call it made panicked.
   */
  datatype ExecResult =
    | ExecResult(result: string, err: Option<Error>, called: Option<Call>)
    | ExecPanic(called: Option<Call>)

  /** reflect.TypeOf(t.T).String() for the engine template types. */
  function TypeString(k: Kind): string {
    if k == Mustache then "*mustache.Template" else "*template.Template"
  }

  /**
   * Template.Execute: a nil T and a T of an unknown type are errors with
   * no call made; the two Go engines (both of type *template.Template) call
   * Execute, mustache calls FRender, and the call's error is returned. A
   * nil engine template, which every loader leaves in T when it fails,
   * still has its type, so the call is made, and it panics: Execute and
   * FRender dereference their receiver.
   */
  function Execute(t: Template, d: Value, render: Renderer): (r: ExecResult)
    ensures t.T.NilT? ==> r == ExecResult("", Some(TemplateIsNil), None)
    ensures t.T.Other? ==> r == ExecResult("", Some(UnknownTemplateType(t.T.typeName)), None)
    ensures r.ExecPanic? <==> t.T.Ptr? && t.T.engine.None?
    ensures t.T.Ptr? ==>
      r.called == Some(if TypeString(t.T.kind) == "*mustache.Template" then CallFRender else CallExecute)
    ensures t.T.Ptr? && t.T.engine.Some? ==>
      r.result == render(r.called.value, t.T, d).0
      && (r.err.None? <==> render(r.called.value, t.T, d).1.None?)
  {
    match t.T
    case NilT => ExecResult("", Some(TemplateIsNil), None)
    case Other(name) => ExecResult("", Some(UnknownTemplateType(name)), None)
    case Ptr(kind, engine) =>
      var call := if TypeString(kind) == "*template.Template" then CallExecute else CallFRender;
      if engine.None? then ExecPanic(Some(call))
      else
        var (out, err) := render(call, t.T, d);
        ExecResult(out, if err.Some? then Some(RenderFailed(err.value)) else None, Some(call))
  }

  /**
   * What LoadTemplate returns panics when executed exactly when one of the
   * three loaders failed: each leaves a nil engine template in T, while an
   * error-free load holds a parsed one and the language errors leave T nil.
   */
  lemma ExecuteAfterLoad(lang: string, rootName: string, root: Input, partials: map<string, Input>,
                         parse: GoParser, parseMst: MstParser, t: Template, e: Option<Error>,
                         d: Value, render: Renderer)
    requires LoadOutcome(lang, rootName, root, partials, parse, parseMst, t, e)
    ensures Execute(t, d, render).ExecPanic? <==> e.Some? && t.T.Ptr?
  {
    if LangIndex(lang) != -1 {
      if lang == "tmpl" {
        GoLoadFailsNil(Text, rootName, root, partials, parse, t.T, e);
      } else if lang == "hmpl" {
        GoLoadFailsNil(Html, rootName, root, partials, parse, t.T, e);
      } else if lang == "mst" {
        MstLoadFailsNil(root, partials, parseMst, t.T, e);
      }
    }
  }

  /** The mustache loader leaves a nil template exactly when it fails. */
  lemma MstLoadFailsNil(root: Input, partials: map<string, Input>, parse: MstParser, tv: TValue, e: Option<Error>)
    requires MstLoadOutcome(root, partials, parse, tv, e)
    ensures tv.Ptr? && (tv.engine.None? <==> e.Some?)
  {
    if exists n | n in partials :: partials[n].Unreadable? {
      var n :| n in partials && partials[n].Unreadable? && e == Some(ReadFailed(partials[n].msg));
    }
  }

  /** A Go loader leaves a nil template exactly when it fails. */
  lemma GoLoadFailsNil(kind: Kind, rootName: string, root: Input, partials: map<string, Input>,
                       parse: GoParser, tv: TValue, e: Option<Error>)
    requires GoLoadOutcome(kind, rootName, root, partials, parse, tv, e)
    ensures tv.Ptr? && (tv.engine.None? <==> e.Some?)
  {
    var rootErr := GoTextError(kind, rootName, root, parse);
    if rootErr.None? && exists n | n in partials :: GoTextError(kind, n, partials[n], parse).Some? {
      var n :| n in partials && e == GoTextError(kind, n, partials[n], parse) && e.Some?;
    }
  }

  /** A library call is made exactly when T holds an engine template. */
  lemma ExecuteCallsOnlyEngines(t: Template, d: Value, render: Renderer)
    ensures Execute(t, d, render).called.Some? <==> t.T.Ptr?
    ensures Execute(t, d, render).called == Some(CallFRender) <==> t.T.Ptr? && t.T.kind == Mustache
  {
  }
}
