/**
 * src/template.go: loading a template file with its partials into
 * text/template, html/template or mustache, and executing it.
 *
 * The libraries are parameters. `GoParse` stands for the ParseFiles and
 * ParseGlob functions and methods of text/template and html/template,
 * `MstParse` for mustache.ParseFilePartials, `Render` for the reflected
 * Execute/FRender call, and `dir` for filepath.Dir. A parsed template is
 * an opaque `Tree` the parser hands back. getTemplateType is the same
 * function as in template.go and is shared with DatiTemplate.
 */
module SrcTemplate {
  import opened Common
  import DatiTemplate
  import DatiData

  datatype Dialect = TextDialect | HtmlDialect

  /** A parsed template; what it holds is the library's business. */
  datatype Tree = Tree(id: nat)

  /**
   * The Template interface value: nil, a reference to a text/template or
   * html/template Template (possibly a nil reference), a reference to a
   * mustache Template (likewise), or a value of any other type.
   */
  datatype Template =
    | NilInterface
    | GoPtr(dialect: Dialect, tree: Option<Tree>)
    | MstPtr(tree: Option<Tree>)
    | OtherType(typeName: string)

  /** What a Go template parse is asked to do. */
  datatype ParseOp = ParseFiles(path: string) | ParseGlob(pattern: string)

  /** The package-level parse function, or the method called on a (possibly nil) template. */
  datatype Receiver = PackageLevel | Method(t: Option<Tree>)

  /** A Go template parse: the resulting template and the error message, if any. */
  type GoParse = (Dialect, Receiver, ParseOp) -> (Option<Tree>, Option<string>)

  /** getTemplateType as a value: the extension without its dot. */
  const TypeOf: string -> string := p => DatiTemplate.GetTemplateType(p)

  /** The two extensions a dialect's loader parses partials of, in the order it globs them. */
  function Exts(d: Dialect): (r: seq<string>)
    ensures |r| == 2
  {
    if d == TextDialect then ["tmpl", "gotmpl"] else ["hmpl", "gohmpl"]
  }

  // ---------------------------------------------------------------
  // loadTemplateFileTmpl and loadTemplateFileHmpl
  // ---------------------------------------------------------------

  /** How the tmpl and hmpl loaders treat one partial path. */
  datatype Action = StatError | AsFile | AsGlob | AsDir | NonMatching

  function Classify(d: Dialect, p: string, fs: Fs): Action {
    if p !in fs.stat then StatError
    else if TypeOf(p) in Exts(d) then AsFile
    else if '*' in p then AsGlob
    else if fs.stat[p].isDir then AsDir
    else NonMatching
  }

  /** A parse result with the library's message wrapped as an error. */
  function Parsed(r: (Option<Tree>, Option<string>)): (Option<Tree>, Option<Error>) {
    (r.0, if r.1.Some? then Some(ParseFailed(r.1.value)) else None)
  }

  /**
   * One iteration of the partial loop: the template and the error `e`
   * afterwards. A directory is globbed twice, once per extension, and the
   * second glob's result replaces the first's.
   */
  function PartialStep(d: Dialect, t: Option<Tree>, p: string, fs: Fs, parse: GoParse): (Option<Tree>, Option<Error>) {
    match Classify(d, p, fs)
    case StatError => (t, Some(StatFailed(p)))
    case AsFile => Parsed(parse(d, Method(t), ParseFiles(p)))
    case AsGlob => Parsed(parse(d, Method(t), ParseGlob(p)))
    case AsDir =>
      var first := parse(d, Method(t), ParseGlob(p + "/*." + Exts(d)[0]));
      Parsed(parse(d, Method(first.0), ParseGlob(p + "/*." + Exts(d)[1])))
    case NonMatching => (t, Some(NonMatchingFiletype))
  }

  /**
   * The partial loop from the parsed root `t0`: the template, the error
   * left in `e`, and the warnings printed. A failing partial is warned
   * about; the hmpl loader then clears `e`, the tmpl loader does not, so
   * there only the last partial's error can survive the loop.
   */
  function PartialsLoop(d: Dialect, t0: Option<Tree>, ps: seq<string>, fs: Fs, parse: GoParse)
    : (r: (Option<Tree>, Option<Error>, seq<Warning>))
    ensures |r.2| <= |ps|
    ensures forall i :: 0 <= i < |r.2| ==> r.2[i].SkippingPartial? && r.2[i].path in ps && r.2[i].reported.Some?
    ensures d == HtmlDialect ==> r.1 == None
    ensures d == TextDialect && r.1.Some? ==> ps != [] && r.2 != [] && r.2[|r.2| - 1] == SkippingPartial(ps[|ps| - 1], r.1)
    decreases |ps|
  {
    if ps == [] then (t0, None, [])
    else
      var (t, _, w) := PartialsLoop(d, t0, ps[..|ps| - 1], fs, parse);
      var p := ps[|ps| - 1];
      var (t', e) := PartialStep(d, t, p, fs, parse);
      (t', if d == HtmlDialect then None else e, if e.Some? then w + [SkippingPartial(p, e)] else w)
  }

  /** The whole loader: the root is parsed first, and only a root that parses has its partials processed. */
  function LoadGo(d: Dialect, root: string, ps: seq<string>, fs: Fs, parse: GoParse)
    : (r: (Option<Tree>, Option<Error>, seq<Warning>))
    ensures var root := parse(d, PackageLevel, ParseFiles(root));
      root.1.Some? ==> r == (root.0, Some(ParseFailed(root.1.value)), [])
    ensures forall i :: 0 <= i < |r.2| ==> r.2[i].SkippingPartial? && r.2[i].path in ps
    ensures d == HtmlDialect && parse(d, PackageLevel, ParseFiles(root)).1.None? ==> r.1 == None
    ensures d == TextDialect && parse(d, PackageLevel, ParseFiles(root)).1.None? && r.1.Some? ==>
      ps != [] && r.2 != [] && r.2[|r.2| - 1] == SkippingPartial(ps[|ps| - 1], r.1)
  {
    var (t, e) := Parsed(parse(d, PackageLevel, ParseFiles(root)));
    if e.Some? then (t, e, []) else PartialsLoop(d, t, ps, fs, parse)
  }

  method LoadGoTemplateFile(d: Dialect, root: string, partials: seq<string>, fs: Fs, parse: GoParse)
    returns (t: Option<Tree>, e: Option<Error>, warnings: seq<Warning>)
    ensures (t, e, warnings) == LoadGo(d, root, partials, fs, parse)
  {
    var r := Parsed(parse(d, PackageLevel, ParseFiles(root)));
    t, e := r.0, r.1;
    warnings := [];
    if e.Some? {
      return;
    }
    ghost var t0 := t;
    for i := 0 to |partials|
      invariant (t, e, warnings) == PartialsLoop(d, t0, partials[..i], fs, parse)
    {
      var p := partials[i];
      PartialsLoopAt(d, t0, partials, i, fs, parse);
      t, e := LoadPartial(d, t, p, fs, parse);
      if e.Some? {
        warnings := warnings + [SkippingPartial(p, e)];
        if d == HtmlDialect {
          e := None;
        }
      }
    }
    assert partials[..|partials|] == partials;
  }

  /** The partial loop one partial further on. */
  lemma PartialsLoopAt(d: Dialect, t0: Option<Tree>, ps: seq<string>, i: nat, fs: Fs, parse: GoParse)
    requires i < |ps|
    ensures var (t, _, w) := PartialsLoop(d, t0, ps[..i], fs, parse);
            var (t', e) := PartialStep(d, t, ps[i], fs, parse);
            PartialsLoop(d, t0, ps[..i + 1], fs, parse)
            == (t', if d == HtmlDialect then None else e, if e.Some? then w + [SkippingPartial(ps[i], e)] else w)
  {
    assert ps[..i + 1][..i] == ps[..i];
  }

  /** The partial loop over a single partial. */
  lemma PartialsLoopOne(d: Dialect, t0: Option<Tree>, p: string, fs: Fs, parse: GoParse)
    ensures var (t', e) := PartialStep(d, t0, p, fs, parse);
            PartialsLoop(d, t0, [p], fs, parse)
            == (t', if d == HtmlDialect then None else e, if e.Some? then [SkippingPartial(p, e)] else [])
  {
    assert [p][..0] == [];
    assert PartialsLoop(d, t0, [], fs, parse) == (t0, None, []);
    var (t', e) := PartialStep(d, t0, p, fs, parse);
    assert PartialsLoop(d, t0, [p], fs, parse).0 == t';
    assert PartialsLoop(d, t0, [p], fs, parse).1 == if d == HtmlDialect then None else e;
    assert PartialsLoop(d, t0, [p], fs, parse).2 == if e.Some? then [SkippingPartial(p, e)] else [];
  }

  /** The body of the partial loop: one partial parsed into `t`, as its kind asks. */
  method LoadPartial(d: Dialect, t: Option<Tree>, p: string, fs: Fs, parse: GoParse)
    returns (t': Option<Tree>, e: Option<Error>)
    ensures (t', e) == PartialStep(d, t, p, fs, parse)
  {
    var exts := Exts(d);
    var ptype := TypeOf(p);
    var r;
    t' := t;
    ghost var c := Classify(d, p, fs);
    assert (ptype in exts) == (ptype == exts[0] || ptype == exts[1]);
    if p !in fs.stat {
      e := Some(StatFailed(p));
      assert c == StatError;
    } else if ptype == exts[0] || ptype == exts[1] {
      assert c == AsFile;
      r := Parsed(parse(d, Method(t), ParseFiles(p)));
      t', e := r.0, r.1;
    } else if '*' in p {
      assert c == AsGlob;
      r := Parsed(parse(d, Method(t), ParseGlob(p)));
      t', e := r.0, r.1;
    } else if fs.stat[p].isDir {
      assert c == AsDir;
      r := Parsed(parse(d, Method(t), ParseGlob(p + "/*." + exts[0])));
      t', e := r.0, r.1;
      r := Parsed(parse(d, Method(t'), ParseGlob(p + "/*." + exts[1])));
      t', e := r.0, r.1;
    } else {
      assert c == NonMatching;
      e := Some(NonMatchingFiletype);
    }
    StepOfClass(d, t, p, fs, parse);
  }

  /** PartialStep by the partial's classification. */
  lemma StepOfClass(d: Dialect, t: Option<Tree>, p: string, fs: Fs, parse: GoParse)
    ensures Classify(d, p, fs) == StatError ==> PartialStep(d, t, p, fs, parse) == (t, Some(StatFailed(p)))
    ensures Classify(d, p, fs) == AsFile ==> PartialStep(d, t, p, fs, parse) == Parsed(parse(d, Method(t), ParseFiles(p)))
    ensures Classify(d, p, fs) == AsGlob ==> PartialStep(d, t, p, fs, parse) == Parsed(parse(d, Method(t), ParseGlob(p)))
    ensures Classify(d, p, fs) == AsDir ==>
      var first := parse(d, Method(t), ParseGlob(p + "/*." + Exts(d)[0]));
      PartialStep(d, t, p, fs, parse) == Parsed(parse(d, Method(first.0), ParseGlob(p + "/*." + Exts(d)[1])))
    ensures Classify(d, p, fs) == NonMatching ==> PartialStep(d, t, p, fs, parse) == (t, Some(NonMatchingFiletype))
  {
  }

  /** A partial with one of the dialect's extensions is parsed as a file, whatever else it is. */
  lemma SameDialectParsedAsFile(d: Dialect, stem: string, ext: string, fs: Fs)
    requires ext in Exts(d) && stem + "." + ext in fs.stat
    ensures Classify(d, stem + "." + ext, fs) == AsFile
  {
    DatiTemplate.TemplateTypeOfFileName(stem, ext);
  }

  /** A plain file of the other dialect is refused with "non-matching filetype". */
  lemma OtherDialectRefused(d: Dialect, stem: string, ext: string, t: Option<Tree>, fs: Fs, parse: GoParse)
    requires ext in Exts(if d == TextDialect then HtmlDialect else TextDialect)
    requires var p := stem + "." + ext; p in fs.stat && !fs.stat[p].isDir && '*' !in p
    ensures PartialStep(d, t, stem + "." + ext, fs, parse) == (t, Some(NonMatchingFiletype))
  {
    var p := stem + "." + ext;
    OtherDialectExt(d, ext);
    DatiTemplate.TemplateTypeOfFileName(stem, ext);
    assert Classify(d, p, fs) == NonMatching;
  }

  /** The other dialect's extensions are none of this one's, and are plain names. */
  lemma OtherDialectExt(d: Dialect, ext: string)
    requires ext in Exts(if d == TextDialect then HtmlDialect else TextDialect)
    ensures ext !in Exts(d) && '.' !in ext && '/' !in ext
  {
    if d == TextDialect {
      assert ext == "hmpl" || ext == "gohmpl";
      assert ext[|ext| - 4] == 'h';
    } else {
      assert ext == "tmpl" || ext == "gotmpl";
      assert ext[|ext| - 4] == 't';
    }
  }

  // ---------------------------------------------------------------
  // loadTemplateFileMst
  // ---------------------------------------------------------------

  /**
   * The `partials` slice while the mst loader ranges over it. `view` is
   * the array the range statement reads from (fixed when the loop starts),
   * `backing` the array the slice points into now, `len` its length, and
   * `shared` says both are still one array, so that a write through the
   * slice is seen by later iterations.
   */
  datatype SliceState = SliceState(view: seq<string>, backing: seq<string>, len: nat, shared: bool)

  ghost predicate Consistent(s: SliceState) {
    s.len <= |s.backing| && (s.shared ==> s.view == s.backing)
  }

  /** `partials[i] = v`. */
  function SetAt(s: SliceState, i: nat, v: string): (r: SliceState)
    requires Consistent(s) && i < s.len
    ensures Consistent(r) && |r.view| == |s.view| && r.len == s.len
    ensures r.backing[..r.len] == s.backing[..s.len][i := v]
  {
    var b := s.backing[i := v];
    SliceState(if s.shared then b else s.view, b, s.len, s.shared)
  }

  /** `partials = append(partials[:p], partials[p+1:]...)`: the tail moves down one place in the same array. */
  function RemoveAt(s: SliceState, p: nat): (r: SliceState)
    requires Consistent(s) && p < s.len
    ensures Consistent(r) && |r.view| == |s.view| && r.len == s.len - 1
    ensures r.backing[..r.len] == s.backing[..p] + s.backing[p + 1..s.len]
  {
    var b := s.backing[..p] + s.backing[p + 1..s.len] + s.backing[s.len - 1..];
    assert b[..s.len - 1] == s.backing[..p] + s.backing[p + 1..s.len];
    SliceState(if s.shared then b else s.view, b, s.len - 1, s.shared)
  }

  /**
   * `partials = append(partials, xs...)`: in place while the capacity
   * allows, otherwise into a new array, which the range no longer sees.
   */
  function Append(s: SliceState, xs: seq<string>): (r: SliceState)
    requires Consistent(s)
    ensures Consistent(r) && |r.view| == |s.view| && r.len == s.len + |xs|
    ensures r.backing[..r.len] == s.backing[..s.len] + xs
  {
    if s.len + |xs| <= |s.backing| then
      var b := s.backing[..s.len] + xs + s.backing[s.len + |xs|..];
      assert b[..s.len + |xs|] == s.backing[..s.len] + xs;
      SliceState(if s.shared then b else s.view, b, s.len + |xs|, s.shared)
    else
      SliceState(s.view, s.backing[..s.len] + xs, s.len + |xs|, false)
  }

  /**
   * The rewritten search paths, or None when the loop panics; the warnings
   * printed on the way; and what the caller's array holds when the loop
   * ends or panics.
   */
  datatype MstRun = MstRun(paths: Option<seq<string>>, warnings: seq<Warning>, buffer: seq<string>)

  function Warned(w: Warning, run: MstRun): MstRun {
    run.(warnings := [w] + run.warnings)
  }

  /** What one iteration of the mst loader's loop does: a panic, or the next slice and the warning printed. */
  datatype Step = Panic | Next(s: SliceState, warning: Option<Warning>)

  /**
   * Iteration `p` of the mst loader's loop. A partial that fails os.Stat
   * is removed (the warning shows the still-nil `e`), a file is replaced
   * by its directory, a directory whose name holds '*' is replaced by
   * what it globs to (or removed when the pattern is bad), and any other
   * directory is kept. Removing or writing at an index past the shrunken
   * slice is a run-time panic.
   */
  function MstStep(s: SliceState, p: nat, fs: Fs, dir: string -> string): (r: Step)
    requires Consistent(s) && p < |s.view|
    ensures r.Next? ==> Consistent(r.s) && |r.s.view| == |s.view|
    ensures r.Next? && r.warning.Some? ==> r.warning.value == SkippingPartial(s.view[p], None)
  {
    var partial := s.view[p];
    if partial !in fs.stat then
      if p >= s.len then Panic else Next(RemoveAt(s, p), Some(SkippingPartial(partial, None)))
    else if !fs.stat[partial].isDir then
      if p >= s.len then Panic else Next(SetAt(s, p, dir(partial)), None)
    else if '*' in partial then
      if p >= s.len then Panic
      else if partial !in fs.globs then Next(RemoveAt(s, p), Some(SkippingPartial(partial, None)))
      else Next(Append(RemoveAt(s, p), fs.globs[partial]), None)
    else Next(s, None)
  }

  /** The loop from iteration `p` of `n`: the search paths left in the slice, or None after a panic. */
  function MstFrom(s: SliceState, p: nat, n: nat, fs: Fs, dir: string -> string): (r: MstRun)
    requires Consistent(s) && n <= |s.view|
    ensures forall i :: 0 <= i < |r.warnings| ==> r.warnings[i].SkippingPartial? && r.warnings[i].reported == None
    decreases n - p
  {
    if p >= n then MstRun(Some(s.backing[..s.len]), [], s.view)
    else
      match MstStep(s, p, fs, dir)
      case Panic => MstRun(None, [], s.view)
      case Next(next, w) =>
        var rest := MstFrom(next, p + 1, n, fs, dir);
        if w.Some? then Warned(w.value, rest) else rest
  }

  /** The loop over the caller's slice: its first `n` elements, with `buffer` as its whole backing array. */
  ghost function MstRewrite(buffer: seq<string>, n: nat, fs: Fs, dir: string -> string): MstRun
    requires n <= |buffer|
  {
    MstFrom(SliceState(buffer, buffer, n, true), 0, n, fs, dir)
  }

  /** `copy(a[p:len-1], a[p+1:len])`: the elements after index `p` move down one place. */
  method ShiftDown(a: array<string>, p: nat, len: nat)
    requires p < len <= a.Length
    modifies a
    ensures a[..] == old(a[..])[..p] + old(a[..])[p + 1..len] + old(a[..])[len - 1..]
  {
    ghost var before := a[..];
    for j := p to len - 1
      invariant forall k :: 0 <= k < p || j <= k < a.Length ==> a[k] == before[k]
      invariant forall k :: p <= k < j ==> a[k] == before[k + 1]
    {
      a[j] := a[j + 1];
    }
    ghost var after := before[..p] + before[p + 1..len] + before[len - 1..];
    assert |after| == a.Length;
    forall k | 0 <= k < a.Length
      ensures a[k] == after[k]
    {
      if k < p {
        assert after[k] == before[k];
      } else if k < len - 1 {
        assert after[k] == before[k + 1];
      } else {
        assert after[k] == before[k];
      }
    }
    assert a[..] == after;
  }

  /** `copy(a[at:], xs)` where `xs` fits. */
  method WriteFrom(a: array<string>, at: nat, xs: seq<string>)
    requires at + |xs| <= a.Length
    modifies a
    ensures a[..] == old(a[..])[..at] + xs + old(a[..])[at + |xs|..]
  {
    ghost var before := a[..];
    for j := 0 to |xs|
      invariant forall k :: 0 <= k < at || at + j <= k < a.Length ==> a[k] == before[k]
      invariant forall k :: at <= k < at + j ==> a[k] == xs[k - at]
    {
      a[at + j] := xs[j];
    }
    ghost var after := before[..at] + xs + before[at + |xs|..];
    assert |after| == a.Length;
    forall k | 0 <= k < a.Length
      ensures a[k] == after[k]
    {
      if k < at {
        assert after[k] == before[k];
      } else if k < at + |xs| {
        assert after[k] == xs[k - at];
      } else {
        assert after[k] == before[k];
      }
    }
    assert a[..] == after;
  }

  /** One iteration of RewriteMstPartials keeps its invariant, given the state the step leads to. */
  lemma MstAdvance(total: MstRun, w0: seq<Warning>, s: SliceState, p: nat, n: nat, fs: Fs, dir: string -> string,
                    s': SliceState, w: Option<Warning>)
    requires p < n && MstPending(total, w0, s, p, n, fs, dir)
    requires MstStep(s, p, fs, dir) == Next(s', w)
    ensures MstPending(total, w0 + if w.Some? then [w.value] else [], s', p + 1, n, fs, dir)
  {
    var run := MstFrom(s', p + 1, n, fs, dir);
    assert MstFrom(s, p, n, fs, dir) == if w.Some? then Warned(w.value, run) else run;
    if w.Some? {
      assert w0 + ([w.value] + run.warnings) == (w0 + [w.value]) + run.warnings;
    }
  }

  /**
   * The invariant of RewriteMstPartials' loop at iteration `p`: what is
   * left of the loop, after the warnings `w0` printed so far, gives the
   * whole run `total`.
   */
  ghost predicate MstPending(total: MstRun, w0: seq<Warning>, s: SliceState, p: nat, n: nat, fs: Fs, dir: string -> string) {
    && Consistent(s) && p <= n <= |s.view|
    && var run := MstFrom(s, p, n, fs, dir); total == run.(warnings := w0 + run.warnings)
  }

  /** RemoveAt on the arrays: `cur` is the slice's array, `buf` the one the range reads. */
  method SliceRemove(buf: array<string>, cur: array<string>, len: nat, p: nat) returns (len': nat)
    requires Consistent(SliceState(buf[..], cur[..], len, cur == buf)) && p < len
    modifies cur
    ensures SliceState(buf[..], cur[..], len', cur == buf) == RemoveAt(old(SliceState(buf[..], cur[..], len, cur == buf)), p)
  {
    ShiftDown(cur, p, len);
    len' := len - 1;
  }

  /** SetAt on the arrays. */
  method SliceSet(buf: array<string>, cur: array<string>, len: nat, p: nat, v: string)
    requires Consistent(SliceState(buf[..], cur[..], len, cur == buf)) && p < len
    modifies cur
    ensures SliceState(buf[..], cur[..], len, cur == buf) == SetAt(old(SliceState(buf[..], cur[..], len, cur == buf)), p, v)
  {
    cur[p] := v;
  }

  /** Append on the arrays: in place when `xs` fits, otherwise into a new array. */
  method SliceAppend(buf: array<string>, cur: array<string>, len: nat, xs: seq<string>)
    returns (cur': array<string>, len': nat)
    requires Consistent(SliceState(buf[..], cur[..], len, cur == buf))
    modifies cur
    ensures cur' == cur || fresh(cur')
    ensures SliceState(buf[..], cur'[..], len', cur' == buf) == Append(old(SliceState(buf[..], cur[..], len, cur == buf)), xs)
  {
    len' := len + |xs|;
    if len + |xs| <= cur.Length {
      WriteFrom(cur, len, xs);
      cur' := cur;
    } else {
      var grown := cur[..len] + xs;
      cur' := new string[|grown|](i requires 0 <= i < |grown| => grown[i]);
      assert cur'[..] == grown;
    }
  }

  /**
   * The partial loop of loadTemplateFileMst, on the caller's array `buf`
   * whose first `n` elements are the slice: the range reads `buf` while
   * the slice is edited in place, until an append needs a new array.
   */
  method RewriteMstPartials(buf: array<string>, n: nat, fs: Fs, dir: string -> string)
    returns (paths: Option<seq<string>>, warnings: seq<Warning>)
    requires n <= buf.Length
    modifies buf
    ensures MstRun(paths, warnings, buf[..]) == MstRewrite(old(buf[..]), n, fs, dir)
  {
    ghost var total := MstRewrite(buf[..], n, fs, dir);
    var cur := buf;
    var len: nat := n;
    warnings := [];
    for p := 0 to n
      invariant cur == buf || fresh(cur)
      invariant n <= buf.Length
      invariant MstPending(total, warnings, SliceState(buf[..], cur[..], len, cur == buf), p, n, fs, dir)
    {
      var stop, cur', len', w := MstCheckedIterate(buf, cur, len, p, n, fs, dir, total, warnings);
      if stop {
        return None, warnings;
      }
      cur, len := cur', len';
      if w.Some? {
        warnings := warnings + [w.value];
      }
    }
    MstEnded(total, warnings, SliceState(buf[..], cur[..], len, cur == buf), n, fs, dir);
    paths := Some(cur[..len]);
  }

  /** The loop invariant at a panic: the run ends there, with the array as it is. */
  lemma MstPanicked(total: MstRun, w0: seq<Warning>, s: SliceState, p: nat, n: nat, fs: Fs, dir: string -> string)
    requires p < n && MstPending(total, w0, s, p, n, fs, dir)
    requires MstStep(s, p, fs, dir) == Panic
    ensures total == MstRun(None, w0, s.view)
  {
  }

  /** The loop invariant after the last iteration: the slice is the search paths. */
  lemma MstEnded(total: MstRun, w0: seq<Warning>, s: SliceState, n: nat, fs: Fs, dir: string -> string)
    requires MstPending(total, w0, s, n, n, fs, dir)
    ensures total == MstRun(Some(s.backing[..s.len]), w0, s.view)
  {
  }

  /** One iteration of the mst loader's loop on the arrays: a panic, or the next slice and the warning printed. */
  /**
   * MstIterate, with what it means for the whole run: a panic gives the
   * run's final record, and any other step keeps the loop invariant.
   */
  method MstCheckedIterate(buf: array<string>, cur: array<string>, len: nat, p: nat, n: nat, fs: Fs, dir: string -> string,
                           ghost total: MstRun, ghost w0: seq<Warning>)
    returns (stop: bool, cur': array<string>, len': nat, w: Option<Warning>)
    requires p < n && MstPending(total, w0, SliceState(buf[..], cur[..], len, cur == buf), p, n, fs, dir)
    modifies cur
    ensures cur' == cur || fresh(cur')
    ensures stop ==> total == MstRun(None, w0, buf[..])
    ensures !stop && w.None? ==> MstPending(total, w0, SliceState(buf[..], cur'[..], len', cur' == buf), p + 1, n, fs, dir)
    ensures !stop && w.Some? ==> MstPending(total, w0 + [w.value], SliceState(buf[..], cur'[..], len', cur' == buf), p + 1, n, fs, dir)
  {
    ghost var s := SliceState(buf[..], cur[..], len, cur == buf);
    stop, cur', len', w := MstIterate(buf, cur, len, p, fs, dir);
    if stop {
      MstPanicked(total, w0, s, p, n, fs, dir);
    } else {
      MstAdvance(total, w0, s, p, n, fs, dir, SliceState(buf[..], cur'[..], len', cur' == buf), w);
      assert w0 + [] == w0;
    }
  }

  method MstIterate(buf: array<string>, cur: array<string>, len: nat, p: nat, fs: Fs, dir: string -> string)
    returns (stop: bool, cur': array<string>, len': nat, w: Option<Warning>)
    requires Consistent(SliceState(buf[..], cur[..], len, cur == buf)) && p < buf.Length
    modifies cur
    ensures cur' == cur || fresh(cur')
    ensures stop ==> MstStep(old(SliceState(buf[..], cur[..], len, cur == buf)), p, fs, dir) == Panic
    ensures stop ==> unchanged(cur)
    ensures !stop ==> MstStep(old(SliceState(buf[..], cur[..], len, cur == buf)), p, fs, dir)
                      == Next(SliceState(buf[..], cur'[..], len', cur' == buf), w)
  {
    cur', len', w := cur, len, None;
    var partial := buf[p];
    if len <= p && (partial !in fs.stat || !fs.stat[partial].isDir || '*' in partial) {
      return true, cur', len', w;
    }
    stop := false;
    if partial !in fs.stat {
      len' := SliceRemove(buf, cur, len, p);
      w := Some(SkippingPartial(partial, None));
    } else if !fs.stat[partial].isDir {
      SliceSet(buf, cur, len, p, dir(partial));
    } else if '*' in partial {
      len' := SliceRemove(buf, cur, len, p);
      if partial !in fs.globs {
        w := Some(SkippingPartial(partial, None));
      } else {
        cur', len' := SliceAppend(buf, cur, len', fs.globs[partial]);
      }
    }
  }

  /** What the mst loader is meant to do with a partial that exists: a directory stays, a file gives its directory. */
  function SearchPath(p: string, fs: Fs, dir: string -> string): string
    requires p in fs.stat
  {
    if fs.stat[p].isDir then p else dir(p)
  }

  function SearchPaths(ps: seq<string>, fs: Fs, dir: string -> string): (r: seq<string>)
    requires forall i :: 0 <= i < |ps| ==> ps[i] in fs.stat
    ensures |r| == |ps| && forall i :: 0 <= i < |ps| ==> r[i] == SearchPath(ps[i], fs, dir)
  {
    seq(|ps|, i requires 0 <= i < |ps| => SearchPath(ps[i], fs, dir))
  }

  /** Partials that all exist, with no globbing directory among them. */
  ghost predicate AllPlain(ps: seq<string>, fs: Fs) {
    forall i :: 0 <= i < |ps| ==> ps[i] in fs.stat && !(fs.stat[ps[i]].isDir && '*' in ps[i])
  }

  /** The slice after `p` iterations over plain partials: the first `p` rewritten, nothing removed. */
  function PlainState(orig: seq<string>, extra: seq<string>, p: nat, fs: Fs, dir: string -> string): (s: SliceState)
    requires p <= |orig| && AllPlain(orig, fs)
    ensures Consistent(s) && |s.view| == |orig| + |extra|
  {
    var b := SearchPaths(orig[..p], fs, dir) + orig[p..] + extra;
    SliceState(b, b, |orig|, true)
  }

  lemma PlainStep(orig: seq<string>, extra: seq<string>, p: nat, fs: Fs, dir: string -> string)
    requires p < |orig| && AllPlain(orig, fs)
    ensures MstStep(PlainState(orig, extra, p, fs, dir), p, fs, dir) == Next(PlainState(orig, extra, p + 1, fs, dir), None)
  {
    var b := PlainState(orig, extra, p, fs, dir).backing;
    var b' := PlainState(orig, extra, p + 1, fs, dir).backing;
    assert b[p] == orig[p];
    if fs.stat[orig[p]].isDir {
      assert b' == b;
    } else {
      assert b' == b[p := dir(orig[p])];
    }
  }

  lemma {:induction false} PlainFrom(orig: seq<string>, extra: seq<string>, p: nat, fs: Fs, dir: string -> string)
    requires p <= |orig| && AllPlain(orig, fs)
    ensures MstFrom(PlainState(orig, extra, p, fs, dir), p, |orig|, fs, dir)
         == MstRun(Some(SearchPaths(orig, fs, dir)), [], SearchPaths(orig, fs, dir) + extra)
    decreases |orig| - p
  {
    if p == |orig| {
      assert PlainState(orig, extra, p, fs, dir).backing[..|orig|] == SearchPaths(orig, fs, dir);
      assert orig[..p] == orig && orig[p..] == [];
    } else {
      PlainStep(orig, extra, p, fs, dir);
      PlainFrom(orig, extra, p + 1, fs, dir);
    }
  }

  /**
   * When every partial exists and none is a directory to glob, the loop
   * does what it is meant to: each file is replaced by its directory,
   * whatever spare capacity the slice has, and nothing is warned about.
   */
  lemma PlainPartialsRewritten(orig: seq<string>, extra: seq<string>, fs: Fs, dir: string -> string)
    requires AllPlain(orig, fs)
    ensures MstRewrite(orig + extra, |orig|, fs, dir) == MstRun(Some(SearchPaths(orig, fs, dir)), [], SearchPaths(orig, fs, dir) + extra)
  {
    assert PlainState(orig, extra, 0, fs, dir).backing == orig + extra;
    PlainFrom(orig, extra, 0, fs, dir);
  }

  /**
   * Removing a partial in the range loop skips the next one: the file `f`
   * after a missing partial `a` stays in the search paths as it was,
   * rather than as its directory.
   */
  lemma RemovalSkipsNext(a: string, f: string, g: string, fs: Fs, dir: string -> string)
    requires a !in fs.stat
    requires f in fs.stat && !fs.stat[f].isDir
    requires g in fs.stat && fs.stat[g].isDir && '*' !in g
    ensures MstRewrite([a, f, g], 3, fs, dir) == MstRun(Some([f, g]), [SkippingPartial(a, None)], [f, g, g])
  {
    var s0 := SliceState([a, f, g], [a, f, g], 3, true);
    var s1 := SliceState([f, g, g], [f, g, g], 2, true);
    RemoveFirst(a, f, g);
    assert MstStep(s0, 0, fs, dir) == Next(s1, Some(SkippingPartial(a, None)));
    assert s1.view[1] == g && s1.view[2] == g;
    assert MstStep(s1, 1, fs, dir) == Next(s1, None);
    assert MstStep(s1, 2, fs, dir) == Next(s1, None);
    assert s1.backing[..2] == [f, g];
    assert MstFrom(s1, 3, 3, fs, dir) == MstRun(Some([f, g]), [], [f, g, g]);
    assert MstFrom(s1, 2, 3, fs, dir) == MstRun(Some([f, g]), [], [f, g, g]);
    assert MstFrom(s1, 1, 3, fs, dir) == MstRun(Some([f, g]), [], [f, g, g]);
  }

  /** Removing the first of three elements moves the other two down over it. */
  lemma RemoveFirst(a: string, f: string, g: string)
    ensures RemoveAt(SliceState([a, f, g], [a, f, g], 3, true), 0) == SliceState([f, g, g], [f, g, g], 2, true)
  {
    var b := [a, f, g];
    assert b[..0] + b[1..3] + b[2..] == [f, g, g];
  }

  /**
   * ... and after a removal the range reads past the shortened slice:
   * two files after a missing partial make the loop write out of range,
   * which panics.
   */
  lemma RemovalThenFilesPanics(a: string, f1: string, f2: string, fs: Fs, dir: string -> string)
    requires a !in fs.stat
    requires f1 in fs.stat && !fs.stat[f1].isDir
    requires f2 in fs.stat && !fs.stat[f2].isDir
    ensures MstRewrite([a, f1, f2], 3, fs, dir) == MstRun(None, [SkippingPartial(a, None)], [f1, dir(f2), f2])
  {
    var s0 := SliceState([a, f1, f2], [a, f1, f2], 3, true);
    var s1 := SliceState([f1, f2, f2], [f1, f2, f2], 2, true);
    var s2 := SliceState([f1, dir(f2), f2], [f1, dir(f2), f2], 2, true);
    RemoveFirst(a, f1, f2);
    assert MstStep(s0, 0, fs, dir) == Next(s1, Some(SkippingPartial(a, None)));
    assert s1.view[1] == f2 && s1.backing[1 := dir(f2)] == s2.backing;
    assert MstStep(s1, 1, fs, dir) == Next(s2, None);
    assert s2.view[2] == f2;
    assert MstStep(s2, 2, fs, dir) == Panic;
    assert MstFrom(s2, 2, 3, fs, dir) == MstRun(None, [], s2.view);
    assert MstFrom(s1, 1, 3, fs, dir) == MstRun(None, [], s2.view);
  }

  // ---------------------------------------------------------------
  // LoadTemplateFile and ExecuteTemplate
  // ---------------------------------------------------------------

  /** The extensions the mustache FileProvider tries for a partial name. */
  const MstExtensions: seq<string> := [".mst", ".mustache"]

  /** mustache.ParseFilePartials on a root file, with a provider searching `paths` for `exts`. */
  type MstParse = (string, seq<string>, seq<string>) -> (Option<Tree>, Option<string>)

  /** How LoadTemplateFile ends: it returns, or it panics after printing some warnings. */
  datatype Outcome = Returned(t: Template, e: Option<Error>, warnings: seq<Warning>) | Panicked(warnings: seq<Warning>)

  /**
   * What LoadTemplateFile does with the root path and the first `n`
   * elements of `partials`: an empty root, one os.Stat fails on and a
   * directory are refused; otherwise the root's extension, exactly as
   * written, picks the loader.
   */
  ghost predicate LoadOutcome(root: string, partials: seq<string>, n: nat, fs: Fs,
                              parse: GoParse, mstParse: MstParse, dir: string -> string, out: Outcome)
    requires n <= |partials|
  {
    if root == "" then out == Returned(NilInterface, Some(NoRoot), [])
    else if root !in fs.stat then out == Returned(NilInterface, Some(StatFailed(root)), [])
    else if fs.stat[root].isDir then out == Returned(NilInterface, Some(RootIsDir(root)), [])
    else
      var ttype := TypeOf(root);
      if ttype == "tmpl" || ttype == "gotmpl" || ttype == "hmpl" || ttype == "gohmpl" then
        var d := if ttype == "tmpl" || ttype == "gotmpl" then TextDialect else HtmlDialect;
        var r := LoadGo(d, root, partials[..n], fs, parse);
        out == Returned(GoPtr(d, r.0), r.1, r.2)
      else if ttype == "mst" || ttype == "mustache" then
        var run := MstRewrite(partials, n, fs, dir);
        if run.paths.None? then out == Panicked(run.warnings)
        else
          var r := Parsed(mstParse(root, run.paths.value, MstExtensions));
          out == Returned(MstPtr(r.0), r.1, run.warnings)
      else out == Returned(NilInterface, Some(UnsupportedTemplateLang(ttype)), [])
  }

  /**
   * What the caller's array holds after LoadTemplateFile: only a mustache
   * root file rewrites the partials, in the array the caller passed;
   * every other outcome leaves it as it was.
   */
  ghost function PartialsAfter(root: string, partials: seq<string>, n: nat, fs: Fs, dir: string -> string): seq<string>
    requires n <= |partials|
  {
    if root != "" && root in fs.stat && !fs.stat[root].isDir && (TypeOf(root) == "mst" || TypeOf(root) == "mustache") then
      MstRewrite(partials, n, fs, dir).buffer
    else partials
  }

  /** LoadTemplateFile, with the variadic `partials` as the caller's array and its length. */
  method LoadTemplateFile(root: string, partials: array<string>, n: nat, fs: Fs,
                          parse: GoParse, mstParse: MstParse, dir: string -> string)
    returns (out: Outcome)
    requires n <= partials.Length
    modifies partials
    ensures LoadOutcome(root, old(partials[..]), n, fs, parse, mstParse, dir, out)
    ensures partials[..] == PartialsAfter(root, old(partials[..]), n, fs, dir)
  {
    if |root| == 0 {
      return Returned(NilInterface, Some(NoRoot), []);
    }
    if root !in fs.stat {
      return Returned(NilInterface, Some(StatFailed(root)), []);
    } else if fs.stat[root].isDir {
      return Returned(NilInterface, Some(RootIsDir(root)), []);
    }
    var ttype := TypeOf(root);
    if ttype == "tmpl" || ttype == "gotmpl" {
      var t, e, w := LoadGoTemplateFile(TextDialect, root, partials[..n], fs, parse);
      out := Returned(GoPtr(TextDialect, t), e, w);
    } else if ttype == "hmpl" || ttype == "gohmpl" {
      var t, e, w := LoadGoTemplateFile(HtmlDialect, root, partials[..n], fs, parse);
      out := Returned(GoPtr(HtmlDialect, t), e, w);
    } else if ttype == "mst" || ttype == "mustache" {
      var paths, w := RewriteMstPartials(partials, n, fs, dir);
      if paths.None? {
        return Panicked(w);
      }
      var r := Parsed(mstParse(root, paths.value, MstExtensions));
      out := Returned(MstPtr(r.0), r.1, w);
    } else {
      out := Returned(NilInterface, Some(UnsupportedTemplateLang(ttype)), []);
    }
  }

  /** The root's extension, exactly as written, decides the loader; anything else is refused. */
  lemma DispatchByExtension(stem: string, ext: string, partials: seq<string>, n: nat, fs: Fs,
                            parse: GoParse, mstParse: MstParse, dir: string -> string, out: Outcome)
    requires '.' !in ext && '/' !in ext && n <= |partials|
    requires var root := stem + "." + ext; root in fs.stat && !fs.stat[root].isDir
    requires LoadOutcome(stem + "." + ext, partials, n, fs, parse, mstParse, dir, out)
    ensures ext in ["tmpl", "gotmpl"] ==> out.Returned? && out.t.GoPtr? && out.t.dialect == TextDialect
    ensures ext in ["hmpl", "gohmpl"] ==> out.Returned? && out.t.GoPtr? && out.t.dialect == HtmlDialect
    ensures ext in ["mst", "mustache"] ==> out.Panicked? || out.t.MstPtr?
    ensures ext !in ["tmpl", "gotmpl", "hmpl", "gohmpl", "mst", "mustache"] ==>
      out == Returned(NilInterface, Some(UnsupportedTemplateLang(ext)), [])
  {
    var root := stem + "." + ext;
    DatiTemplate.TemplateTypeOfFileName(stem, ext);
    assert TypeOf(root) == ext && root != "";
    OutcomeOfType(root, ext, partials, n, fs, parse, mstParse, dir, out);
  }

  /** A regular root file's outcome, by its template type. */
  lemma OutcomeOfType(root: string, t: string, partials: seq<string>, n: nat, fs: Fs,
                      parse: GoParse, mstParse: MstParse, dir: string -> string, out: Outcome)
    requires n <= |partials| && root != "" && root in fs.stat && !fs.stat[root].isDir && TypeOf(root) == t
    requires LoadOutcome(root, partials, n, fs, parse, mstParse, dir, out)
    ensures t == "tmpl" || t == "gotmpl" ==> out.Returned? && out.t.GoPtr? && out.t.dialect == TextDialect
    ensures t == "hmpl" || t == "gohmpl" ==> out.Returned? && out.t.GoPtr? && out.t.dialect == HtmlDialect
    ensures t == "mst" || t == "mustache" ==> out.Panicked? || out.t.MstPtr?
    ensures !(t in {"tmpl", "gotmpl", "hmpl", "gohmpl", "mst", "mustache"}) ==>
      out == Returned(NilInterface, Some(UnsupportedTemplateLang(t)), [])
  {
  }

  /** The method ExecuteTemplate calls by reflection. */
  datatype Call = Execute | FRender

  /** The reflected call on the template with the data: what it writes to the buffer, and its error. */
  type Render = (Call, Template, Data) -> (string, Option<string>)

  /** How ExecuteTemplate ends: a panic, or the buffer and the error. */
  datatype Executed = ExecPanic | Executed(result: string, err: Option<Error>)

  /** reflect.TypeOf(t).String(); None for a nil interface, which has no type. */
  function TypeName(t: Template): Option<string> {
    match t
    case NilInterface => None
    case GoPtr(_, _) => Some("*template.Template")
    case MstPtr(_) => Some("*mustache.Template")
    case OtherType(name) => Some(name)
  }

  function RenderedBy(call: Call, t: Template, d: Data, render: Render): Executed {
    var (out, err) := render(call, t, d);
    Executed(out, if err.Some? then Some(RenderFailed(err.value)) else None)
  }

  /**
   * ExecuteTemplate: a text or html template is executed with Execute, a
   * mustache template with FRender. A nil template panics on its missing
   * type, and any other type panics too, reading the first result of a
   * call that was never made. A nil *template.Template or
   * *mustache.Template still has its type, so the call is made, and it
   * panics: Execute and FRender dereference their receiver.
   */
  function ExecuteTemplate(t: Template, d: Data, render: Render): (r: Executed)
    ensures r.ExecPanic? <==>
      TypeName(t) !in [Some("*template.Template"), Some("*mustache.Template")]
      || (t.GoPtr? && t.tree.None?) || (t.MstPtr? && t.tree.None?)
    ensures t.GoPtr? && t.tree.Some? ==> r == RenderedBy(Execute, t, d, render)
    ensures t.MstPtr? && t.tree.Some? ==> r == RenderedBy(FRender, t, d, render)
  {
    match TypeName(t)
    case None => ExecPanic
    case Some(name) =>
      if name == "*template.Template" then
        if t.GoPtr? && t.tree.None? then ExecPanic else RenderedBy(Execute, t, d, render)
      else if name == "*mustache.Template" then
        if t.MstPtr? && t.tree.None? then ExecPanic else RenderedBy(FRender, t, d, render)
      else ExecPanic
  }

  /**
   * Whatever LoadTemplateFile returns without an error is of one of the
   * two types ExecuteTemplate knows, so executing it panics exactly when
   * the loader left a nil template behind.
   */
  lemma LoadedTemplatesExecute(root: string, partials: seq<string>, n: nat, fs: Fs,
                               parse: GoParse, mstParse: MstParse, dir: string -> string, out: Outcome,
                               d: Data, render: Render)
    requires n <= |partials| && LoadOutcome(root, partials, n, fs, parse, mstParse, dir, out)
    requires out.Returned? && out.e.None?
    ensures out.t.GoPtr? || out.t.MstPtr?
    ensures ExecuteTemplate(out.t, d, render).ExecPanic? <==> out.t.tree.None?
  {
  }

  /**
   * The hmpl loader can return a nil template with no error: when a
   * partial is a directory and the second ParseGlob fails (a directory
   * with *.hmpl files but no *.gohmpl file), html/template returns a nil
   * template, and the loop clears the error after warning about it.
   * Executing what is returned panics.
   */
  lemma NilHtmlTemplatePanics(root: string, p: string, msg: string, fs: Fs, parse: GoParse,
                              mstParse: MstParse, dir: string -> string, out: Outcome,
                              d: Data, render: Render)
    requires root != "" && root in fs.stat && !fs.stat[root].isDir && TypeOf(root) == "hmpl"
    requires p in fs.stat && fs.stat[p].isDir && TypeOf(p) !in Exts(HtmlDialect) && '*' !in p
    requires parse(HtmlDialect, PackageLevel, ParseFiles(root)).1.None?
    requires var t0 := parse(HtmlDialect, PackageLevel, ParseFiles(root)).0;
             var t1 := parse(HtmlDialect, Method(t0), ParseGlob(p + "/*." + "hmpl")).0;
             parse(HtmlDialect, Method(t1), ParseGlob(p + "/*." + "gohmpl")) == (None, Some(msg))
    requires LoadOutcome(root, [p], 1, fs, parse, mstParse, dir, out)
    ensures out == Returned(GoPtr(HtmlDialect, None), None, [SkippingPartial(p, Some(ParseFailed(msg)))])
    ensures ExecuteTemplate(out.t, d, render) == ExecPanic
  {
    var t0 := parse(HtmlDialect, PackageLevel, ParseFiles(root)).0;
    assert Classify(HtmlDialect, p, fs) == AsDir;
    assert PartialStep(HtmlDialect, t0, p, fs, parse) == (None, Some(ParseFailed(msg)));
    PartialsLoopOne(HtmlDialect, t0, p, fs, parse);
    assert [p][..1] == [p];
  }
}
