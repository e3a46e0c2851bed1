/**
 * Types shared by every generation of the tool: decoded values, the
 * filesystem as the model sees it, errors and warnings.
 */
module Common {

  datatype Option<T> = None | Some(value: T)

  newtype byte = x: int | 0 <= x < 256

  /**
   * A value produced by a data decoder. The model never looks inside a
   * decoded value (`Leaf`); it only needs to tell Go's `nil` apart and
   * to store a list of data maps under the data key (`Tables`).
   */
  datatype Value = Null | Leaf(repr: string) | Tables(items: seq<map<string, Value>>)

  /** Go's `map[string]interface{}`. */
  type Data = map<string, Value>

  /** The outcome of reading an io.Reader to its end. */
  datatype Input = Unreadable(msg: string) | Bytes(content: seq<byte>)

  /** What os.Stat reports about a path that exists. */
  datatype FileInfo = FileInfo(isDir: bool, mtime: int)

  /** One call of a filepath.Walk callback: a visited entry, or the error Walk hands over. */
  datatype WalkEntry = Visit(path: string, isDir: bool) | WalkError(path: string, msg: string)

  /**
   * The filesystem, as inputs: `stat` holds every path os.Stat succeeds on,
   * `files` every path os.Open succeeds on (with what reading it gives),
   * `walks` the entries filepath.Walk visits under a directory, in order,
   * and `globs` what filepath.Glob returns for a pattern (absent: an error).
   */
  datatype Fs = Fs(
    stat: map<string, FileInfo>,
    files: map<string, Input>,
    walks: map<string, seq<WalkEntry>>,
    globs: map<string, seq<string>>)
  {
    function Walk(dir: string): seq<WalkEntry> {
      if dir in walks then walks[dir] else []
    }
  }

  /** The errors the core returns; each constructor stands for one error value of the source. */
  datatype Error =
    | StatFailed(path: string)
    | OpenFailed(path: string)
    | ReadFailed(msg: string)
    | DecodeFailed(msg: string)
    | UnsupportedDataLang(lang: string)
    | LoadFailed(path: string, cause: Error)
    | InvalidOrder(order: string)
    | InvalidType(lang: string)
    | UnsupportedTemplateLang(lang: string)
    | NoRoot
    | RootIsDir(path: string)
    | NonMatchingFiletype
    | ParseFailed(msg: string)
    | RenderFailed(msg: string)
    | TemplateIsNil
    | UnknownTemplateType(typeName: string)
    | WalkFailed(msg: string)

  /** Diagnostics the source prints with its `warn` helpers. */
  datatype Warning =
    | BadFlagSyntax(arg: string)
    | IgnoringFlag(flag: string)
    | UnknownFlag(flag: string)
    | ConfigUnreadable(path: string)
    | RelFailed(path: string)
    | SkippingDataFile(path: string, err: Error)
    | CouldNotLoad(path: string, err: Error)
    | ErrorLoadingFiles(path: string, err: Error)
    | UnableToLoad(path: string, err: Error)
    | FailedToStat(path: string)
    | SkippingPartial(path: string, reported: Option<Error>)
    | MergeConflict(key: string)
    | DataKeyOverwritten(key: string)

  /** Sequences without repeated elements. */
  predicate NoDup<T(==)>(s: seq<T>) {
    forall i, j :: 0 <= i < j < |s| ==> s[i] != s[j]
  }

  function Elems<T>(s: seq<T>): set<T> {
    set x | x in s
  }

  /** A non-empty sequence appended is the sequence without its last element appended, then that element. */
  lemma ConcatSnoc<T>(a: seq<T>, b: seq<T>)
    requires b != []
    ensures a + b == (a + b[..|b| - 1]) + [b[|b| - 1]]
    ensures b[..|b| - 1] + [b[|b| - 1]] == b
  {
  }

  /** Moving one key from the keys still to visit to the keys visited keeps the partition. */
  lemma MoveOne<T>(all: set<T>, left: set<T>, seen: set<T>, x: T)
    requires left !! seen && left + seen == all && x in left
    ensures left - {x} !! seen + {x} && (left - {x}) + (seen + {x}) == all
    ensures |left - {x}| < |left|
  {
  }
}

/**
 * The first-value-wins merge shared by src/data.go's MergeData and
 * cmd/dati.go's mergeData. Both keep a value unless the value already
 * merged for the key is `nil`, so a `nil` can be replaced later.
 */
module Merging {
  import opened Common

  /** Folds one more container into the merged map, as the inner loop does. */
  function Absorb(acc: Data, d: Data): (r: Data)
    ensures r.Keys == acc.Keys + d.Keys
  {
    map k | k in acc.Keys + d.Keys ::
      if k in d && (k !in acc || acc[k] == Null) then d[k] else acc[k]
  }

  /** The map the merge loops build from `ds`, containers taken in order. */
  function Merged(ds: seq<Data>): Data {
    if ds == [] then map[] else Absorb(Merged(ds[..|ds| - 1]), ds[|ds| - 1])
  }

  /** All keys of all containers. */
  function AllKeys(ds: seq<Data>): set<string> {
    if ds == [] then {} else AllKeys(ds[..|ds| - 1]) + ds[|ds| - 1].Keys
  }

  /**
   * Reference definition: the first non-null value stored under `k`,
   * scanning the containers from the front, or Null when there is none.
   */
  function FirstNonNull(ds: seq<Data>, k: string): Value {
    if ds == [] then Null
    else if k in ds[0] && ds[0][k] != Null then ds[0][k]
    else FirstNonNull(ds[1..], k)
  }

  lemma {:induction false} FirstNonNullSnoc(ds: seq<Data>, d: Data, k: string)
    ensures FirstNonNull(ds + [d], k) ==
      if FirstNonNull(ds, k) != Null then FirstNonNull(ds, k)
      else if k in d then d[k] else Null
  {
    if ds != [] {
      assert (ds + [d])[1..] == ds[1..] + [d];
      FirstNonNullSnoc(ds[1..], d, k);
    } else {
      assert (ds + [d])[1..] == [];
    }
  }

  /**
   * The merged key set is the union of all key sets, and every key holds
   * the first non-null value in container order (Null if all are null).
   */
  lemma {:induction false} MergedIsFirstNonNull(ds: seq<Data>)
    ensures Merged(ds).Keys == AllKeys(ds)
    ensures forall k :: k in Merged(ds) ==> Merged(ds)[k] == FirstNonNull(ds, k)
  {
    if ds != [] {
      var init, d := ds[..|ds| - 1], ds[|ds| - 1];
      assert ds == init + [d];
      MergedIsFirstNonNull(init);
      forall k | k in Merged(ds)
        ensures Merged(ds)[k] == FirstNonNull(ds, k)
      {
        FirstNonNullSnoc(init, d, k);
        if k !in Merged(init) {
          FirstNonNullAbsent(init, k);
        }
      }
    }
  }

  lemma {:induction false} FirstNonNullAbsent(ds: seq<Data>, k: string)
    requires k !in Merged(ds)
    ensures FirstNonNull(ds, k) == Null
  {
    if ds != [] {
      var init, d := ds[..|ds| - 1], ds[|ds| - 1];
      assert ds == init + [d];
      FirstNonNullAbsent(init, k);
      FirstNonNullSnoc(init, d, k);
    }
  }
}
