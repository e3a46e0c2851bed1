/**
 * file.go: ordering a list of file paths by base name or by modification
 * time. Modification times come from `stat`, which maps every path os.Stat
 * succeeds on to what it reports.
 */
module DatiFile {
  import opened Common
  import opened GoStrings
  import opened GoSort

  /** The position of the first path os.Stat fails on, scanning in order. */
  function FirstStatFailure(ps: seq<string>, stat: map<string, FileInfo>): (r: Option<nat>)
    ensures r.None? <==> forall p | p in ps :: p in stat
    ensures r.Some? ==> r.value < |ps| && ps[r.value] !in stat
                        && forall j :: 0 <= j < r.value ==> ps[j] in stat
  {
    if ps == [] then None
    else if ps[0] !in stat then Some(0)
    else
      match FirstStatFailure(ps[1..], stat)
      case Some(i) => Some(i + 1)
      case None =>
        assert forall p | p in ps :: p == ps[0] || p in ps[1..];
        None
  }

  /** Paths ordered by the modification time `stat` gives them. */
  predicate ByMtime(ps: seq<string>, stat: map<string, FileInfo>, desc: bool) {
    forall i, j :: 0 <= i < j < |ps| && ps[i] in stat && ps[j] in stat ==>
      TimesInOrder(stat[ps[i]].mtime, stat[ps[j]].mtime, desc)
  }

  /**
   * SortFileList: the six order keywords choose a sort; anything else
   * (including "") is an error and the paths come back as they were.
   */
  method SortFileList(paths: array<string>, order: string, stat: map<string, FileInfo>)
    returns (sorted: array<string>, err: Option<Error>)
    modifies paths
    ensures order == "filename-desc" || order == "filename-asc" || order == "filename" ==>
      sorted == paths && err.None?
      && multiset(paths[..]) == multiset(old(paths[..]))
      && AdjSorted(paths[..], true, order == "filename-desc")
    ensures order == "modified-desc" || order == "modified-asc" || order == "modified" ==>
      paths[..] == old(paths[..])
      && ModSortOutcome(paths[..], stat, order == "modified-desc", sorted[..], sorted == paths, err)
    ensures order !in {"filename-desc", "filename-asc", "filename", "modified-desc", "modified-asc", "modified"} ==>
      sorted == paths && paths[..] == old(paths[..]) && err == Some(InvalidOrder(order))
  {
    if order == "filename-desc" {
      sorted := SortFileListByName(true, paths);
      err := None;
    } else if order == "filename-asc" || order == "filename" {
      sorted := SortFileListByName(false, paths);
      err := None;
    } else if order == "modified-desc" {
      sorted, err := SortFileListByMod(true, paths, stat);
    } else if order == "modified-asc" || order == "modified" {
      sorted, err := SortFileListByMod(false, paths, stat);
    } else {
      err := Some(InvalidOrder(order));
      sorted := paths;
    }
  }

  /** sort.Slice on the caller's slice, comparing base names only; the caller's slice is returned. */
  method SortFileListByName(desc: bool, paths: array<string>) returns (sorted: array<string>)
    modifies paths
    ensures sorted == paths
    ensures multiset(paths[..]) == multiset(old(paths[..]))
    ensures AdjSorted(paths[..], true, desc)
  {
    SortStrings(paths, true, desc);
    sorted := paths;
  }

  /**
   * What sortFileListByMod returns: on a stat failure the original paths
   * (the same slice) and that failure; otherwise each distinct path exactly
   * once, in modification-time order, with no error even when duplicates
   * made the result shorter than the input.
   */
  predicate ModSortOutcome(paths: seq<string>, stat: map<string, FileInfo>, desc: bool,
                           sorted: seq<string>, same: bool, err: Option<Error>) {
    match FirstStatFailure(paths, stat)
    case Some(i) => same && sorted == paths && err == Some(StatFailed(paths[i]))
    case None =>
      err.None? && NoDup(sorted) && Elems(sorted) == Elems(paths)
      && |sorted| == |Elems(paths)| && ByMtime(sorted, stat, desc)
  }

  /** The modification times of `ps`, in the order of `ps`. */
  ghost function Times(ps: seq<string>, mtimes: map<string, int>): (r: seq<int>)
    requires forall p | p in ps :: p in mtimes
    ensures |r| == |ps| && forall i :: 0 <= i < |ps| ==> r[i] == mtimes[ps[i]]
  {
    seq(|ps|, i requires 0 <= i < |ps| => mtimes[ps[i]])
  }

  lemma RemoveAt<T>(s: seq<T>, i: nat)
    requires i < |s|
    ensures multiset(s[..i] + s[i + 1..]) == multiset(s) - multiset{s[i]}
  {
    assert s == s[..i] + [s[i]] + s[i + 1..];
  }

  lemma {:induction false} NoDupCard<T>(s: seq<T>)
    requires NoDup(s)
    ensures |Elems(s)| == |s|
  {
    if s != [] {
      var t := s[..|s| - 1];
      assert Elems(s) == Elems(t) + {s[|s| - 1]};
      NoDupCard(t);
    }
  }

  method SortFileListByMod(desc: bool, paths: array<string>, stat: map<string, FileInfo>)
    returns (sorted: array<string>, err: Option<Error>)
    ensures ModSortOutcome(paths[..], stat, desc, sorted[..], sorted == paths, err)
  {
    var stats, failed := StatAll(paths, stat);
    if failed.Some? {
      return paths, Some(StatFailed(paths[failed.value]));
    }
    var modtimes, visited := MapTimes(stats);
    SortTimes(modtimes, desc);
    var picked := PickByTime(stats, modtimes, visited);
    PickedOutcome(paths[..], stat, desc, stats, modtimes[..], picked, false);
    sorted := ToArray(picked);
    err := None;
  }

  /** The paths the pick loop returns, in the order of the sorted times, are a good outcome. */
  lemma PickedOutcome(paths: seq<string>, stat: map<string, FileInfo>, desc: bool,
                      stats: map<string, int>, times: seq<int>, picked: seq<string>, same: bool)
    requires FirstStatFailure(paths, stat).None?
    requires stats.Keys == Elems(paths) && forall p | p in stats :: p in stat && stats[p] == stat[p].mtime
    requires TimesSorted(times, desc)
    requires |picked| == |times|
    requires forall j :: 0 <= j < |picked| ==> picked[j] in stats && stats[picked[j]] == times[j]
    requires NoDup(picked) && Elems(picked) == stats.Keys
    ensures ModSortOutcome(paths, stat, desc, picked, same, None)
  {
    NoDupCard(picked);
    PickedInOrder(stat, desc, stats, times, picked);
  }

  /** Paths matched one by one to sorted times are in modification-time order. */
  lemma PickedInOrder(stat: map<string, FileInfo>, desc: bool, stats: map<string, int>,
                      times: seq<int>, picked: seq<string>)
    requires forall p | p in stats :: p in stat && stats[p] == stat[p].mtime
    requires TimesSorted(times, desc)
    requires |picked| == |times|
    requires forall j :: 0 <= j < |picked| ==> picked[j] in stats && stats[picked[j]] == times[j]
    ensures ByMtime(picked, stat, desc)
  {
    forall i, j | 0 <= i < j < |picked|
      ensures TimesInOrder(stat[picked[i]].mtime, stat[picked[j]].mtime, desc)
    {
      assert TimesInOrder(times[i], times[j], desc);
    }
  }

  /** The stat loop: the modification time of every path, or the position of the first failure. */
  method StatAll(paths: array<string>, stat: map<string, FileInfo>)
    returns (stats: map<string, int>, failed: Option<nat>)
    ensures failed == FirstStatFailure(paths[..], stat)
    ensures failed.None? ==> stats.Keys == Elems(paths[..])
                             && forall p | p in stats :: p in stat && stats[p] == stat[p].mtime
  {
    stats := map[];
    var i := 0;
    while i < paths.Length
      invariant 0 <= i <= paths.Length
      invariant FirstStatFailure(paths[..i], stat).None?
      invariant stats.Keys == Elems(paths[..i])
      invariant forall p | p in stats :: p in stat && stats[p] == stat[p].mtime
    {
      assert paths[..i + 1] == paths[..i] + [paths[i]];
      if paths[i] !in stat {
        StatFailureAt(paths[..], stat, i);
        return stats, Some(i);
      }
      stats := stats[paths[i] := stat[paths[i]].mtime];
      i := i + 1;
    }
    assert paths[..i] == paths[..];
    failed := None;
  }

  /** `range stats` collecting the values, in map iteration order (`visited`). */
  method MapTimes(stats: map<string, int>) returns (modtimes: array<int>, ghost visited: seq<string>)
    ensures fresh(modtimes)
    ensures Elems(visited) == stats.Keys && NoDup(visited)
    ensures modtimes[..] == Times(visited, stats)
  {
    var unvisited := stats.Keys;
    var times: seq<int> := [];
    visited := [];
    while unvisited != {}
      invariant unvisited !! Elems(visited) && unvisited + Elems(visited) == stats.Keys
      invariant NoDup(visited)
      invariant times == Times(visited, stats)
      decreases |unvisited|
    {
      var p :| p in unvisited;
      VisitStep(stats, visited, unvisited, p);
      times := times + [stats[p]];
      visited := visited + [p];
      unvisited := unvisited - {p};
    }
    modtimes := ToArray(times);
  }

  lemma VisitStep(stats: map<string, int>, visited: seq<string>, unvisited: set<string>, p: string)
    requires unvisited !! Elems(visited) && unvisited + Elems(visited) == stats.Keys && NoDup(visited)
    requires p in unvisited
    ensures unvisited - {p} !! Elems(visited + [p]) && (unvisited - {p}) + Elems(visited + [p]) == stats.Keys
    ensures NoDup(visited + [p])
    ensures Times(visited + [p], stats) == Times(visited, stats) + [stats[p]]
  {
    assert Elems(visited + [p]) == Elems(visited) + {p};
    assert forall i :: 0 <= i < |visited| ==> visited[i] in Elems(visited);
  }

  /** A new array holding `s`. */
  method ToArray<T>(s: seq<T>) returns (a: array<T>)
    ensures fresh(a) && a[..] == s
  {
    a := new T[|s|](j requires 0 <= j < |s| => s[j]);
  }

  /**
   * The pick loop: for each time in turn, some path still in the map with
   * that time is appended and deleted from the map. Such a path always
   * exists because the times are exactly the map's values.
   */
  method PickByTime(stats: map<string, int>, modtimes: array<int>, ghost visited: seq<string>)
    returns (picked: seq<string>)
    requires Elems(visited) == stats.Keys && NoDup(visited)
    requires multiset(modtimes[..]) == multiset(Times(visited, stats))
    ensures |picked| == modtimes.Length
    ensures forall j :: 0 <= j < |picked| ==> picked[j] in stats && stats[picked[j]] == modtimes[j]
    ensures NoDup(picked) && Elems(picked) == stats.Keys
  {
    picked := [];
    var left := stats;
    ghost var pending := visited;
    var k := 0;
    assert modtimes[0..] == modtimes[..];
    while k < modtimes.Length
      invariant 0 <= k <= modtimes.Length
      invariant Picking(stats, left, pending, picked, modtimes[k..])
      invariant Matches(picked, stats, modtimes[..k])
    {
      var t := modtimes[k];
      assert modtimes[k..][1..] == modtimes[k + 1..];
      assert modtimes[..k + 1] == modtimes[..k] + [t];
      var p;
      p, left, pending := PickOne(left, t, pending, stats, picked, modtimes[k..]);
      MatchesSnoc(picked, stats, modtimes[..k], p, t);
      picked := picked + [p];
      k := k + 1;
    }
    assert modtimes[..k] == modtimes[..];
    assert |pending| == 0 by {
      assert |multiset(Times(pending, stats))| == |modtimes[k..]|;
    }
  }

  /** The picked paths have, one by one, the times `ts`. */
  ghost predicate Matches(picked: seq<string>, stats: map<string, int>, ts: seq<int>) {
    |picked| == |ts| && forall j :: 0 <= j < |picked| ==> picked[j] in stats && stats[picked[j]] == ts[j]
  }

  lemma MatchesSnoc(picked: seq<string>, stats: map<string, int>, ts: seq<int>, p: string, t: int)
    requires Matches(picked, stats, ts) && p in stats && stats[p] == t
    ensures Matches(picked + [p], stats, ts + [t])
  {
  }

  /**
   * Halfway through the pick loop: `left` holds the paths not picked yet,
   * `pending` lists them, and their times are the times `ts` still to place.
   */
  ghost predicate Picking(stats: map<string, int>, left: map<string, int>, pending: seq<string>,
                          picked: seq<string>, ts: seq<int>) {
    left.Keys == Elems(pending) && NoDup(pending) && left.Keys <= stats.Keys
    && (forall p | p in left :: left[p] == stats[p])
    && multiset(Times(pending, stats)) == multiset(ts)
    && NoDup(picked) && Elems(picked) !! left.Keys && Elems(picked) + left.Keys == stats.Keys
  }

  /**
   * The inner loop over the map: some entry with time `t` is found, deleted
   * and its path returned.
   */
  method PickOne(left: map<string, int>, t: int, ghost pending: seq<string>,
                 ghost stats: map<string, int>, ghost picked: seq<string>, ghost ts: seq<int>)
    returns (p: string, left': map<string, int>, ghost rest: seq<string>)
    requires Picking(stats, left, pending, picked, ts)
    requires ts != [] && ts[0] == t
    ensures p in left && left[p] == t && left' == left - {p}
    ensures Picking(stats, left', rest, picked + [p], ts[1..])
  {
    assert ts == [t] + ts[1..];
    ghost var n := PendingWithTime(pending, stats, t);
    assert pending[n] in left;
    p :| p in left && left[p] == t;
    rest := PickStep(pending, stats, ts, p);
    left' := left - {p};
    assert Elems(picked + [p]) == Elems(picked) + {p};
    assert forall i :: 0 <= i < |picked| ==> picked[i] in Elems(picked);
  }

  /** One round of the pick loop keeps the pending paths' times equal to the times still to place. */
  lemma PickStep(pending: seq<string>, stats: map<string, int>, ts: seq<int>, p: string)
    returns (rest: seq<string>)
    requires forall q | q in pending :: q in stats
    requires p in pending && NoDup(pending)
    requires ts != [] && stats[p] == ts[0]
    requires multiset(Times(pending, stats)) == multiset(ts)
    ensures Elems(rest) == Elems(pending) - {p} && NoDup(rest)
    ensures forall q | q in rest :: q in stats
    ensures multiset(Times(rest, stats)) == multiset(ts[1..])
  {
    var at := RemovePending(pending, stats, p);
    rest := pending[..at] + pending[at + 1..];
    assert ts == [ts[0]] + ts[1..];
  }

  lemma PendingWithTime(pending: seq<string>, stats: map<string, int>, t: int) returns (n: nat)
    requires forall p | p in pending :: p in stats
    requires t in multiset(Times(pending, stats))
    ensures n < |pending| && stats[pending[n]] == t
  {
    var ts := Times(pending, stats);
    assert t in ts;
    n :| 0 <= n < |ts| && ts[n] == t;
  }

  /** Deleting one pending path removes exactly its time and itself. */
  lemma RemovePending(pending: seq<string>, stats: map<string, int>, p: string) returns (at: nat)
    requires forall q | q in pending :: q in stats
    requires p in pending && NoDup(pending)
    ensures at < |pending| && pending[at] == p
    ensures multiset(Times(pending[..at] + pending[at + 1..], stats))
            == multiset(Times(pending, stats)) - multiset{stats[p]}
    ensures Elems(pending[..at] + pending[at + 1..]) == Elems(pending) - {p}
    ensures NoDup(pending[..at] + pending[at + 1..])
  {
    at :| 0 <= at < |pending| && pending[at] == p;
    var rest := pending[..at] + pending[at + 1..];
    var ts := Times(pending, stats);
    RemoveAt(ts, at);
    assert Times(rest, stats) == ts[..at] + ts[at + 1..];
    RemoveElems(pending, at);
  }

  /** Taking one element out of a sequence without duplicates takes out exactly that element. */
  lemma RemoveElems<T>(s: seq<T>, at: nat)
    requires at < |s| && NoDup(s)
    ensures Elems(s[..at] + s[at + 1..]) == Elems(s) - {s[at]}
    ensures NoDup(s[..at] + s[at + 1..])
  {
    var rest := s[..at] + s[at + 1..];
    assert forall m :: 0 <= m < |rest| ==> rest[m] == s[if m < at then m else m + 1];
    forall x | x in Elems(s) - {s[at]}
      ensures x in rest
    {
      var m :| 0 <= m < |s| && s[m] == x;
      if m < at {
        assert x == rest[m];
      } else {
        assert x == rest[m - 1];
      }
    }
  }

  lemma StatFailureAt(ps: seq<string>, stat: map<string, FileInfo>, i: nat)
    requires i < |ps| && ps[i] !in stat
    requires FirstStatFailure(ps[..i], stat).None?
    ensures FirstStatFailure(ps, stat) == Some(i)
  {
  }

  /** By-name ordering compares base names only: the directories play no part. */
  lemma NameOrderIgnoresDirectories(dir1: string, name1: string, dir2: string, name2: string, desc: bool)
    requires name1 != "" && '/' !in name1 && name2 != "" && '/' !in name2
    ensures InOrder(dir1 + "/" + name1, dir2 + "/" + name2, true, desc) == InOrder(name1, name2, true, desc)
  {
    BaseOfChild(dir1, name1);
    BaseOfChild(dir2, name2);
  }
}
