/**
 * The parts of Go's `strings` and `path/filepath` packages the core relies
 * on, for Unix paths (the separator is '/'). Strings are sequences of
 * Unicode scalar values; Go compares strings byte by byte in UTF-8, which
 * orders them exactly as comparing their code points does.
 */
module GoStrings {

  predicate IsSuffix(suffix: string, s: string) {
    |suffix| <= |s| && s[|s| - |suffix|..] == suffix
  }

  /** The part of `p` after its last '/', or all of `p` when it has none. */
  function LastElem(p: string): (r: string)
    ensures IsSuffix(r, p) && '/' !in r
    ensures r == p || p[|p| - |r| - 1] == '/'
    ensures '/' !in p ==> r == p
  {
    if p == [] || p[|p| - 1] == '/' then [] else LastElem(p[..|p| - 1]) + [p[|p| - 1]]
  }

  /**
   * filepath.Ext: the suffix of `path` from the last '.' of its last element,
   * or "" when that element has no '.'.
   */
  function Ext(path: string): (e: string)
    ensures e == "" || (e[0] == '.' && '.' !in e[1..])
    ensures IsSuffix(e, path) && '/' !in e
  {
    if path == [] || path[|path| - 1] == '/' then ""
    else if path[|path| - 1] == '.' then "."
    else
      var e := Ext(path[..|path| - 1]);
      if e == "" then "" else e + [path[|path| - 1]]
  }

  /** `path` without its trailing '/' characters. */
  function TrimTrailingSlashes(path: string): (r: string)
    ensures r <= path
    ensures r == [] || r[|r| - 1] != '/'
    ensures forall i :: |r| <= i < |path| ==> path[i] == '/'
  {
    if path == [] || path[|path| - 1] != '/' then path else TrimTrailingSlashes(path[..|path| - 1])
  }

  /**
   * filepath.Base: the last element of `path` once trailing slashes are
   * removed; "." for the empty path and "/" for a path of slashes only.
   */
  function Base(path: string): (r: string)
    ensures r != ""
    ensures r == "/" || '/' !in r
    ensures path != "" && '/' !in path ==> r == path
  {
    if path == "" then "."
    else
      var t := TrimTrailingSlashes(path);
      if t == "" then "/" else LastElem(t)
  }

  lemma {:induction false} LastElemAfterSlash(dir: string, name: string)
    requires '/' !in name
    ensures LastElem(dir + "/" + name) == name
  {
    if name != [] {
      var p := dir + "/" + name;
      assert p[..|p| - 1] == dir + "/" + name[..|name| - 1];
      LastElemAfterSlash(dir, name[..|name| - 1]);
    }
  }

  /** Directory components never show through Base. */
  lemma BaseOfChild(dir: string, name: string)
    requires name != "" && '/' !in name
    ensures Base(dir + "/" + name) == name
  {
    LastElemAfterSlash(dir, name);
  }

  /** filepath.IsAbs on Unix. */
  predicate IsAbs(path: string) {
    |path| > 0 && path[0] == '/'
  }

  function TrimPrefix(s: string, prefix: string): (r: string)
    ensures prefix <= s ==> s == prefix + r
    ensures !(prefix <= s) ==> r == s
  {
    if prefix <= s then s[|prefix|..] else s
  }

  function TrimSuffix(s: string, suffix: string): (r: string)
    ensures IsSuffix(suffix, s) ==> s == r + suffix
    ensures !IsSuffix(suffix, s) ==> r == s
  {
    if IsSuffix(suffix, s) then s[..|s| - |suffix|] else s
  }

  /** `s` without one leading '.': strings.TrimPrefix(s, "."). */
  function TrimDot(s: string): (r: string)
    ensures |s| > 0 && s[0] == '.' ==> s == "." + r && r == s[1..]
    ensures !(|s| > 0 && s[0] == '.') ==> r == s
  {
    if |s| > 0 && s[0] == '.' then s[1..] else s
  }

  /** unicode.ToLower restricted to ASCII letters (other characters are kept). */
  function LowerChar(c: char): char {
    if 'A' <= c <= 'Z' then (c as int + 32) as char else c
  }

  /** strings.ToLower, for ASCII letters. */
  function ToLower(s: string): (r: string)
    ensures |r| == |s|
    ensures forall i :: 0 <= i < |s| ==> r[i] == LowerChar(s[i])
  {
    if s == [] then [] else [LowerChar(s[0])] + ToLower(s[1..])
  }

  lemma ToLowerCons(c: char, s: string)
    ensures ToLower([c] + s) == [LowerChar(c)] + ToLower(s)
  {
    assert ([c] + s)[1..] == s;
  }

  lemma ToLowerIdempotent(s: string)
    ensures ToLower(ToLower(s)) == ToLower(s)
  {
  }

  lemma {:induction false} ToLowerPrefix(s: string, n: nat)
    requires n <= |s|
    ensures ToLower(s[..n]) == ToLower(s)[..n]
  {
  }

  lemma ToLowerSnoc(s: string, c: char)
    ensures ToLower(s + [c]) == ToLower(s) + [LowerChar(c)]
  {
    assert ToLower(s + [c])[..|s|] == ToLower(s);
  }

  /** Lower-casing a path and taking its extension commute. */
  lemma {:induction false} ExtToLower(p: string)
    ensures Ext(ToLower(p)) == ToLower(Ext(p))
  {
    if p != [] {
      var init, c := p[..|p| - 1], p[|p| - 1];
      assert p == init + [c];
      ToLowerSnoc(init, c);
      var q := ToLower(p);
      assert q[..|q| - 1] == ToLower(init) && q[|q| - 1] == LowerChar(c);
      assert (LowerChar(c) == '/') == (c == '/') && (LowerChar(c) == '.') == (c == '.');
      if c != '/' && c != '.' {
        ExtToLower(init);
        var e := Ext(init);
        if e != "" {
          ToLowerSnoc(e, c);
        }
      } else if c == '.' {
        assert ToLower(".") == [LowerChar('.')] + ToLower([]);
      }
    }
  }

  /** A path ending in "." followed by a dot-free, slash-free name has that extension. */
  lemma {:induction false} ExtOfSuffix(p: string, name: string)
    requires '.' !in name && '/' !in name
    ensures Ext(p + "." + name) == "." + name
  {
    if name != [] {
      var init, c := name[..|name| - 1], name[|name| - 1];
      var q := p + "." + name;
      assert q == (p + "." + init) + [c];
      assert q[..|q| - 1] == p + "." + init;
      ExtOfSuffix(p, init);
      assert "." + name == ("." + init) + [c];
    }
  }

  /** unicode.IsSpace. */
  predicate IsSpace(c: char) {
    c == ' ' || c == '\t' || c == '\n' || c == '\r' || c == '\U{000B}' || c == '\U{000C}'
    || c == '\U{0085}' || c == '\U{00A0}' || c == '\U{1680}' || ('\U{2000}' <= c <= '\U{200A}')
    || c == '\U{2028}' || c == '\U{2029}' || c == '\U{202F}' || c == '\U{205F}' || c == '\U{3000}'
  }

  function TrimLeftSpace(s: string): (r: string)
    ensures IsSuffix(r, s)
    ensures r == [] || !IsSpace(r[0])
    ensures forall i :: 0 <= i < |s| - |r| ==> IsSpace(s[i])
  {
    if s != [] && IsSpace(s[0]) then TrimLeftSpace(s[1..]) else s
  }

  function TrimRightSpace(s: string): (r: string)
    ensures r <= s
    ensures r == [] || !IsSpace(r[|r| - 1])
    ensures forall i :: |r| <= i < |s| ==> IsSpace(s[i])
  {
    if s != [] && IsSpace(s[|s| - 1]) then TrimRightSpace(s[..|s| - 1]) else s
  }

  /**
   * strings.TrimSpace: no white space left at either end, and what was
   * cut off on either side is all white space, so nothing else is removed.
   */
  function TrimSpace(s: string): (r: string)
    ensures r == [] || (!IsSpace(r[0]) && !IsSpace(r[|r| - 1]))
    ensures exists i, j ::
              && 0 <= i <= j <= |s| && r == s[i..j]
              && (forall k :: 0 <= k < i ==> IsSpace(s[k]))
              && (forall k :: j <= k < |s| ==> IsSpace(s[k]))
  {
    var l := TrimLeftSpace(s);
    var r := TrimRightSpace(l);
    TrimmedOff(s, l, r);
    r
  }

  lemma PrefixSlice(a: string, b: string)
    requires a <= b
    ensures a == b[..|a|]
  {
  }

  /** TrimSpace's result, and what it cuts off on either side. */
  lemma TrimmedOff(s: string, l: string, r: string)
    requires IsSuffix(l, s) && r <= l
    requires forall k :: 0 <= k < |s| - |l| ==> IsSpace(s[k])
    requires forall k :: |r| <= k < |l| ==> IsSpace(l[k])
    ensures 0 <= |s| - |l| <= |s| - |l| + |r| <= |s|
    ensures r == s[|s| - |l|..|s| - |l| + |r|]
    ensures forall k :: 0 <= k < |s| - |l| ==> IsSpace(s[k])
    ensures forall k :: |s| - |l| + |r| <= k < |s| ==> IsSpace(s[k])
  {
    var i, j := |s| - |l|, |s| - |l| + |r|;
    assert l == s[i..];
    PrefixSlice(r, l);
    assert s[i..j] == s[i..][..|r|];
    forall k | j <= k < |s|
      ensures IsSpace(s[k])
    {
      assert s[k] == l[k - i];
    }
  }

  /** The index of the first `c` in `s`. */
  function IndexOf(s: string, c: char): (i: nat)
    requires c in s
    ensures i < |s| && s[i] == c && c !in s[..i]
  {
    if s[0] == c then 0 else 1 + IndexOf(s[1..], c)
  }

  /** strings.Split with a one-character separator. */
  function Split(s: string, sep: char): (parts: seq<string>)
    ensures |parts| >= 1
    ensures forall i :: 0 <= i < |parts| ==> sep !in parts[i]
    decreases |s|
  {
    if sep !in s then [s]
    else
      var i := IndexOf(s, sep);
      [s[..i]] + Split(s[i + 1..], sep)
  }

  /** strings.Join with a one-character separator. */
  function Join(parts: seq<string>, sep: char): string {
    if parts == [] then ""
    else if |parts| == 1 then parts[0]
    else parts[0] + [sep] + Join(parts[1..], sep)
  }

  /** Splitting loses nothing: joining the pieces gives the string back. */
  lemma {:induction false} SplitJoin(s: string, sep: char)
    ensures Join(Split(s, sep), sep) == s
    decreases |s|
  {
    if sep in s {
      var i := IndexOf(s, sep);
      var rest := Split(s[i + 1..], sep);
      SplitJoin(s[i + 1..], sep);
      var parts := Split(s, sep);
      assert parts == [s[..i]] + rest;
      assert parts[0] == s[..i] && parts[1..] == rest && |parts| >= 2;
      assert Join(parts, sep) == s[..i] + [sep] + Join(rest, sep);
      assert s == s[..i] + [sep] + s[i + 1..];
    }
  }

  function Count(s: string, c: char): nat {
    if s == [] then 0 else (if s[0] == c then 1 else 0) + Count(s[1..], c)
  }

  lemma {:induction false} CountSplit(s: string, c: char, i: nat)
    requires i <= |s|
    ensures Count(s, c) == Count(s[..i], c) + Count(s[i..], c)
  {
    if i > 0 {
      assert s[1..][..i - 1] == s[..i][1..];
      assert s[1..][i - 1..] == s[i..];
      CountSplit(s[1..], c, i - 1);
    }
  }

  /** There is one more piece than there are separators. */
  lemma {:induction false} SplitLength(s: string, sep: char)
    ensures |Split(s, sep)| == Count(s, sep) + 1
    decreases |s|
  {
    if sep !in s {
      CountAbsent(s, sep);
    } else {
      var i := IndexOf(s, sep);
      SplitLength(s[i + 1..], sep);
      CountSplit(s, sep, i);
      CountAbsent(s[..i], sep);
      assert s[i..][1..] == s[i + 1..];
    }
  }

  lemma {:induction false} CountAbsent(s: string, c: char)
    requires c !in s
    ensures Count(s, c) == 0
  {
    if s != [] {
      CountAbsent(s[1..], c);
    }
  }

  /** The number of '-' characters `s` starts with. */
  function LeadingDashes(s: string): (n: nat)
    ensures n <= |s|
    ensures forall i :: 0 <= i < n ==> s[i] == '-'
    ensures n == |s| || s[n] != '-'
  {
    if s != [] && s[0] == '-' then 1 + LeadingDashes(s[1..]) else 0
  }

  /**
   * Go's `<=` on strings: lexicographic order of the characters, where a
   * proper prefix comes first.
   */
  predicate Le(a: string, b: string) {
    a == [] || (b != [] && (a[0] < b[0] || (a[0] == b[0] && Le(a[1..], b[1..]))))
  }

  lemma {:induction false} LeRefl(a: string)
    ensures Le(a, a)
  {
    if a != [] {
      LeRefl(a[1..]);
    }
  }

  lemma {:induction false} LeTotal(a: string, b: string)
    ensures Le(a, b) || Le(b, a)
  {
    if a != [] && b != [] && a[0] == b[0] {
      LeTotal(a[1..], b[1..]);
    }
  }

  lemma {:induction false} LeTrans(a: string, b: string, c: string)
    requires Le(a, b) && Le(b, c)
    ensures Le(a, c)
  {
    if a != [] && b != [] && c != [] && a[0] == b[0] == c[0] {
      LeTrans(a[1..], b[1..], c[1..]);
    }
  }

  lemma {:induction false} LeAntisym(a: string, b: string)
    requires Le(a, b) && Le(b, a)
    ensures a == b
  {
    if a != [] && b != [] {
      LeAntisym(a[1..], b[1..]);
      assert a == [a[0]] + a[1..];
      assert b == [b[0]] + b[1..];
    }
  }
}
