/**
 * The JavaScript string builtins and Node `path` helpers the build scripts rely on,
 * with the edge cases of the originals: `trim`, `indexOf`, `substr`, `substring`,
 * `split` on one character, `join`, `replace(/c/g, '')`, `toLowerCase` on ASCII,
 * `path.basename`, `path.extname` and `path.join` as `/` concatenation.
 */
module Text {

  /** The characters `String.prototype.trim` removes: white space and line terminators. */
  predicate IsSpace(c: char)
  {
    c == ' ' || c == '\t' || c == '\n' || c == '\r' || c == '\U{B}' || c == '\U{C}' ||
    c == '\U{A0}' || c == '\U{1680}' || ('\U{2000}' <= c <= '\U{200A}') ||
    c == '\U{2028}' || c == '\U{2029}' || c == '\U{202F}' || c == '\U{205F}' ||
    c == '\U{3000}' || c == '\U{FEFF}'
  }

  function TrimStart(s: string): (r: string)
    ensures |r| <= |s| && r == s[|s| - |r|..]
    ensures r != [] ==> !IsSpace(r[0])
    ensures AllSpace(s[..|s| - |r|])
  {
    if s != [] && IsSpace(s[0]) then
      var r := TrimStart(s[1..]);
      assert s[..|s| - |r|] == [s[0]] + s[1..][..|s| - 1 - |r|];
      r
    else s
  }

  function TrimEnd(s: string): (r: string)
    ensures |r| <= |s| && r == s[..|r|]
    ensures r != [] ==> !IsSpace(r[|r| - 1])
    ensures AllSpace(s[|r|..])
  {
    if s != [] && IsSpace(s[|s| - 1]) then
      var r := TrimEnd(s[..|s| - 1]);
      assert s[|r|..] == s[..|s| - 1][|r|..] + [s[|s| - 1]];
      r
    else s
  }

  /** `s.trim()`: `s` without its leading and trailing white space. */
  function Trim(s: string): (r: string)
    ensures |r| <= |s|
    ensures r != [] ==> !IsSpace(r[0]) && !IsSpace(r[|r| - 1])
  {
    TrimEnd(TrimStart(s))
  }

  /** The trim is what is left of `s` once white space is cut from both ends. */
  lemma TrimCut(s: string)
    ensures var r := Trim(s);
      exists i :: 0 <= i <= |s| - |r| && s[i..i + |r|] == r && AllSpace(s[..i]) && AllSpace(s[i + |r|..])
  {
    CutBetween(s, TrimStart(s), Trim(s));
  }

  /** A suffix `t` after white space, cut by a prefix `r` before white space, leaves `r` between two runs of it. */
  lemma CutBetween(s: string, t: string, r: string)
    requires |t| <= |s| && t == s[|s| - |t|..] && AllSpace(s[..|s| - |t|])
    requires |r| <= |t| && r == t[..|r|] && AllSpace(t[|r|..])
    ensures exists i :: 0 <= i <= |s| - |r| && s[i..i + |r|] == r && AllSpace(s[..i]) && AllSpace(s[i + |r|..])
  {
    var i := |s| - |t|;
    assert s[i..i + |r|] == r;
    assert s[i + |r|..] == t[|r|..];
  }

  /** Every character of `t` is white space. */
  predicate AllSpace(t: string)
  {
    forall k :: 0 <= k < |t| ==> IsSpace(t[k])
  }

  /** Leading white space in front of a string that starts otherwise is all `trimStart` drops. */
  lemma {:induction false} TrimStartSkips(a: string, x: string)
    requires AllSpace(a) && (x != [] ==> !IsSpace(x[0]))
    ensures TrimStart(a + x) == x
  {
    if a != [] {
      assert (a + x)[1..] == a[1..] + x;
      TrimStartSkips(a[1..], x);
    } else {
      assert a + x == x;
    }
  }

  /** Trailing white space after a string that ends otherwise is all `trimEnd` drops. */
  lemma {:induction false} TrimEndSkips(x: string, b: string)
    requires AllSpace(b) && (x != [] ==> !IsSpace(x[|x| - 1]))
    ensures TrimEnd(x + b) == x
  {
    if b != [] {
      assert (x + b)[..|x + b| - 1] == x + b[..|b| - 1];
      TrimEndSkips(x, b[..|b| - 1]);
    } else {
      assert x + b == x;
    }
  }

  /**
   * The trim is the only cut of `s` into white space, a core and white space whose core
   * neither starts nor ends with white space.
   */
  lemma TrimUnique(s: string, a: string, m: string, b: string)
    requires s == a + m + b && AllSpace(a) && AllSpace(b)
    requires m != [] ==> !IsSpace(m[0]) && !IsSpace(m[|m| - 1])
    ensures Trim(s) == m
  {
    if m == [] {
      assert AllSpace(a + b);
      assert s == a + b + [];
      TrimStartSkips(a + b, []);
    } else {
      assert s == a + (m + b);
      TrimStartSkips(a, m + b);
      TrimEndSkips(m, b);
    }
  }

  /** A string that neither starts nor ends with white space is its own trim. */
  lemma TrimNoSpace(s: string)
    requires s != [] ==> !IsSpace(s[0]) && !IsSpace(s[|s| - 1])
    ensures Trim(s) == s
  {
  }

  /** `pat` occurs in `s` starting at index `i`. */
  predicate OccursAt(s: string, pat: string, i: int)
  {
    0 <= i && i + |pat| <= |s| && s[i..i + |pat|] == pat
  }

  function IndexFrom(s: string, pat: string, k: nat): (r: int)
    requires k <= |s|
    ensures r == -1 || (k <= r <= |s| && OccursAt(s, pat, r))
    ensures forall j :: k <= j && (r == -1 || j < r) ==> !OccursAt(s, pat, j)
    decreases |s| - k
  {
    if OccursAt(s, pat, k) then k
    else if k == |s| then -1
    else IndexFrom(s, pat, k + 1)
  }

  /** `s.indexOf(pat)`: the first index where `pat` occurs in `s`, or -1 when it does not occur. */
  function IndexOf(s: string, pat: string): (r: int)
    ensures -1 <= r <= |s|
    ensures r >= 0 ==> OccursAt(s, pat, r)
    ensures forall j :: 0 <= j && (r == -1 || j < r) ==> !OccursAt(s, pat, j)
  {
    IndexFrom(s, pat, 0)
  }

  predicate Contains(s: string, pat: string)
  {
    IndexOf(s, pat) >= 0
  }

  /** A pattern holding a character that never appears in `s` does not occur in it. */
  lemma NotContains(s: string, pat: string, k: nat)
    requires k < |pat| && pat[k] !in s
    ensures !Contains(s, pat)
  {
    forall j | 0 <= j && j + |pat| <= |s| ensures !OccursAt(s, pat, j) {
      assert s[j..j + |pat|][k] == s[j + k];
    }
  }

  /** `pat` occurs in `a + pat + b`, right after `a`. */
  lemma ContainsInside(a: string, pat: string, b: string)
    ensures Contains(a + pat + b, pat)
  {
    var s := a + pat + b;
    assert s[|a|..|a| + |pat|] == pat;
    assert OccursAt(s, pat, |a|);
  }

  /** `s.indexOf(c) === 0` holds exactly when `s` starts with `c`. */
  lemma IndexOfZero(s: string, c: char)
    ensures IndexOf(s, [c]) == 0 <==> (s != [] && s[0] == c)
  {
    if s != [] && s[0] == c {
      assert OccursAt(s, [c], 0) by { assert s[0..1] == [c]; }
    }
  }

  /** `s.substr(start)`: a negative start counts back from the end and stops at 0. */
  function Substr(s: string, start: int): (r: string)
    ensures |r| <= |s| && r == s[|s| - |r|..]
    ensures 0 <= start <= |s| ==> |r| == |s| - start
    ensures start < 0 ==> |r| == if |s| + start <= 0 then |s| else -start
  {
    var from := if start < 0 then (if |s| + start < 0 then 0 else |s| + start)
                else if start > |s| then |s| else start;
    s[from..]
  }

  /** `s.substring(a, b)`: both bounds clamped to the string, swapped when `a > b`. */
  function Substring(s: string, a: int, b: int): string
  {
    var lo := if a < 0 then 0 else if a > |s| then |s| else a;
    var hi := if b < 0 then 0 else if b > |s| then |s| else b;
    if lo <= hi then s[lo..hi] else s[hi..lo]
  }

  /** `items.join(sep)` */
  function Join(items: seq<string>, sep: string): string
  {
    if items == [] then ""
    else if |items| == 1 then items[0]
    else items[0] + sep + Join(items[1..], sep)
  }

  /** Concatenation regroups freely. */
  lemma ConcatAssoc<T>(x: seq<T>, y: seq<T>, z: seq<T>)
    ensures x + (y + z) == (x + y) + z
  {
  }

  /** `xs.map(f)` */
  function Map<T, U>(xs: seq<T>, f: T -> U): seq<U>
  {
    seq(|xs|, k requires 0 <= k < |xs| => f(xs[k]))
  }

  /** One more element adds its image at the end. */
  lemma MapSnoc<T, U>(xs: seq<T>, f: T -> U, i: nat)
    requires i < |xs|
    ensures Map(xs[..i + 1], f) == Map(xs[..i], f) + [f(xs[i])]
  {
    var a, b := Map(xs[..i + 1], f), Map(xs[..i], f) + [f(xs[i])];
    forall k | 0 <= k < i + 1 ensures a[k] == b[k] {
      assert xs[..i + 1][k] == xs[k];
    }
  }

  /** The pieces `f` gives for each element of `xs`, one after another. */
  function Flatten<T, U>(xs: seq<T>, f: T -> seq<U>): seq<U>
  {
    if xs == [] then [] else Flatten(xs[..|xs| - 1], f) + f(xs[|xs| - 1])
  }

  /** One more element adds its pieces at the end. */
  lemma FlattenSnoc<T, U>(xs: seq<T>, f: T -> seq<U>, i: nat)
    requires i < |xs|
    ensures Flatten(xs[..i + 1], f) == Flatten(xs[..i], f) + f(xs[i])
  {
    assert xs[..i + 1][..i] == xs[..i];
  }

  /** The pieces of a concatenation are the pieces of each part, concatenated. */
  lemma {:induction false} FlattenAppend<T, U>(a: seq<T>, b: seq<T>, f: T -> seq<U>)
    ensures Flatten(a + b, f) == Flatten(a, f) + Flatten(b, f)
  {
    if b == [] {
      assert a + b == a;
    } else {
      var init := b[..|b| - 1];
      FlattenAppend(a, init, f);
      assert (a + b)[..|a + b| - 1] == a + init;
      assert (a + b)[|a + b| - 1] == b[|b| - 1];
      ConcatAssoc(Flatten(a, f), Flatten(init, f), f(b[|b| - 1]));
    }
  }

  /** An element that contributes nothing can be dropped from a flattened sequence. */
  lemma FlattenSkip<T, U>(a: seq<T>, x: T, b: seq<T>, f: T -> seq<U>)
    requires f(x) == []
    ensures Flatten(a + [x] + b, f) == Flatten(a + b, f)
  {
    assert [x][..0] == [];
    assert Flatten([x], f) == Flatten([x][..0], f) + f(x);
    FlattenAppend(a + [x], b, f);
    FlattenAppend(a, [x], f);
    FlattenAppend(a, b, f);
  }

  /** An element placed between two sequences is in the result. */
  lemma InMiddle<T>(a: seq<T>, x: T, b: seq<T>)
    ensures x in a + [x] + b
  {
    assert (a + [x] + b)[|a|] == x;
  }

  /** Taking one more element of a sequence appends that element. */
  lemma TakeSnoc<T>(s: seq<T>, k: nat)
    requires k < |s|
    ensures s[..k] + [s[k]] == s[..k + 1]
  {
  }

  /** The first `|s| - 2` elements and then the last two are the whole sequence. */
  lemma TakeLastTwo<T>(s: seq<T>)
    requires |s| >= 2
    ensures s[..|s| - 2] + [s[|s| - 2], s[|s| - 1]] == s
  {
  }

  /** The pieces written one after another. */
  function Concat(items: seq<string>): string
  {
    if items == [] then "" else items[0] + Concat(items[1..])
  }

  /** `s.split(c)` for a one-character separator: never empty, no piece holds `c`. */
  function Split(s: string, c: char): (r: seq<string>)
    ensures |r| >= 1
    ensures forall i :: 0 <= i < |r| ==> c !in r[i]
  {
    if s == [] then [""]
    else
      var rest := Split(s[1..], c);
      if s[0] == c then [""] + rest
      else [[s[0]] + rest[0]] + rest[1..]
  }

  /** Joining the pieces of a split with the separator gives back the string. */
  lemma {:induction false} JoinSplit(s: string, c: char)
    ensures Join(Split(s, c), [c]) == s
  {
    if s != [] {
      var rest := Split(s[1..], c);
      JoinSplit(s[1..], c);
      if s[0] == c {
        assert Split(s, c) == [""] + rest;
        assert ([""] + rest)[1..] == rest;
      } else {
        var r := [[s[0]] + rest[0]] + rest[1..];
        assert Split(s, c) == r;
        if |rest| > 1 {
          assert r[1..] == rest[1..];
          assert Join(rest, [c]) == rest[0] + [c] + Join(rest[1..], [c]);
        }
      }
    }
  }

  /** `s.replace(/c/g, '')`: `s` with every `c` removed. */
  function RemoveChar(s: string, c: char): (r: string)
    ensures c !in r
    ensures |r| <= |s|
    ensures forall x :: x in r ==> x in s
    ensures forall x :: x != c ==> multiset(r)[x] == multiset(s)[x]
    ensures c !in s ==> r == s
  {
    if s == [] then []
    else
      assert s == [s[0]] + s[1..];
      if s[0] == c then RemoveChar(s[1..], c)
      else [s[0]] + RemoveChar(s[1..], c)
  }

  /** Removal works piece by piece, so the characters that stay keep their order. */
  lemma {:induction false} RemoveCharAppend(a: string, b: string, c: char)
    ensures RemoveChar(a + b, c) == RemoveChar(a, c) + RemoveChar(b, c)
  {
    if a != [] {
      assert (a + b)[1..] == a[1..] + b;
      RemoveCharAppend(a[1..], b, c);
    } else {
      assert a + b == b;
    }
  }

  /** `s.toLowerCase()` restricted to the ASCII letters. */
  function LowerAscii(s: string): (r: string)
    ensures |r| == |s|
    ensures forall i :: 0 <= i < |s| ==> ('A' <= s[i] <= 'Z' ==> r[i] == s[i] - 'A' + 'a') && (!('A' <= s[i] <= 'Z') ==> r[i] == s[i])
  {
    if s == [] then []
    else [if 'A' <= s[0] <= 'Z' then s[0] - 'A' + 'a' else s[0]] + LowerAscii(s[1..])
  }

  predicate EndsWith(s: string, suffix: string)
  {
    |suffix| <= |s| && s[|s| - |suffix|..] == suffix
  }

  /** Index of the last `c` in `s`, or -1. */
  function LastIndexOf(s: string, c: char): (r: int)
    ensures -1 <= r < |s|
    ensures r >= 0 ==> s[r] == c
    ensures forall j :: r < j < |s| ==> s[j] != c
  {
    if s == [] then -1
    else if s[|s| - 1] == c then |s| - 1
    else LastIndexOf(s[..|s| - 1], c)
  }

  /** The last `/`-separated segment of a path. */
  function BaseName(p: string): (r: string)
    ensures '/' !in r
    ensures EndsWith(p, r)
  {
    var k := LastIndexOf(p, '/');
    p[k + 1..]
  }

  /** The base name is the whole last segment: the whole path, or what follows a `/`. */
  lemma BaseNameWhole(p: string)
    ensures var r := BaseName(p);
      |r| == |p| || p[|p| - |r| - 1] == '/'
  {
  }

  /**
   * `path.basename(p, ext)`: the last segment without `ext` when it ends with `ext`
   * and is longer than it; the empty string when the whole path is `ext`.
   */
  function Basename(p: string, ext: string): (r: string)
    ensures p == ext && ext != [] ==> r == []
    ensures p != ext && ext != [] && EndsWith(BaseName(p), ext) && |BaseName(p)| > |ext| ==> r + ext == BaseName(p)
    ensures p != ext && !EndsWith(BaseName(p), ext) ==> r == BaseName(p)
    ensures ext == [] ==> r == BaseName(p)
    ensures p != ext && |BaseName(p)| == |ext| ==> r == BaseName(p)
  {
    var b := BaseName(p);
    if ext != [] && p == ext then []
    else if ext != [] && EndsWith(b, ext) && |b| > |ext| then b[..|b| - |ext|]
    else b
  }

  /**
   * `path.extname(p)`: the last segment from its last dot on; empty when the segment
   * has no dot, starts with its only leading dot run, or is `..`.
   */
  function Extname(p: string): (r: string)
    ensures r == [] || (r[0] == '.' && '/' !in r && EndsWith(p, r))
    ensures var b := BaseName(p);
      r != [] ==> |r| < |b| && EndsWith(b, r) && '.' !in r[1..]
    ensures var b := BaseName(p);
      r == [] <==> b == ".." || forall j :: 0 < j < |b| ==> b[j] != '.'
  {
    var b := BaseName(p);
    var d := LastIndexOf(b, '.');
    if d <= 0 || b == ".." then [] else b[d..]
  }

  /** `path.join(a, b)` as `/` concatenation; an empty segment adds nothing. */
  function PathJoin(a: string, b: string): (r: string)
    ensures b == [] ==> r == a
    ensures b != [] && a != [] ==> r == a + "/" + b
  {
    if b == [] then a else if a == [] then b else a + "/" + b
  }

  /** `path.resolve(p, '..')`: everything before the last `/`, or `/` for a top-level path. */
  function Parent(p: string): (r: string)
    ensures r == "/" || (|r| < |p| && p[..|r|] == r && p[|r|] == '/' && '/' !in p[|r| + 1..])
    ensures (forall j :: 0 < j < |p| ==> p[j] != '/') ==> r == "/"
    ensures (exists j :: 0 < j < |p| && p[j] == '/') ==>
      0 < |r| < |p| && p[..|r|] == r && p[|r|] == '/' && '/' !in p[|r| + 1..]
  {
    var k := LastIndexOf(p, '/');
    if k <= 0 then "/" else p[..k]
  }
}
