/**
 * The string operations s3lify relies on, with Python's semantics:
 * `sep.join`, `str.split(sep)`, `str.rstrip(c)`, `str.lower()` (ASCII letters)
 * and `os.path.splitext` on POSIX paths.
 */
module Text {
  import opened Base

  /**
   * `sep.join(parts)` for a one-character separator. The separator shows
   * up in the result exactly when it sits between two parts or inside one.
   */
  function Join(parts: seq<string>, sep: char): (r: string)
    ensures sep in r <==> |parts| > 1 || exists i :: 0 <= i < |parts| && sep in parts[i]
  {
    if |parts| == 0 then ""
    else if |parts| == 1 then parts[0]
    else parts[0] + [sep] + Join(parts[1..], sep)
  }

  /**
   * `s.split(sep)` for a one-character separator: the pieces between the
   * separators, so never an empty list (`"".split(",") == [""]`), and no
   * piece holds the separator.
   */
  function Split(s: string, sep: char): (parts: seq<string>)
    ensures |parts| >= 1
    ensures forall i :: 0 <= i < |parts| ==> sep !in parts[i]
    decreases |s|
  {
    if |s| == 0 then [""]
    else
      var rest := Split(s[1..], sep);
      if s[0] == sep then [""] + rest
      else [[s[0]] + rest[0]] + rest[1..]
  }

  lemma {:induction false} SplitPieceFirst(p: string, t: string, sep: char)
    requires sep !in p
    ensures Split(p + [sep] + t, sep) == [p] + Split(t, sep)
    decreases |p|
  {
    if |p| == 0 {
      assert p + [sep] + t == [sep] + t;
      assert ([sep] + t)[1..] == t;
    } else {
      assert (p + [sep] + t)[1..] == p[1..] + [sep] + t;
      SplitPieceFirst(p[1..], t, sep);
      assert [p[0]] + p[1..] == p;
    }
  }

  lemma {:induction false} SplitPieceOnly(p: string, sep: char)
    requires sep !in p
    ensures Split(p, sep) == [p]
    decreases |p|
  {
    if |p| > 0 {
      SplitPieceOnly(p[1..], sep);
      assert [p[0]] + p[1..] == p;
    }
  }

  /** Splitting a join of separator-free pieces gives the pieces back. */
  lemma {:induction false} SplitJoin(parts: seq<string>, sep: char)
    requires |parts| >= 1
    requires forall i :: 0 <= i < |parts| ==> sep !in parts[i]
    ensures Split(Join(parts, sep), sep) == parts
    decreases |parts|
  {
    if |parts| == 1 {
      SplitPieceOnly(parts[0], sep);
    } else {
      SplitJoin(parts[1..], sep);
      SplitPieceFirst(parts[0], Join(parts[1..], sep), sep);
      assert [parts[0]] + parts[1..] == parts;
    }
  }

  /** Joining the pieces of a split gives the string back. */
  lemma {:induction false} JoinSplit(s: string, sep: char)
    ensures Join(Split(s, sep), sep) == s
    decreases |s|
  {
    if |s| > 0 {
      var rest := Split(s[1..], sep);
      JoinSplit(s[1..], sep);
      if s[0] == sep {
        assert ([""] + rest)[1..] == rest;
        assert [s[0]] + s[1..] == s;
      } else {
        var parts := [[s[0]] + rest[0]] + rest[1..];
        if |rest| == 1 {
          assert s == [s[0]] + s[1..];
        } else {
          assert parts[1..] == rest[1..];
          assert Join(rest, sep) == rest[0] + [sep] + Join(rest[1..], sep);
          assert s == [s[0]] + s[1..];
        }
      }
    }
  }

  /** `s.rstrip(c)`: `s` without its trailing run of `c`. */
  function RStrip(s: string, c: char): (r: string)
    ensures r <= s
    ensures |r| == 0 || r[|r| - 1] != c
    ensures forall i :: |r| <= i < |s| ==> s[i] == c
    decreases |s|
  {
    if |s| > 0 && s[|s| - 1] == c then RStrip(s[..|s| - 1], c) else s
  }

  predicate EndsWith(s: string, c: char)
  {
    |s| > 0 && s[|s| - 1] == c
  }

  /**
   * Appending one `c` and stripping gives `t` back exactly when `t` does
   * not itself end in `c`.
   */
  lemma {:induction false} RStripAppended(t: string, c: char)
    ensures RStrip(t + [c], c) == t <==> !EndsWith(t, c)
  {
    assert (t + [c])[..|t|] == t;
    var r := RStrip(t + [c], c);
    assert r == RStrip(t, c);
    if !EndsWith(t, c) {
      assert RStrip(t, c) == t;
    } else {
      assert |RStrip(t, c)| < |t|;
    }
  }

  function LowerChar(ch: char): char
  {
    if 'A' <= ch <= 'Z' then (ch as int + 32) as char else ch
  }

  /**
   * `s.lower()` on ASCII letters: each capital becomes its small letter,
   * every other character stays, so no capital is left.
   */
  function Lower(s: string): (r: string)
    ensures |r| == |s|
    ensures forall i :: 0 <= i < |r| ==> !('A' <= r[i] <= 'Z')
    ensures forall i :: 0 <= i < |s| && !('A' <= s[i] <= 'Z') ==> r[i] == s[i]
    ensures forall i :: 0 <= i < |s| && 'A' <= s[i] <= 'Z' ==> 'a' <= r[i] <= 'z' && r[i] as int - 'a' as int == s[i] as int - 'A' as int
  {
    seq(|s|, i requires 0 <= i < |s| => LowerChar(s[i]))
  }

  /** The index of the last `c` in `s`, as `s.rfind(c)` finds it. */
  function LastIndexOf(s: string, c: char): (r: Option<nat>)
    ensures r.None? <==> c !in s
    ensures r.Some? ==> r.value < |s| && s[r.value] == c
    ensures r.Some? ==> forall j :: r.value < j < |s| ==> s[j] != c
    decreases |s|
  {
    if |s| == 0 then None
    else if s[|s| - 1] == c then Some(|s| - 1)
    else LastIndexOf(s[..|s| - 1], c)
  }

  /**
   * The last component of a POSIX path: what follows its last '/', or the
   * whole path when it has none.
   */
  function Basename(p: string): (name: string)
    ensures '/' !in name
    ensures |name| <= |p| && name == p[|p| - |name|..]
    ensures '/' !in p ==> name == p
    ensures '/' in p ==> |name| < |p| && p[|p| - |name| - 1] == '/'
  {
    match LastIndexOf(p, '/')
    case None => p
    case Some(i) => p[i + 1..]
  }

  /**
   * `os.path.splitext(p)[1]` on POSIX: from the last '.' of the last path
   * component, unless every character before that dot is a dot too
   * (so ".bashrc" and "..x" have none). A non-empty extension is a suffix
   * of the path holding one dot, in front, and no '/': it runs from the
   * last dot of the last component.
   */
  function Extension(p: string): (ext: string)
    ensures ext == "" || (ext[0] == '.' && '/' !in ext && '.' !in ext[1..])
    ensures |ext| <= |p| && ext == p[|p| - |ext|..]
  {
    var name := Basename(p);
    match LastIndexOf(name, '.')
    case None => ""
    case Some(d) =>
      if exists k :: 0 <= k < d && name[k] != '.' then
        SuffixFrom(p, name, d);
        name[d..]
      else ""
  }

  /**
   * A path has an extension exactly when its last component has a dot
   * with something other than a dot before it.
   */
  lemma ExtensionPresent(p: string)
    ensures Extension(p) != "" <==>
      exists d, k :: 0 <= k < d < |Basename(p)| && Basename(p)[d] == '.' && Basename(p)[k] != '.'
  {
    var name := Basename(p);
    match LastIndexOf(name, '.')
    case None =>
      assert forall d :: 0 <= d < |name| ==> name[d] != '.';
    case Some(d) =>
      if !exists k :: 0 <= k < d && name[k] != '.' {
        assert forall d' :: 0 <= d' < |name| && name[d'] == '.' ==> d' <= d;
      }
  }

  /** A suffix of a path's suffix is a suffix of the path, free of what the suffix lacks. */
  lemma SuffixFrom(p: string, name: string, d: nat)
    requires |name| <= |p| && name == p[|p| - |name|..]
    requires d < |name| && name[d] == '.' && '/' !in name
    requires forall j :: d < j < |name| ==> name[j] != '.'
    ensures name[d..][0] == '.' && '/' !in name[d..] && '.' !in name[d..][1..]
    ensures |name[d..]| <= |p| && name[d..] == p[|p| - |name[d..]|..]
  {
    assert forall j :: 0 <= j < |name[d..][1..]| ==> name[d..][1..][j] == name[d + 1 + j];
  }

  /**
   * `os.path.join(dir, name)` for two POSIX path parts: an absolute `name`
   * replaces `dir`; otherwise `name` follows `dir`, with one '/' put between
   * them unless `dir` is empty or already ends with one.
   */
  function PathJoin(dir: string, name: string): (path: string)
    ensures |name| > 0 && name[0] == '/' ==> path == name
    ensures !(|name| > 0 && name[0] == '/') ==>
      && |dir| + |name| <= |path|
      && path[..|dir|] == dir
      && path[|path| - |name|..] == name
      && |path| - |dir| - |name| == (if |dir| > 0 && dir[|dir| - 1] != '/' then 1 else 0)
      && (|dir| > 0 ==> path[|path| - |name| - 1] == '/')
  {
    if |name| > 0 && name[0] == '/' then name
    else if |dir| == 0 || dir[|dir| - 1] == '/' then dir + name
    else dir + "/" + name
  }

  /** Decimal digits of `n`. */
  function DecimalText(n: nat): string
    decreases n
  {
    var digit := "0123456789"[n % 10];
    if n < 10 then [digit] else DecimalText(n / 10) + [digit]
  }
}
