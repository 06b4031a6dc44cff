/** The string and POSIX path operations the orchestrator relies on, as
    Python's `str` methods and `posixpath` define them: `lower` (ASCII
    letters only), `endswith`, `rfind`, `basename`, `splitext` and a
    two-argument `join`. */
module Paths {

  /** `c.lower()` for an ASCII letter; every other character is kept. */
  function LowerChar(c: char): (r: char)
    ensures 'A' <= c <= 'Z' ==> r as int == c as int + 32
    ensures !('A' <= c <= 'Z') ==> r == c
  {
    if 'A' <= c <= 'Z' then (c as int + 32) as char else c
  }

  /** `s.lower()`, restricted to ASCII case folding. */
  function Lower(s: string): (r: string)
    ensures |r| == |s|
    ensures forall i :: 0 <= i < |s| ==> r[i] == LowerChar(s[i])
  {
    seq(|s|, i requires 0 <= i < |s| => LowerChar(s[i]))
  }

  /** `s.endswith(suffix)`. */
  predicate EndsWith(s: string, suffix: string)
  {
    |suffix| <= |s| && s[|s| - |suffix|..] == suffix
  }

  /** `s.rfind(c)`: the index of the last occurrence of `c`, or -1. */
  function RFind(s: string, c: char): (r: int)
    ensures -1 <= r < |s|
    ensures r >= 0 ==> s[r] == c
    ensures forall k :: r < k < |s| ==> s[k] != c
  {
    if |s| == 0 then -1
    else if s[|s| - 1] == c then |s| - 1
    else RFind(s[..|s| - 1], c)
  }

  /** `posixpath.basename(p)`: everything after the last '/'. */
  function Basename(p: string): (r: string)
    ensures '/' !in r
    ensures EndsWith(p, r)
    ensures |r| == |p| || p[|p| - |r| - 1] == '/'
  {
    var i := RFind(p, '/') + 1;
    assert forall k :: 0 <= k < |p[i..]| ==> p[i..][k] == p[i + k];
    p[i..]
  }

  /** The last component of `p` has a character other than '.' that is
      followed, later in that component, by a '.'. */
  predicate HasSuffixDot(p: string)
  {
    exists i, j :: 0 <= i < j < |p| && p[i] != '.' && p[j] == '.' && forall k :: i <= k < |p| ==> p[k] != '/'
  }

  /** `posixpath.splitext(p)`: the extension starts at the last '.' of the
      final component, unless every character of that component before the
      dot is itself a dot (so ".dng" and "..dng" have no extension). */
  function SplitExt(p: string): (r: (string, string))
    ensures r.0 + r.1 == p
    ensures r.1 == [] || (r.1[0] == '.' && forall k :: 1 <= k < |r.1| ==> r.1[k] != '.' && r.1[k] != '/')
    ensures r.1 != [] <==> HasSuffixDot(p)
  {
    var sepIndex := RFind(p, '/');
    var dotIndex := RFind(p, '.');
    if dotIndex > sepIndex && exists k :: sepIndex + 1 <= k < dotIndex && p[k] != '.' then
      assert forall k :: 1 <= k < |p[dotIndex..]| ==> p[dotIndex..][k] == p[dotIndex + k];
      SuffixDotRule(p);
      (p[..dotIndex], p[dotIndex..])
    else
      SuffixDotRule(p);
      (p, [])
  }

  /** `splitext`'s rule and `HasSuffixDot` agree: the last '.' comes after
      the last '/' and some character between them is not a '.' exactly when
      the final component has a non-'.' character followed by a '.'. */
  lemma SuffixDotRule(p: string)
    ensures HasSuffixDot(p) <==>
              RFind(p, '.') > RFind(p, '/') && exists k :: RFind(p, '/') + 1 <= k < RFind(p, '.') && p[k] != '.'
  {
    var sepIndex, dotIndex := RFind(p, '/'), RFind(p, '.');
    if HasSuffixDot(p) {
      var i, j :| 0 <= i < j < |p| && p[i] != '.' && p[j] == '.' && forall k :: i <= k < |p| ==> p[k] != '/';
      assert sepIndex + 1 <= i < dotIndex && p[i] != '.';
    }
    if dotIndex > sepIndex && exists k :: sepIndex + 1 <= k < dotIndex && p[k] != '.' {
      var i :| sepIndex + 1 <= i < dotIndex && p[i] != '.';
      assert forall k :: i <= k < |p| ==> p[k] != '/';
      assert p[dotIndex] == '.';
    }
  }

  /** `os.path.splitext(p)[0]`: the path, or the path cut just before the
      last '.' of its final component. */
  function Stem(p: string): (r: string)
    ensures |r| <= |p| && r == p[..|r|]
    ensures |r| < |p| <==> HasSuffixDot(p)
    ensures |r| < |p| ==> p[|r|] == '.' && forall k :: |r| < k < |p| ==> p[k] != '.' && p[k] != '/'
  {
    var e := SplitExt(p).1;
    assert forall k :: 0 <= k < |e| ==> p[|p| - |e| + k] == e[k];
    SplitExt(p).0
  }

  /** `posixpath.join(a, b)` for two components: an absolute `b` replaces
      `a`; otherwise `b` follows `a`, with one '/' between them when `a` is
      non-empty and does not already end with one. */
  function Join(a: string, b: string): (r: string)
    ensures |b| > 0 && b[0] == '/' ==> r == b
    ensures EndsWith(r, b)
    ensures !(|b| > 0 && b[0] == '/') ==>
              |a| + |b| <= |r| <= |a| + |b| + 1 && r[..|a|] == a &&
              (a != [] ==> r[|r| - |b| - 1] == '/')
    ensures !(|b| > 0 && b[0] == '/') ==> (|r| == |a| + |b| <==> a == [] || a[|a| - 1] == '/')
  {
    if |b| > 0 && b[0] == '/' then b
    else if a == [] || a[|a| - 1] == '/' then a + b
    else a + "/" + b
  }

  /** A component without '/' joined to a directory is the last component of
      the result: `basename(join(d, n)) == n`. */
  lemma {:induction false} BasenameOfJoin(dir: string, name: string)
    requires '/' !in name
    ensures Basename(Join(dir, name)) == name
  {
    var p := Join(dir, name);
    var start := |p| - |name|;
    assert p[start..] == name;
    if start > 0 {
      assert p[start - 1] == '/';
    }
    var i := RFind(p, '/');
    forall k | start <= k < |p|
      ensures p[k] != '/'
    {
      assert p[k] == name[k - start];
    }
    assert i == start - 1;
  }

  /** A file extension: one '.' followed by neither '.' nor '/'. */
  predicate IsExtension(ext: string)
  {
    |ext| > 0 && ext[0] == '.' && forall k :: 1 <= k < |ext| ==> ext[k] != '.' && ext[k] != '/'
  }

  /** The final component of `name` has a character other than '.'. */
  predicate HasNamedStem(name: string)
  {
    exists i :: 0 <= i < |name| && name[i] != '.' && forall k :: i <= k < |name| ==> name[k] != '/'
  }

  /** Appending an extension to a name with a named final component and
      splitting it off again gives the name back. */
  lemma {:induction false} StemOfExtended(name: string, ext: string)
    requires HasNamedStem(name) && IsExtension(ext)
    ensures Stem(name + ext) == name
  {
    var p := name + ext;
    var i :| 0 <= i < |name| && name[i] != '.' && forall k :: i <= k < |name| ==> name[k] != '/';
    forall k | i <= k < |p|
      ensures p[k] != '/'
    {
      if k >= |name| {
        assert p[k] == ext[k - |name|];
      }
    }
    assert p[i] != '.' && p[|name|] == '.';
    assert HasSuffixDot(p);
    var r := Stem(p);
    assert forall k :: |name| < k < |p| ==> p[k] == ext[k - |name|] && p[k] != '.';
    assert |r| == |name|;
    assert p[..|name|] == name;
  }

  /** The last occurrence is the one with no later occurrence. */
  lemma RFindIs(s: string, c: char, i: int)
    requires 0 <= i < |s| && s[i] == c
    requires forall k :: i < k < |s| ==> s[k] != c
    ensures RFind(s, c) == i
  {
  }

  /** The extension is cut at the last dot of the name, letter case kept. */
  lemma SplitExtAtLastDot()
    ensures SplitExt("IMG_0001.DNG") == ("IMG_0001", ".DNG")
    ensures SplitExt("archive.tar.nef") == ("archive.tar", ".nef")
  {
    assert RFind("IMG_0001.DNG", '/') == -1;
    RFindIs("IMG_0001.DNG", '.', 8);
    assert "IMG_0001.DNG"[0] != '.';
    assert "IMG_0001.DNG"[..8] == "IMG_0001" && "IMG_0001.DNG"[8..] == ".DNG";
    assert RFind("archive.tar.nef", '/') == -1;
    RFindIs("archive.tar.nef", '.', 11);
    assert "archive.tar.nef"[0] != '.';
    assert "archive.tar.nef"[..11] == "archive.tar" && "archive.tar.nef"[11..] == ".nef";
  }

  /** A leading dot does not start an extension, and neither does a dot in a
      directory name. */
  lemma SplitExtWithoutExtension()
    ensures SplitExt(".dng") == (".dng", "")
    ensures SplitExt("shots.d/frame") == ("shots.d/frame", "")
  {
    assert RFind(".dng", '/') == -1;
    RFindIs(".dng", '.', 0);
    RFindIs("shots.d/frame", '/', 7);
    RFindIs("shots.d/frame", '.', 5);
  }
}
