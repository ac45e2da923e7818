/**
 * The two functions of Python's os.path (POSIX flavour) that the benchmark
 * loader uses to build file names: `join` with two components and
 * `splitext`.
 */
module PosixPath {

  /** `s.rfind(c)` for a single character: the last index of c in s, or -1. */
  function RFind(s: string, c: char): (r: int)
    ensures -1 <= r < |s|
    ensures r >= 0 ==> s[r] == c
  {
    if s == [] then -1
    else if s[|s| - 1] == c then |s| - 1
    else RFind(s[..|s| - 1], c)
  }

  /** No occurrence of c follows the one RFind reports. */
  lemma {:induction false} RFindIsLast(s: string, c: char)
    ensures forall j :: RFind(s, c) < j < |s| ==> s[j] != c
  {
    if s != [] && s[|s| - 1] != c {
      RFindIsLast(s[..|s| - 1], c);
    }
  }

  /**
   * `os.path.join(a, b)`: an absolute b replaces a; otherwise b is appended,
   * with a '/' in between unless a is empty or already ends in '/'.
   */
  function Join(a: string, b: string): string
  {
    if |b| > 0 && b[0] == '/' then b
    else if a == [] || a[|a| - 1] == '/' then a + b
    else a + "/" + b
  }

  /**
   * A joined path always ends with its second component; unless that
   * component is absolute, it starts with the first, and the two are
   * separated by exactly one '/' when the first does not end in one.
   */
  lemma JoinShape(a: string, b: string)
    ensures var p := Join(a, b); |p| >= |b| && p[|p| - |b|..] == b
    ensures |b| > 0 && b[0] == '/' ==> Join(a, b) == b
    ensures (|b| == 0 || b[0] != '/') ==> |Join(a, b)| >= |a| && Join(a, b)[..|a|] == a
    ensures (|b| == 0 || b[0] != '/') && |a| > 0 && a[|a| - 1] != '/' ==> Join(a, b) == a + "/" + b
  {
    var p := Join(a, b);
    if |b| > 0 && b[0] == '/' {
    } else if a == [] || a[|a| - 1] == '/' {
      assert p[|p| - |b|..] == b && p[..|a|] == a;
    } else {
      assert p[|p| - |b|..] == b && p[..|a|] == a;
    }
  }

  /** Some character of s is not a dot, looking from the end. */
  predicate HasNonDot(s: string)
  {
    s != [] && (s[|s| - 1] != '.' || HasNonDot(s[..|s| - 1]))
  }

  /** HasNonDot holds exactly when s has a character other than '.'. */
  lemma {:induction false} HasNonDotMeans(s: string)
    ensures HasNonDot(s) <==> exists j :: 0 <= j < |s| && s[j] != '.'
  {
    if s != [] {
      var t := s[..|s| - 1];
      HasNonDotMeans(t);
      if HasNonDot(t) {
        var j :| 0 <= j < |t| && t[j] != '.';
        assert s[j] == t[j];
      }
      if exists j :: 0 <= j < |s| && s[j] != '.' {
        var j :| 0 <= j < |s| && s[j] != '.';
        if j < |t| {
          assert t[j] == s[j];
        }
      }
    }
  }

  /** One character other than '.' is enough. */
  lemma NonDotAt(s: string, j: nat)
    requires j < |s| && s[j] != '.'
    ensures HasNonDot(s)
  {
    HasNonDotMeans(s);
  }

  /**
   * `os.path.splitext(p)`: the extension is the part from the last '.' on,
   * provided that dot lies in the last path component and that component
   * has something other than dots before it (so ".bashrc" has no
   * extension); otherwise the extension is empty.
   */
  function SplitExt(p: string): (string, string)
  {
    var sepIndex := RFind(p, '/');
    var dotIndex := RFind(p, '.');
    if dotIndex > sepIndex && HasNonDot(p[sepIndex + 1..dotIndex]) then
      (p[..dotIndex], p[dotIndex..])
    else (p, "")
  }

  /** splitext cuts its argument in two, and the second part is an extension. */
  lemma SplitExtParts(p: string)
    ensures SplitExt(p).0 + SplitExt(p).1 == p
    ensures IsExtension(SplitExt(p).1)
  {
    if RFind(p, '.') > RFind(p, '/') {
      LastDotStartsExtension(p);
    } else {
      assert p + "" == p;
    }
  }

  /** An extension: empty, or a dot followed by neither dots nor slashes. */
  predicate IsExtension(e: string)
  {
    e == [] || (e[0] == '.' && forall j :: 1 <= j < |e| ==> e[j] != '.' && e[j] != '/')
  }

  lemma LastDotStartsExtension(p: string)
    requires RFind(p, '.') > RFind(p, '/')
    ensures IsExtension(p[RFind(p, '.')..])
    ensures p[..RFind(p, '.')] + p[RFind(p, '.')..] == p
  {
    var d := RFind(p, '.');
    assert p[..d] + p[d..] == p;
    RFindIsLast(p, '.');
    RFindIsLast(p, '/');
    var e := p[d..];
    forall j | 1 <= j < |e|
      ensures e[j] != '.' && e[j] != '/'
    {
      assert e[j] == p[d + j];
    }
  }

  /** Appending characters other than c leaves the last index of c where it was. */
  lemma {:induction false} RFindAppend(s: string, t: string, c: char)
    requires forall j :: 0 <= j < |t| ==> t[j] != c
    ensures RFind(s + t, c) == RFind(s, c)
    decreases |t|
  {
    if t == [] {
      assert s + t == s;
    } else {
      var u := s + t;
      assert u[|u| - 1] == t[|t| - 1] != c;
      assert u[..|u| - 1] == s + t[..|t| - 1];
      RFindAppend(s, t[..|t| - 1], c);
    }
  }

  /** An extension holds no '/', so appending it leaves the last '/' where it was. */
  lemma ExtKeepsLastSlash(root: string, ext: string)
    requires IsExtension(ext)
    ensures RFind(root + ext, '/') == RFind(root, '/')
  {
    forall j | 0 <= j < |ext|
      ensures ext[j] != '/'
    {
    }
    RFindAppend(root, ext, '/');
  }

  /** A non-empty extension's leading dot is the last dot of root + ext. */
  lemma ExtStartsAtLastDot(root: string, ext: string)
    requires |ext| >= 1 && IsExtension(ext)
    ensures RFind(root + ext, '.') == |root|
  {
    forall j | 0 <= j < |ext[1..]|
      ensures ext[1..][j] != '.'
    {
      assert ext[1..][j] == ext[j + 1];
    }
    var dotted := root + ".";
    assert RFind(dotted, '.') == |root| by {
      assert dotted[|dotted| - 1] == '.';
    }
    assert root + ext == dotted + ext[1..];
    RFindAppend(dotted, ext[1..], '.');
  }

  /**
   * splitext recovers a root and an extension joined together, when the
   * extension is a dot followed by neither dots nor slashes and the root's
   * last component is not made of dots only.
   */
  lemma SplitExtAppend(root: string, ext: string)
    requires |ext| >= 1 && IsExtension(ext)
    requires HasNonDot(root[RFind(root, '/') + 1..])
    ensures SplitExt(root + ext) == (root, ext)
  {
    var p := root + ext;
    ExtKeepsLastSlash(root, ext);
    ExtStartsAtLastDot(root, ext);
    assert p[RFind(root, '/') + 1..|root|] == root[RFind(root, '/') + 1..];
    assert p[..|root|] == root && p[|root|..] == ext;
  }
}
