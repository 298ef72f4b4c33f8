/** The two pieces of Python string handling the wrapper relies on:
    `str.strip()` with no argument, and `pathlib.PurePath.suffix`. */
module Text {

  /** The characters for which Python's `str.isspace()` holds: the ASCII
      controls TAB..CR and FS..US, SPACE, NEL, NBSP and the Unicode space
      separators and line/paragraph separators. */
  const Whitespace: set<char> := {
    '\t', '\n', '\U{000B}', '\U{000C}', '\r', '\U{001C}', '\U{001D}', '\U{001E}',
    '\U{001F}', ' ', '\U{0085}', '\U{00A0}', '\U{1680}', '\U{2000}', '\U{2001}',
    '\U{2002}', '\U{2003}', '\U{2004}', '\U{2005}', '\U{2006}', '\U{2007}',
    '\U{2008}', '\U{2009}', '\U{200A}', '\U{2028}', '\U{2029}', '\U{202F}',
    '\U{205F}', '\U{3000}'
  }

  predicate IsSpace(c: char) {
    c in Whitespace
  }

  /** Every character of `s[lo..hi]` is whitespace. */
  predicate BlankBetween(s: string, lo: int, hi: int) {
    forall i :: lo <= i < hi && 0 <= i < |s| ==> IsSpace(s[i])
  }

  predicate IsBlank(s: string) {
    BlankBetween(s, 0, |s|)
  }

  /** Where the text of `s` starts when whitespace from `lo` on is skipped. */
  function TextStart(s: string, lo: nat): (b: nat)
    requires lo <= |s|
    ensures lo <= b <= |s| && BlankBetween(s, lo, b)
    ensures b < |s| ==> !IsSpace(s[b])
    decreases |s| - lo
  {
    if lo < |s| && IsSpace(s[lo]) then TextStart(s, lo + 1) else lo
  }

  /** Where the text of `s[lo..hi]` ends when trailing whitespace is skipped. */
  function TextEnd(s: string, lo: nat, hi: nat): (e: nat)
    requires lo <= hi <= |s|
    ensures lo <= e <= hi && BlankBetween(s, e, hi)
    ensures e > lo ==> !IsSpace(s[e - 1])
    decreases hi
  {
    if hi > lo && IsSpace(s[hi - 1]) then TextEnd(s, lo, hi - 1) else hi
  }

  /** `s.strip()`. */
  function Strip(s: string): string {
    var b := TextStart(s, 0);
    s[b..TextEnd(s, b, |s|)]
  }

  /** `s.strip()` is empty exactly when `s` is blank; otherwise it is the
      slice of `s` from its first to its last non-whitespace character, with
      only whitespace before and after it. */
  lemma StripSpec(s: string)
    ensures Strip(s) == [] <==> IsBlank(s)
    ensures var r := Strip(s); r != [] ==> !IsSpace(r[0]) && !IsSpace(r[|r| - 1])
    ensures exists k :: 0 <= k <= |s| - |Strip(s)| && Strip(s) == s[k..k + |Strip(s)|]
                        && BlankBetween(s, 0, k) && BlankBetween(s, k + |Strip(s)|, |s|)
  {
    var b := TextStart(s, 0);
    var e := TextEnd(s, b, |s|);
    var r := Strip(s);
    assert r == s[b..e];
    if b < e {
      assert r[0] == s[b];
      assert r[|r| - 1] == s[e - 1];
      assert !IsBlank(s);
    } else {
      assert b == |s|;
    }
  }

  /** The index of the last `c` in `s`, or -1 (Python's `str.rfind`). */
  function LastIndexOf(s: string, c: char): (r: int)
    ensures -1 <= r < |s|
    ensures r >= 0 ==> s[r] == c
    ensures forall j :: r < j < |s| ==> s[j] != c
  {
    if s == [] then -1
    else if s[|s| - 1] == c then |s| - 1
    else LastIndexOf(s[..|s| - 1], c)
  }

  /** The final component of a '/'-separated path. */
  function PathName(p: string): string {
    p[LastIndexOf(p, '/') + 1..]
  }

  /** `PurePath(p).suffix`: the final component's text from its last dot,
      unless that dot is the component's first or last character. */
  function PathSuffix(p: string): string {
    var name := PathName(p);
    var i := LastIndexOf(name, '.');
    if 0 < i < |name| - 1 then name[i..] else ""
  }

  /** The final component holds no separator, ends the path, and starts
      right after the path's last separator when there is one. */
  lemma PathNameSpec(p: string)
    ensures var name := PathName(p); |name| <= |p| && name == p[|p| - |name|..] && '/' !in name
    ensures var name := PathName(p); |name| < |p| ==> p[|p| - |name| - 1] == '/'
  {
    var slash := LastIndexOf(p, '/');
    var name := PathName(p);
    forall j | 0 <= j < |name| ensures name[j] != '/' {
      assert name[j] == p[slash + 1 + j];
    }
  }

  /** A suffix is a dot followed by at least one character, none of them a
      dot or a separator, and it ends the path after a non-empty stem. */
  lemma PathSuffixSpec(p: string)
    ensures var r := PathSuffix(p);
            r != [] ==> |r| >= 2 && r[0] == '.' && '.' !in r[1..] && '/' !in r
    ensures var r := PathSuffix(p);
            r != [] ==> |r| < |PathName(p)| && r == p[|p| - |r|..]
  {
    var name := PathName(p);
    assert |name| <= |p| && name == p[|p| - |name|..] && '/' !in name by {
      PathNameSpec(p);
    }
    var i := LastIndexOf(name, '.');
    if 0 < i < |name| - 1 {
      var r := name[i..];
      assert r == PathSuffix(p);
      forall j | 0 <= j < |r[1..]| ensures r[1..][j] != '.' {
        assert r[1..][j] == name[i + 1 + j];
      }
      forall j | 0 <= j < |r| ensures r[j] != '/' {
        assert r[j] == name[j + i];
      }
      assert r == p[|p| - |r|..];
    }
  }

  /** A path has no suffix exactly when its final component ends with a dot
      or has no dot after its first character. */
  lemma NoSuffixIff(p: string)
    ensures var name := PathName(p);
            PathSuffix(p) == [] <==>
              (name != [] && name[|name| - 1] == '.') || forall i :: 0 < i < |name| ==> name[i] != '.'
  {
    var name := PathName(p);
    var i := LastIndexOf(name, '.');
    if 0 < i < |name| - 1 {
      assert name[i] == '.' && name[|name| - 1] != '.';
    }
  }
}
