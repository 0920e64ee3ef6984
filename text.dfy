/**
 * The string operations the deployment scripts rely on, stated the way
 * JavaScript and Node's `path` module define them: `includes`, `split`
 * (with a one-character separator, and `split(sep)[0]` with a string
 * separator), `path.dirname`, and `trim`.
 */
module Text {

  /** `p` is a prefix of `s`. */
  predicate IsPrefix(p: string, s: string) {
    |p| <= |s| && s[..|p|] == p
  }

  /** `sub` occurs in `s` starting at index `i`. */
  predicate OccursAt(s: string, sub: string, i: int) {
    0 <= i <= |s| && IsPrefix(sub, s[i..])
  }

  /** JavaScript's `s.includes(sub)`: `sub` occurs somewhere in `s`. */
  predicate Contains(s: string, sub: string) {
    exists i | 0 <= i <= |s| :: OccursAt(s, sub, i)
  }

  /** An occurrence in a prefix of `s` is an occurrence in `s`. */
  lemma ContainsPrefix(p: string, s: string, sub: string)
    requires IsPrefix(p, s)
    ensures Contains(p, sub) ==> Contains(s, sub)
  {
    if Contains(p, sub) {
      var i :| 0 <= i <= |p| && OccursAt(p, sub, i);
      assert s[i..][..|sub|] == p[i..][..|sub|];
      assert OccursAt(s, sub, i);
    }
  }

  /** Appending text without the last character of `sub` creates no occurrence of `sub`. */
  lemma ContainsAppend(s: string, t: string, sub: string)
    requires sub != [] && sub[|sub| - 1] !in t
    ensures Contains(s + t, sub) ==> Contains(s, sub)
  {
    if Contains(s + t, sub) {
      var i :| 0 <= i <= |s + t| && OccursAt(s + t, sub, i);
      forall j | |s| <= j < |s + t|
        ensures (s + t)[j] != sub[|sub| - 1]
      {
        assert (s + t)[j] == t[j - |s|];
      }
      assert (s + t)[i + |sub| - 1] == sub[|sub| - 1];
      assert s[i..][..|sub|] == (s + t)[i..][..|sub|];
      assert OccursAt(s, sub, i);
    }
  }

  /** The index of the first `c` in `s`. */
  function IndexOfChar(s: string, c: char): (i: nat)
    requires c in s
    ensures i < |s| && s[i] == c && c !in s[..i]
  {
    if s[0] == c then 0
    else
      var j := IndexOfChar(s[1..], c);
      assert s[..j + 1] == [s[0]] + s[1..][..j];
      j + 1
  }

  /** The index of the last `c` in `s`. */
  function LastIndexOfChar(s: string, c: char): (i: nat)
    requires c in s
    ensures i < |s| && s[i] == c && c !in s[i + 1..]
  {
    if s[|s| - 1] == c then |s| - 1
    else
      var j := LastIndexOfChar(s[..|s| - 1], c);
      assert s[j + 1..] == s[..|s| - 1][j + 1..] + [s[|s| - 1]];
      j
  }

  /** The pieces joined back together with `sep` between consecutive pieces. */
  function Join(parts: seq<string>, sep: char): string
    requires |parts| >= 1
  {
    if |parts| == 1 then parts[0] else parts[0] + [sep] + Join(parts[1..], sep)
  }

  /**
   * JavaScript's `s.split(sep)` for a one-character separator: the maximal
   * pieces of `s` free of `sep`, in order. There is always at least one
   * piece, and the pieces joined with `sep` give back `s`.
   */
  function Split(s: string, sep: char): (parts: seq<string>)
    ensures |parts| >= 1
    ensures forall k | 0 <= k < |parts| :: sep !in parts[k]
    ensures Join(parts, sep) == s
    decreases |s|
  {
    if sep !in s then [s]
    else
      var i := IndexOfChar(s, sep);
      assert s == s[..i] + [sep] + s[i + 1..];
      [s[..i]] + Split(s[i + 1..], sep)
  }

  /** Splitting is the inverse of joining pieces that do not contain the separator. */
  lemma {:induction false} SplitJoin(parts: seq<string>, sep: char)
    requires |parts| >= 1
    requires forall k | 0 <= k < |parts| :: sep !in parts[k]
    ensures Split(Join(parts, sep), sep) == parts
    decreases |parts|
  {
    if |parts| > 1 {
      var s := Join(parts, sep);
      var rest := Join(parts[1..], sep);
      assert s == parts[0] + [sep] + rest;
      assert s[|parts[0]|] == sep;
      var i := IndexOfChar(s, sep);
      assert s[..|parts[0]|] == parts[0];
      assert i == |parts[0]|;
      assert s[..i] == parts[0];
      assert s[i + 1..] == rest;
      SplitJoin(parts[1..], sep);
    }
  }

  /** Joining one more piece appends the separator and that piece. */
  lemma {:induction false} JoinSnoc(parts: seq<string>, last: string, sep: char)
    requires |parts| >= 1
    ensures Join(parts + [last], sep) == Join(parts, sep) + [sep] + last
    decreases |parts|
  {
    if |parts| > 1 {
      assert (parts + [last])[1..] == parts[1..] + [last];
      JoinSnoc(parts[1..], last, sep);
    }
  }

  /** A trailing separator adds exactly one empty piece at the end. */
  lemma SplitTrailing(s: string, sep: char)
    ensures Split(s + [sep], sep) == Split(s, sep) + [[]]
  {
    var parts := Split(s, sep) + [[]];
    JoinSnoc(Split(s, sep), [], sep);
    assert Join(parts, sep) == s + [sep];
    SplitJoin(parts, sep);
  }

  /** When `sep` does not start `s`, its occurrences in `s` are those in `s[1..]`, one index further. */
  lemma OccursInTail(s: string, sep: string)
    requires s != [] && !OccursAt(s, sep, 0)
    ensures forall j | 0 <= j <= |s| - 1 :: OccursAt(s[1..], sep, j) <==> OccursAt(s, sep, j + 1)
    ensures Contains(s, sep) <==> Contains(s[1..], sep)
  {
    forall j | 0 <= j <= |s| - 1
      ensures OccursAt(s[1..], sep, j) <==> OccursAt(s, sep, j + 1)
    {
      assert s[1..][j..] == s[j + 1..];
    }
    if Contains(s, sep) {
      var i :| 0 <= i <= |s| && OccursAt(s, sep, i);
      assert OccursAt(s[1..], sep, i - 1);
    }
    if Contains(s[1..], sep) {
      var i :| 0 <= i <= |s[1..]| && OccursAt(s[1..], sep, i);
      assert OccursAt(s, sep, i + 1);
    }
  }

  /**
   * JavaScript's `s.split(sep)[0]` for a non-empty string separator: the
   * text before the first occurrence of `sep`, or all of `s` when `sep`
   * does not occur in it.
   */
  function BeforeFirst(s: string, sep: string): (r: string)
    requires sep != []
    ensures IsPrefix(r, s)
    ensures forall j | 0 <= j < |r| :: !OccursAt(s, sep, j)
    ensures Contains(s, sep) <==> OccursAt(s, sep, |r|)
    ensures !Contains(s, sep) ==> r == s
    decreases |s|
  {
    if IsPrefix(sep, s) then
      assert OccursAt(s, sep, 0);
      []
    else if s == [] then
      assert !OccursAt(s, sep, 0);
      []
    else
      var t := BeforeFirst(s[1..], sep);
      OccursInTail(s, sep);
      forall j | 0 <= j < |t| + 1
        ensures !OccursAt(s, sep, j)
      {
        if j > 0 {
          assert !OccursAt(s[1..], sep, j - 1);
        }
      }
      [s[0]] + t
  }

  /** Node's `path.dirname` for a relative path: everything before the last '/', or "." when there is none. */
  function Dirname(p: string): (d: string)
    ensures '/' !in p ==> d == "."
    ensures '/' in p ==> IsPrefix(d + "/", p) && '/' !in p[|d| + 1..]
  {
    if '/' !in p then "."
    else
      var i := LastIndexOfChar(p, '/');
      assert p[..i] + "/" == p[..i + 1];
      p[..i]
  }

  /** The last component of a path that contains a '/'. */
  function Basename(p: string): string
    requires '/' in p
  {
    p[|Dirname(p)| + 1..]
  }

  /** A path is its directory, a '/', and its last component, which has no '/'. */
  lemma DirnameBasename(p: string)
    requires '/' in p
    ensures Dirname(p) + "/" + Basename(p) == p
    ensures '/' !in Basename(p)
  {
    var d := Dirname(p);
    assert p == p[..|d| + 1] + p[|d| + 1..];
  }

  /** The characters JavaScript's `trim` removes: white space and line terminators. */
  predicate IsJsSpace(c: char) {
    c in {'\t', '\n', '\U{000B}', '\U{000C}', '\r', ' ', '\U{00A0}', '\U{1680}',
          '\U{2028}', '\U{2029}', '\U{202F}', '\U{205F}', '\U{3000}', '\U{FEFF}'}
    || '\U{2000}' <= c <= '\U{200A}'
  }

  predicate AllSpace(s: string) {
    forall k | 0 <= k < |s| :: IsJsSpace(s[k])
  }

  /** `s` without its leading white space. */
  function TrimStart(s: string): (r: string)
    ensures |r| <= |s| && r == s[|s| - |r|..]
    ensures AllSpace(s[..|s| - |r|])
    ensures r != [] ==> !IsJsSpace(r[0])
  {
    if s != [] && IsJsSpace(s[0]) then
      var t := TrimStart(s[1..]);
      assert s[..|s| - |t|] == [s[0]] + s[1..][..|s[1..]| - |t|];
      t
    else s
  }

  /** `s` without its trailing white space. */
  function TrimEnd(s: string): (r: string)
    ensures |r| <= |s| && r == s[..|r|]
    ensures AllSpace(s[|r|..])
    ensures r != [] ==> !IsJsSpace(r[|r| - 1])
  {
    if s != [] && IsJsSpace(s[|s| - 1]) then
      var t := TrimEnd(s[..|s| - 1]);
      assert s[|t|..] == s[..|s| - 1][|t|..] + [s[|s| - 1]];
      t
    else s
  }

  /**
   * JavaScript's `s.trim()`: the middle of `s` left after removing white
   * space at both ends; it starts and ends with a non-space character.
   */
  function Trim(s: string): (r: string)
    ensures exists i | 0 <= i <= |s| - |r| ::
      s[i..i + |r|] == r && AllSpace(s[..i]) && AllSpace(s[i + |r|..])
    ensures r != [] ==> !IsJsSpace(r[0]) && !IsJsSpace(r[|r| - 1])
  {
    var a := TrimStart(s);
    var r := TrimEnd(a);
    var i := |s| - |a|;
    assert s[i..i + |r|] == r;
    assert s[i + |r|..] == a[|r|..];
    r
  }
}
