/** Python string operations used by the template tools: trimming, splitting and joining. */
module Text {

  datatype Option<+T> = None | Some(value: T)

  /** The characters Python's `str.strip()` and `str.split()` treat as white space. */
  const PY_SPACE: set<char> := {
    '\t', '\n', '\U{0B}', '\U{0C}', '\r', '\U{1C}', '\U{1D}', '\U{1E}', '\U{1F}', ' ', '\U{85}', '\U{A0}',
    '\U{1680}', '\U{2000}', '\U{2001}', '\U{2002}', '\U{2003}', '\U{2004}', '\U{2005}', '\U{2006}', '\U{2007}',
    '\U{2008}', '\U{2009}', '\U{200A}', '\U{2028}', '\U{2029}', '\U{202F}', '\U{205F}', '\U{3000}'}

  const BLANK: set<char> := {' '}
  const BREAK: set<char> := {'\n'}

  /** Text whose only white space is spaces and newlines. */
  ghost predicate Plain(s: string) {
    forall k :: 0 <= k < |s| && s[k] in PY_SPACE ==> s[k] == ' ' || s[k] == '\n'
  }

  predicate Over(s: string, cs: set<char>) {
    forall k :: 0 <= k < |s| ==> s[k] in cs
  }

  function LTrim(s: string, cs: set<char>): (r: string)
    ensures |r| <= |s| && r == s[|s| - |r|..]
    ensures r == "" || r[0] !in cs
    ensures Over(s[..|s| - |r|], cs)
  {
    if s != "" && s[0] in cs then
      var r := LTrim(s[1..], cs);
      assert s[..|s| - |r|] == [s[0]] + s[1..][..|s| - 1 - |r|];
      r
    else s
  }

  function RTrim(s: string, cs: set<char>): (r: string)
    ensures |r| <= |s| && r == s[..|r|]
    ensures r == "" || r[|r| - 1] !in cs
    ensures Over(s[|r|..], cs)
  {
    if s != "" && s[|s| - 1] in cs then
      var r := RTrim(s[..|s| - 1], cs);
      assert s[|r|..] == s[..|s| - 1][|r|..] + [s[|s| - 1]];
      r
    else s
  }

  /** `s.strip(cs)`. */
  function Trim(s: string, cs: set<char>): (r: string)
    ensures |r| <= |s|
  {
    RTrim(LTrim(s, cs), cs)
  }

  /** The prefix of `s` before its first character in `cs`. */
  function Until(s: string, cs: set<char>): (r: string)
    ensures |r| <= |s| && r == s[..|r|]
    ensures forall k :: 0 <= k < |r| ==> r[k] !in cs
    ensures |r| < |s| ==> s[|r|] in cs
  {
    if s == "" || s[0] in cs then "" else [s[0]] + Until(s[1..], cs)
  }

  /** `s.split()[0]`, or nothing where Python raises IndexError. */
  function FirstWord(s: string): Option<string> {
    var t := LTrim(s, PY_SPACE);
    if t == "" then None else Some(Until(t, PY_SPACE))
  }

  /** `s[a:-b]`. */
  function Mid(s: string, a: nat, b: nat): string {
    if a + b <= |s| then s[a..|s| - b] else ""
  }

  predicate EndsWith(s: string, t: string) {
    |t| <= |s| && s[|s| - |t|..] == t
  }

  predicate StartsWith(s: string, t: string) {
    |t| <= |s| && s[..|t|] == t
  }

  function RemovePrefix(s: string, t: string): string {
    if StartsWith(s, t) then s[|t|..] else s
  }

  /** `s.split("\n")`. */
  function Lines(s: string): (ls: seq<string>)
    ensures |ls| >= 1
    ensures forall k :: 0 <= k < |ls| ==> '\n' !in ls[k]
  {
    if s == "" then [""]
    else if s[0] == '\n' then [""] + Lines(s[1..])
    else var ls := Lines(s[1..]); [[s[0]] + ls[0]] + ls[1..]
  }

  /** `"\n".join(ls)`. */
  function Join(ls: seq<string>): string
    requires |ls| >= 1
  {
    if |ls| == 1 then ls[0] else ls[0] + "\n" + Join(ls[1..])
  }

  /** The lines of a text followed by the lines of a second one: the seam line is shared. */
  function Glue(a: seq<string>, b: seq<string>): (ls: seq<string>)
    requires |a| >= 1 && |b| >= 1
    ensures |ls| == |a| + |b| - 1
  {
    a[..|a| - 1] + [a[|a| - 1] + b[0]] + b[1..]
  }

  lemma {:induction false} LinesAppend(a: string, b: string)
    ensures Lines(a + b) == Glue(Lines(a), Lines(b))
  {
    if a == "" {
      assert a + b == b;
      assert "" + Lines(b)[0] == Lines(b)[0];
    } else {
      assert (a + b)[1..] == a[1..] + b;
      LinesAppend(a[1..], b);
      if a[0] == '\n' {
        assert Glue([""] + Lines(a[1..]), Lines(b)) == [""] + Glue(Lines(a[1..]), Lines(b));
      } else {
        GlueHead(a[0], Lines(a[1..]), Lines(b));
      }
    }
  }

  lemma GlueHead(c: char, a: seq<string>, b: seq<string>)
    requires |a| >= 1 && |b| >= 1
    ensures Glue([[c] + a[0]] + a[1..], b) == [[c] + Glue(a, b)[0]] + Glue(a, b)[1..]
  {
    if |a| == 1 {
      assert [c] + (a[0] + b[0]) == [c] + a[0] + b[0];
    }
  }

  lemma {:induction false} LinesOfLine(s: string)
    requires '\n' !in s
    ensures Lines(s) == [s]
  {
    if s != "" {
      assert s[0] in s;
      LinesOfLine(s[1..]);
      assert s == [s[0]] + s[1..];
    }
  }

  lemma {:induction false} LinesOfJoin(ls: seq<string>)
    requires |ls| >= 1
    requires forall k :: 0 <= k < |ls| ==> '\n' !in ls[k]
    ensures Lines(Join(ls)) == ls
  {
    LinesOfLine(ls[0]);
    if |ls| > 1 {
      LinesOfJoin(ls[1..]);
      LinesAfterBreak(ls[0], Join(ls[1..]));
    }
  }

  lemma LinesAfterBreak(a: string, b: string)
    requires '\n' !in a
    ensures Lines(a + "\n" + b) == [a] + Lines(b)
  {
    LinesOfLine(a);
    var t := "\n" + b;
    assert t[1..] == b;
    LinesAppend(a, t);
    assert a + "\n" + b == a + t;
    assert Glue([a], [""] + Lines(b)) == [a + ""] + Lines(b);
    assert a + "" == a;
  }

  /** Every line of `s` is a stretch of `s`, so properties of all characters carry over. */
  lemma {:induction false} LineChars(s: string, k: nat, j: nat)
    requires k < |Lines(s)| && j < |Lines(s)[k]|
    ensures Lines(s)[k][j] in s
  {
    if s != "" {
      var ls := Lines(s[1..]);
      if s[0] == '\n' {
        if k > 0 {
          LineChars(s[1..], k - 1, j);
        }
      } else if k > 0 {
        LineChars(s[1..], k, j);
      } else if j > 0 {
        LineChars(s[1..], 0, j - 1);
      }
    }
  }

  function Concat(parts: seq<string>): string {
    if parts == [] then "" else parts[0] + Concat(parts[1..])
  }

  lemma {:induction false} ConcatAppend(a: seq<string>, b: seq<string>)
    ensures Concat(a + b) == Concat(a) + Concat(b)
  {
    if a == [] {
      assert a + b == b;
    } else {
      assert (a + b)[1..] == a[1..] + b;
      ConcatAppend(a[1..], b);
    }
  }

  // Trimming laws

  /** Trimming is decided by where the kept part starts. */
  lemma {:induction false} LTrimSkip(a: string, b: string, cs: set<char>)
    ensures LTrim(a + b, cs) == if LTrim(a, cs) == "" then LTrim(b, cs) else LTrim(a, cs) + b
  {
    if a == "" {
      assert a + b == b;
    } else {
      assert (a + b)[1..] == a[1..] + b;
      LTrimSkip(a[1..], b, cs);
    }
  }

  lemma {:induction false} LTrimOver(a: string, cs: set<char>)
    requires Over(a, cs)
    ensures LTrim(a, cs) == ""
  {
    if a != "" {
      LTrimOver(a[1..], cs);
    }
  }

  lemma {:induction false} LTrimIdem(s: string, cs: set<char>)
    ensures LTrim(LTrim(s, cs), cs) == LTrim(s, cs)
  {
    if s != "" && s[0] in cs {
      LTrimIdem(s[1..], cs);
    }
  }

  /** Trimming depends on the set only through the characters that occur. */
  lemma {:induction false} LTrimSame(s: string, cs: set<char>, ds: set<char>)
    requires forall k :: 0 <= k < |s| ==> (s[k] in cs <==> s[k] in ds)
    ensures LTrim(s, cs) == LTrim(s, ds)
  {
    if s != "" && s[0] in cs {
      LTrimSame(s[1..], cs, ds);
    }
  }

  lemma {:induction false} RTrimSame(s: string, cs: set<char>, ds: set<char>)
    requires forall k :: 0 <= k < |s| ==> (s[k] in cs <==> s[k] in ds)
    ensures RTrim(s, cs) == RTrim(s, ds)
  {
    if s != "" && s[|s| - 1] in cs {
      RTrimSame(s[..|s| - 1], cs, ds);
    }
  }
}
