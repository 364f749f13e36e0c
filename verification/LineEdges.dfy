/** Pretty-printing changes only space at line edges. */
module LineEdges {
  import opened Text
  import opened Tokens
  import opened Tokenizer
  import opened Matcher
  import opened Layout

  /** The same lines, up to spaces at their two ends. */
  ghost predicate SameButEdges(a: seq<string>, b: seq<string>) {
    |a| == |b| && forall k :: 0 <= k < |a| ==> Trim(a[k], BLANK) == Trim(b[k], BLANK)
  }

  /** The same lines up to edges, the last line being unfinished: only its left edge may differ. */
  ghost predicate SameSoFar(a: seq<string>, b: seq<string>) {
    && |a| == |b| && |a| >= 1
    && (forall k :: 0 <= k < |a| - 1 ==> Trim(a[k], BLANK) == Trim(b[k], BLANK))
    && LTrim(a[|a| - 1], BLANK) == LTrim(b[|b| - 1], BLANK)
  }

  lemma SameInTheEnd(a: seq<string>, b: seq<string>)
    requires SameSoFar(a, b)
    ensures SameButEdges(a, b)
  {
    hide LTrim, RTrim;
  }

  /** Text after a line start that is equal but for its left edge. */
  lemma SeamLine(x: string, y: string, s: string, o: string)
    requires LTrim(x, BLANK) == LTrim(y, BLANK) && (s == o || LTrim(x, BLANK) == "")
    ensures LTrim(s, BLANK) == LTrim(o, BLANK) ==> LTrim(x + s, BLANK) == LTrim(y + o, BLANK)
    ensures Trim(s, BLANK) == Trim(o, BLANK) ==> Trim(x + s, BLANK) == Trim(y + o, BLANK)
  {
    LTrimSkip(x, s, BLANK);
    LTrimSkip(y, o, BLANK);
  }

  lemma GlueAt(a: seq<string>, b: seq<string>, k: nat)
    requires |a| >= 1 && |b| >= 1 && k < |a| + |b| - 1
    ensures Glue(a, b)[k] == if k < |a| - 1 then a[k] else if k == |a| - 1 then a[k] + b[0] else b[k - (|a| - 1)]
  {
  }

  lemma GlueEdge(a: seq<string>, b: seq<string>, s: seq<string>, o: seq<string>, k: nat)
    requires SameSoFar(a, b) && SameSoFar(s, o) && k < |a| + |s| - 2
    requires s == o || LTrim(a[|a| - 1], BLANK) == ""
    ensures Trim(Glue(a, s)[k], BLANK) == Trim(Glue(b, o)[k], BLANK)
  {
    hide Trim, LTrim, Glue;
    var n := |a| - 1;
    GlueAt(a, s, k);
    GlueAt(b, o, k);
    if k == n {
      SeamLine(a[n], b[n], s[0], o[0]);
    }
  }

  lemma GlueEnd(a: seq<string>, b: seq<string>, s: seq<string>, o: seq<string>)
    requires |a| == |b| >= 1 && |s| == |o| >= 1
    requires LTrim(a[|a| - 1], BLANK) == LTrim(b[|b| - 1], BLANK)
    requires LTrim(s[|s| - 1], BLANK) == LTrim(o[|o| - 1], BLANK)
    requires s == o || LTrim(a[|a| - 1], BLANK) == ""
    ensures var m := |a| + |s| - 2; LTrim(Glue(a, s)[m], BLANK) == LTrim(Glue(b, o)[m], BLANK)
  {
    hide Trim, LTrim, Glue;
    var n, m := |a| - 1, |a| + |s| - 2;
    GlueAt(a, s, m);
    GlueAt(b, o, m);
    if |s| == 1 {
      SeamLine(a[n], b[n], s[0], o[0]);
    } else {
      assert Glue(a, s)[m] == s[m - n] && Glue(b, o)[m] == o[m - n];
    }
  }

  lemma GlueKeepsEdges(a: seq<string>, b: seq<string>, s: seq<string>, o: seq<string>)
    requires SameSoFar(a, b) && SameSoFar(s, o)
    requires s == o || LTrim(a[|a| - 1], BLANK) == ""
    ensures SameSoFar(Glue(a, s), Glue(b, o))
  {
    hide Trim, LTrim, Glue;
    forall k: nat | k < |a| + |s| - 2
      ensures Trim(Glue(a, s)[k], BLANK) == Trim(Glue(b, o)[k], BLANK)
    {
      GlueEdge(a, b, s, o, k);
    }
    GlueEnd(a, b, s, o);
  }

  // One token

  /** Lines of plain text hold no white space but spaces. */
  ghost predicate PlainLine(s: string) {
    forall k :: 0 <= k < |s| && s[k] in PY_SPACE ==> s[k] == ' '
  }

  lemma PlainLineTrims(s: string)
    requires PlainLine(s)
    ensures Trim(s, PY_SPACE) == Trim(s, BLANK)
  {
    SpaceIsSpace();
    hide PY_SPACE;
    LTrimSame(s, PY_SPACE, BLANK);
    var t := LTrim(s, BLANK);
    RTrimSame(t, PY_SPACE, BLANK);
  }

  lemma SpaceIsSpace()
    ensures ' ' in PY_SPACE && '\n' in PY_SPACE
  {
  }

  lemma {:induction false} RTrimIdem(s: string, cs: set<char>)
    ensures RTrim(RTrim(s, cs), cs) == RTrim(s, cs)
  {
    if s != "" && s[|s| - 1] in cs {
      RTrimIdem(s[..|s| - 1], cs);
    }
  }

  /** A trimmed line stays trimmed on the left when it is trimmed on the right. */
  lemma {:induction false} RTrimOfTrimmed(s: string, cs: set<char>)
    requires LTrim(s, cs) == s
    ensures LTrim(RTrim(s, cs), cs) == RTrim(s, cs)
  {
    var r := RTrim(s, cs);
    if r != "" {
      assert r[0] == s[0];
    }
  }

  lemma TrimIdem(s: string, cs: set<char>)
    ensures Trim(Trim(s, cs), cs) == Trim(s, cs)
  {
    LTrimIdem(s, cs);
    RTrimOfTrimmed(LTrim(s, cs), cs);
    RTrimIdem(LTrim(s, cs), cs);
  }

  /** Re-indenting a line changes only its edges. */
  lemma FixKeepsEdges(indent: string, frag: string)
    requires Over(indent, BLANK) && PlainLine(frag)
    ensures Trim(Fix(indent, frag), BLANK) == Trim(frag, BLANK)
  {
    PlainLineTrims(frag);
    TrimIdem(frag, BLANK);
    hide Trim, PY_SPACE;
    IndentTrims(indent, Trim(frag, BLANK));
  }

  lemma IndentTrims(indent: string, s: string)
    requires Over(indent, BLANK)
    ensures LTrim(indent + s, BLANK) == LTrim(s, BLANK)
    ensures Trim(indent + s, BLANK) == Trim(s, BLANK)
  {
    LTrimSkip(indent, s, BLANK);
    LTrimOver(indent, BLANK);
  }

  /** A line that ends in something keeps its right edge as well. */
  lemma FixKeepsRightEdge(indent: string, frag: string)
    requires Over(indent, BLANK) && PlainLine(frag) && frag != "" && frag[|frag| - 1] != ' '
    ensures LTrim(Fix(indent, frag), BLANK) == LTrim(frag, BLANK)
  {
    PlainLineTrims(frag);
    EndKept(frag);
    hide Trim, LTrim, RTrim;
    IndentTrims(indent, LTrim(frag, BLANK));
    LTrimIdem(frag, BLANK);
  }

  lemma {:induction false} EndKept(s: string)
    requires s != "" && s[|s| - 1] != ' '
    ensures LTrim(s, BLANK) != "" && Trim(s, BLANK) == LTrim(s, BLANK)
  {
    if s[0] == ' ' {
      EndKept(s[1..]);
    }
  }

  lemma {:induction false} LastLineEnds(s: string)
    requires s != "" && s[|s| - 1] != '\n'
    ensures var l := Lines(s)[|Lines(s)| - 1]; l != "" && l[|l| - 1] == s[|s| - 1]
  {
    if |s| > 1 {
      LastLineEnds(s[1..]);
    } else {
      assert s == [s[0]];
      LinesOfLine(s);
    }
  }

  /** A token that spans several lines has breaks inside. */
  lemma SpanMeansBreaks(s: string)
    requires LineSpan(s) != 1
    ensures |Lines(s)| >= 2
  {
    if '\n' !in s {
      assert '\n' !in Trim(s, BREAK);
      LinesOfLine(Trim(s, BREAK));
    } else {
      BreakMeansLines(s);
    }
  }

  lemma {:induction false} BreakMeansLines(s: string)
    requires '\n' in s
    ensures |Lines(s)| >= 2
  {
    if s[0] != '\n' {
      BreakMeansLines(s[1..]);
    }
  }

  lemma BlankSpansOne(t: Tok)
    requires t.lineSpan == LineSpan(t.s) && (Over(t.s, BLANK) || t.s == "\n")
    ensures t.lineSpan == 1
  {
    if Over(t.s, BLANK) {
      assert '\n' !in Trim(t.s, BREAK);
      LinesOfLine(Trim(t.s, BREAK));
    } else {
      assert LTrim(t.s, BREAK) == "";
    }
  }

  ghost predicate BlankIndent(indent: Option<string>) {
    indent.Some? ==> Over(indent.value, BLANK)
  }

  lemma PlainLinesOf(s: string)
    requires Plain(s)
    ensures forall k :: 0 <= k < |Lines(s)| ==> PlainLine(Lines(s)[k])
  {
    hide PY_SPACE;
    var ls := Lines(s);
    forall k, j | 0 <= k < |ls| && 0 <= j < |ls[k]| && ls[k][j] in PY_SPACE
      ensures ls[k][j] == ' '
    {
      LineChars(s, k, j);
      assert ls[k][j] in ls[k];
    }
  }

  function Reindented(t: Tok, indent: string): (ls: seq<string>)
    ensures |ls| == |Lines(t.s)|
  {
    var frags := Lines(t.s);
    [indent + frags[0]] + FixAll(ContinueIndent(t, indent), frags[1..])
  }

  /** The lines of a multi-line token after the pass over continuation lines. */
  lemma ContinuedLines(t: Tok, indent: string)
    requires |Lines(t.s)| >= 2 && t.lineSpan != 1 && t.kind != Code && Over(indent, BLANK)
    ensures Lines(indent + Continued(t, Some(indent), t.s)) == Reindented(t, indent)
  {
    hide PY_SPACE, Fix;
    var frags := Lines(t.s);
    var cont := ContinueIndent(t, indent);
    assert '\n' !in cont && '\n' !in indent + frags[0];
    var fixed := FixAll(cont, frags[1..]);
    forall k | 0 <= k < |fixed|
      ensures '\n' !in fixed[k]
    {
      FixHasNoBreak(cont, frags[k + 1]);
    }
    LinesOfJoin(fixed);
    LinesAfterBreak(indent + frags[0], Join(fixed));
    assert indent + Continued(t, Some(indent), t.s) == indent + frags[0] + "\n" + Join(fixed);
  }

  lemma ReindentedAt(t: Tok, indent: string, k: nat)
    requires k < |Lines(t.s)|
    ensures Reindented(t, indent)[k] ==
            if k == 0 then indent + Lines(t.s)[0] else Fix(ContinueIndent(t, indent), Lines(t.s)[k])
  {
    hide Fix, Lines, ContinueIndent;
  }

  lemma ContinueIndentIsBlank(t: Tok, indent: string)
    requires Over(indent, BLANK)
    ensures Over(ContinueIndent(t, indent), BLANK)
  {
  }

  lemma ReindentedKeepsEdges(t: Tok, indent: string)
    requires Over(indent, BLANK) && |Lines(t.s)| >= 2
    requires forall k :: 0 <= k < |Lines(t.s)| ==> PlainLine(Lines(t.s)[k])
    requires var l := Lines(t.s)[|Lines(t.s)| - 1]; l != "" && l[|l| - 1] != ' '
    ensures SameSoFar(Lines(t.s), Reindented(t, indent))
  {
    hide PY_SPACE, Trim, LTrim, Fix, Lines, PlainLine, Reindented, Over, ContinueIndent;
    var frags := Lines(t.s);
    var cont := ContinueIndent(t, indent);
    var last := |frags| - 1;
    ContinueIndentIsBlank(t, indent);
    IndentTrims(indent, frags[0]);
    forall k: nat | k < last
      ensures Trim(frags[k], BLANK) == Trim(Reindented(t, indent)[k], BLANK)
    {
      ReindentedAt(t, indent, k);
      if k > 0 {
        FixKeepsEdges(cont, frags[k]);
      }
    }
    ReindentedAt(t, indent, last);
    FixKeepsRightEdge(cont, frags[last]);
  }

  /** The continuation lines of a multi-line token change only at their edges. */
  lemma ContinuedKeepsEdges(t: Tok, indent: string)
    requires Plain(t.s) && t.s != "" && t.s[|t.s| - 1] !in PY_SPACE
    requires t.lineSpan == LineSpan(t.s) && t.lineSpan != 1 && t.kind != Code && Over(indent, BLANK)
    ensures SameSoFar(Lines(t.s), Lines(indent + Continued(t, Some(indent), t.s)))
  {
    SpaceIsSpace();
    hide PY_SPACE, LineSpan, Continued, Lines, Plain, Reindented, SameSoFar, PlainLine;
    SpanMeansBreaks(t.s);
    PlainLinesOf(t.s);
    LastLineEnds(t.s);
    ContinuedLines(t, indent);
    ReindentedKeepsEdges(t, indent);
  }

  lemma FixHasNoBreak(indent: string, frag: string)
    requires '\n' !in indent && '\n' !in frag
    ensures '\n' !in Fix(indent, frag)
  {
    hide PY_SPACE;
    assert forall c :: c in Trim(frag, PY_SPACE) ==> c in frag;
  }

  /** The text a token ends up with. */
  function FinalText(ts: seq<Tok>, k: nat, indent: Option<string>): string
    requires k < |ts|
  {
    Applied(indent, Continued(ts[k], indent, ShiftedText(ts, k)))
  }

  lemma HeadIndented(ls: seq<string>, indent: string)
    requires |ls| >= 1 && Over(indent, BLANK)
    ensures SameSoFar(ls, [indent + ls[0]] + ls[1..])
  {
    IndentTrims(indent, ls[0]);
    hide LTrim, Trim, Over;
    HeadReplaced(ls, indent + ls[0]);
  }

  lemma HeadReplaced(ls: seq<string>, l: string)
    requires |ls| >= 1
    requires Trim(l, BLANK) == Trim(ls[0], BLANK) && LTrim(l, BLANK) == LTrim(ls[0], BLANK)
    ensures SameSoFar(ls, [l] + ls[1..])
  {
    hide LTrim, Trim;
    var after := [l] + ls[1..];
    forall k | 0 <= k < |ls|
      ensures Trim(after[k], BLANK) == Trim(ls[k], BLANK) && LTrim(after[k], BLANK) == LTrim(ls[k], BLANK)
    {
      assert k > 0 ==> after[k] == ls[k];
    }
  }

  lemma OneLineEdges(s: string, indent: string)
    requires Over(indent, BLANK)
    ensures SameSoFar(Lines(s), Lines(indent + s))
  {
    hide SameSoFar, LTrim, Trim;
    assert '\n' !in indent;
    LinesOfLine(indent);
    LinesAppend(indent, s);
    HeadIndented(Lines(s), indent);
    assert Glue([indent], Lines(s)) == [indent + Lines(s)[0]] + Lines(s)[1..];
  }

  lemma EmptiedEdges(s: string, indent: Option<string>)
    requires Over(s, BLANK) && BlankIndent(indent)
    ensures SameSoFar(Lines(s), Lines(Applied(indent, "")))
  {
    var o := Applied(indent, "");
    assert Over(o, BLANK) && '\n' !in s && '\n' !in o;
    LinesOfLine(s);
    LinesOfLine(o);
    LTrimOver(s, BLANK);
    LTrimOver(o, BLANK);
  }

  /** A token's lines change only at their edges, and not at all when it has no indent to apply. */
  lemma TokenKeepsEdges(ts: seq<Tok>, k: nat, prev: Option<Kind>, indent: Option<string>)
    requires k < |ts| && Shaped(prev, ts[k]) && Plain(ts[k].s) && BlankIndent(indent)
    ensures SameSoFar(Lines(ts[k].s), Lines(FinalText(ts, k, indent)))
    ensures indent.None? && ts[k].kind != Indent ==> FinalText(ts, k, indent) == ts[k].s
  {
    hide Lines, LineSpan, Plain, PY_SPACE, SameSoFar, ContinueIndent, FixAll;
    var t := ts[k];
    if t.kind == Indent {
      BlankSpansOne(t);
      if ShiftedText(ts, k) == "" {
        EmptiedEdges(t.s, indent);
      } else {
        OneLineEdges(t.s, if indent.Some? then indent.value else "");
      }
    } else if indent.None? || t.kind == Code || t.lineSpan == 1 {
      OneLineEdges(t.s, if indent.Some? then indent.value else "");
    } else {
      if t.kind in {Newline, Whitespace} {
        BlankSpansOne(t);
      }
      ContinuedKeepsEdges(t, indent.value);
    }
    assert "" + t.s == t.s;
  }

  // The block pass keeps indents blank and adds none

  ghost predicate Derived(before: Indents, a: Adjusting) {
    && |a.out| == |before|
    && (forall j :: 0 <= j < |before| ==> BlankIndent(a.out[j]) && (a.out[j].Some? ==> before[j].Some?))
    && (forall d :: 0 <= d < |a.stack| ==> BlankIndent(a.stack[d].child))
  }

  lemma SettleKeepsBlank(ts: seq<Tok>, before: Indents, a: Adjusting, indent: Option<string>)
    requires Derived(before, a) && |a.out| == |ts| && forall d :: 0 <= d < |a.stack| ==> a.stack[d].start < |ts|
    ensures Derived(before, a.(stack := SettleStack(ts, a, indent)))
  {
    hide AllowsChildrenToSkipIndents, Over;
  }

  lemma TurnKeepsBlank(ts: seq<Tok>, links: State, before: Indents, k: nat, a: Adjusting)
    requires Sized(ts, links, a) && k < |ts| && Derived(before, a) && AdjustToken(ts, links, k, a).Ok?
    ensures Derived(before, AdjustToken(ts, links, k, a).value)
  {
    hide AllowsChildrenToSkipIndents, Skipped, SettleStack;
    SettleKeepsBlank(ts, before, a, a.out[k]);
  }

  lemma {:induction false} PassKeepsBlank(ts: seq<Tok>, links: State, before: Indents, k: nat)
    requires Sized(ts, links, Adjusting([], before)) && k <= |ts| && AdjustedUpTo(ts, links, before, k).Ok?
    requires forall j :: 0 <= j < |before| ==> BlankIndent(before[j])
    ensures Derived(before, AdjustedUpTo(ts, links, before, k).value)
  {
    hide AdjustToken, BlankIndent;
    if k > 0 {
      PassKeepsBlank(ts, links, before, k - 1);
      TurnKeepsBlank(ts, links, before, k - 1, AdjustedUpTo(ts, links, before, k - 1).value);
    }
  }

  // All tokens

  /** Nothing but space stands between the last break of `s` and its end. */
  ghost predicate AtLineStart(s: string) {
    LTrim(Lines(s)[|Lines(s)| - 1], BLANK) == ""
  }

  lemma StartAfter(s: string, t: Tok)
    requires t.s == "\n" || (Over(t.s, BLANK) && AtLineStart(s))
    ensures AtLineStart(s + t.s)
  {
    LinesAppend(s, t.s);
    if t.s == "\n" {
      assert Lines("\n"[1..]) == [""];
    } else {
      assert '\n' !in t.s;
      LinesOfLine(t.s);
      LTrimSkip(Lines(s)[|Lines(s)| - 1], t.s, BLANK);
      LTrimOver(t.s, BLANK);
    }
  }

  function Pre(parts: seq<string>, k: nat): string
    requires k <= |parts|
  {
    Concat(parts[..k])
  }

  lemma PreStep(parts: seq<string>, k: nat)
    requires k < |parts|
    ensures Pre(parts, k + 1) == Pre(parts, k) + parts[k]
  {
    assert parts[..k + 1] == parts[..k] + [parts[k]];
    ConcatAppend(parts[..k], [parts[k]]);
    assert Concat([parts[k]]) == parts[k];
  }

  ghost predicate GoodToken(ts: seq<Tok>, k: nat)
    requires k < |ts|
  {
    Shaped(PrevKind(ts, k, None), ts[k]) && Plain(ts[k].s)
  }

  ghost predicate GoodTokens(ts: seq<Tok>) {
    forall k :: 0 <= k < |ts| ==> GoodToken(ts, k)
  }

  /** What the shape of a token says about the space before its neighbour. */
  lemma ShapeOfSpace(ts: seq<Tok>, k: nat)
    requires GoodTokens(ts) && k < |ts|
    ensures ts[k].kind == Newline ==> ts[k].s == "\n"
    ensures ts[k].kind == Indent ==> Over(ts[k].s, BLANK) && (k > 0 ==> ts[k - 1].kind == Newline)
  {
    hide Plain, LineSpan, PY_SPACE;
    assert GoodToken(ts, k);
  }

  /** Indents stand only on tokens that lead their line. */
  lemma {:induction false} LeadersLead(ts: seq<Tok>, k: nat)
    requires GoodTokens(ts) && k < |ts|
    requires ShiftedIndent(ts, k).Some? || ts[k].kind == Indent
    ensures AtLineStart(Pre(Pieces(ts), k))
  {
    hide GoodTokens, AtLineStart, Pre, Concat;
    if k > 0 {
      PreStep(Pieces(ts), k - 1);
      ShapeOfSpace(ts, k - 1);
      ShapeOfSpace(ts, k);
      if ts[k - 1].kind == Indent {
        LeadersLead(ts, k - 1);
      }
      StartAfter(Pre(Pieces(ts), k - 1), ts[k - 1]);
    } else {
      EmptyStart(Pieces(ts), Pieces(ts));
    }
  }

  lemma EmptyStart(parts: seq<string>, others: seq<string>)
    ensures AtLineStart(Pre(parts, 0))
    ensures SameSoFar(Lines(Pre(parts, 0)), Lines(Pre(others, 0)))
  {
    assert Pre(parts, 0) == "" == Pre(others, 0);
    assert Lines("") == [""];
  }

  lemma AppendKeepsEdges(a: string, b: string, s: string, o: string)
    requires SameSoFar(Lines(a), Lines(b)) && SameSoFar(Lines(s), Lines(o))
    requires s == o || AtLineStart(a)
    ensures SameSoFar(Lines(a + s), Lines(b + o))
  {
    hide SameSoFar, Lines, LTrim, Glue;
    LinesAppend(a, s);
    LinesAppend(b, o);
    GlueKeepsEdges(Lines(a), Lines(b), Lines(s), Lines(o));
  }

  ghost predicate GoodIndents(ts: seq<Tok>, indents: Indents) {
    && |indents| == |ts|
    && forall j :: 0 <= j < |ts| ==>
         BlankIndent(indents[j]) && (indents[j].Some? ==> ShiftedIndent(ts, j).Some?)
  }

  /** One token more. */
  lemma NextKeepsEdges(ts: seq<Tok>, indents: Indents, k: nat)
    requires GoodTokens(ts) && k < |ts| && GoodIndents(ts, indents)
    requires SameSoFar(Lines(Pre(Pieces(ts), k)), Lines(Pre(Printed(ts, indents), k)))
    ensures SameSoFar(Lines(Pre(Pieces(ts), k) + Pieces(ts)[k]),
                      Lines(Pre(Printed(ts, indents), k) + Printed(ts, indents)[k]))
  {
    hide SameSoFar, BlankIndent, ShiftedIndent, ShiftedText, Lines, Pre, Continued, Applied, Plain, Shaped, AtLineStart;
    assert GoodToken(ts, k);
    TokenKeepsEdges(ts, k, PrevKind(ts, k, None), indents[k]);
    if indents[k].Some? || ts[k].kind == Indent {
      LeadersLead(ts, k);
    }
    AppendKeepsEdges(Pre(Pieces(ts), k), Pre(Printed(ts, indents), k), ts[k].s, FinalText(ts, k, indents[k]));
  }

  lemma {:induction false} PrefixesKeepEdges(ts: seq<Tok>, indents: Indents, k: nat)
    requires GoodTokens(ts) && k <= |ts| && GoodIndents(ts, indents)
    ensures SameSoFar(Lines(Pre(Pieces(ts), k)), Lines(Pre(Printed(ts, indents), k)))
  {
    hide SameSoFar, GoodTokens, Lines, Pre, Concat, BlankIndent, ShiftedIndent;
    if k == 0 {
      EmptyStart(Pieces(ts), Printed(ts, indents));
    } else {
      PrefixesKeepEdges(ts, indents, k - 1);
      PreStep(Pieces(ts), k - 1);
      PreStep(Printed(ts, indents), k - 1);
      NextKeepsEdges(ts, indents, k - 1);
    }
  }

  lemma TokensAreGood(text: string, format: Format)
    requires Plain(text) && Tokenize(text, format).Tokens?
    ensures GoodTokens(Tokenize(text, format).ts)
  {
    hide Shaped, PY_SPACE, Tiles, TokensFrom;
    var ts := Tokenize(text, format).ts;
    TokensTile(text, format, 0, false, None);
    forall k | 0 <= k < |ts|
      ensures GoodToken(ts, k)
    {
      TilesAt(text, 0, None, ts, k);
      PlainPart(text, OffsetOf(ts, k), ts[k].s);
    }
  }

  lemma PlainPart(text: string, i: nat, s: string)
    requires Plain(text) && i + |s| <= |text| && s == text[i..i + |s|]
    ensures Plain(s)
  {
    hide PY_SPACE;
  }

  /** Pretty-printing changes only space at line edges: on plain text, whatever the links, output and input
      have the same number of lines, and each pair of lines is equal once stripped of spaces at both ends. */
  lemma PrettyPrintingKeepsLines(text: string, format: Format, links: State, out: string)
    requires Plain(text) && Tokenize(text, format).Tokens?
    requires var ts := Tokenize(text, format).ts;
             Sized(ts, links, Adjusting([], Shifted(ts))) && PrettyPrinted(ts, links) == Ok(out)
    ensures SameButEdges(Lines(text), Lines(out))
  {
    hide Plain, Tokenize, SameSoFar, SameButEdges, Lines, GoodTokens, Concat, LineAt, ColAt, Sized;
    var ts := Tokenize(text, format).ts;
    TokensAreGood(text, format);
    TokenizingIsLossless(text, format);
    PrintingKeepsLines(ts, links, out);
  }

  lemma PrintingKeepsLines(ts: seq<Tok>, links: State, out: string)
    requires GoodTokens(ts) && Sized(ts, links, Adjusting([], Shifted(ts))) && PrettyPrinted(ts, links) == Ok(out)
    ensures SameButEdges(Lines(Concat(Pieces(ts))), Lines(out))
  {
    hide SameSoFar, SameButEdges, Lines, GoodTokens, Concat, Sized, BlankIndent, ShiftedIndent, AdjustedUpTo;
    var indents := Adjusted(ts, links, Shifted(ts)).value;
    ShiftedIsBlank(ts);
    PassKeepsBlank(ts, links, Shifted(ts), |ts|);
    PrefixesKeepEdges(ts, indents, |ts|);
    assert Pieces(ts)[..|ts|] == Pieces(ts) && Printed(ts, indents)[..|ts|] == Printed(ts, indents);
    SameInTheEnd(Lines(Concat(Pieces(ts))), Lines(out));
  }

  lemma ShiftedIsBlank(ts: seq<Tok>)
    requires GoodTokens(ts)
    ensures forall k :: 0 <= k < |ts| ==> BlankIndent(ShiftedIndent(ts, k))
  {
    hide Plain;
    forall k | 0 < k < |ts|
      ensures BlankIndent(ShiftedIndent(ts, k))
    {
      assert GoodToken(ts, k - 1);
    }
  }
}
