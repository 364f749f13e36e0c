/** When printing gives a template back as it is: exactly if every token stands where the layout puts it. */
module InPlace {
  import opened Text
  import opened Tokens
  import opened Tokenizer
  import opened Validate
  import opened Layout
  import opened LineEdges
  import opened Stalls

  function Shown(indent: Option<string>): string {
    if indent.Some? then indent.value else ""
  }

  /** An indent token whose text moves to the token after it. */
  predicate Moved(ts: seq<Tok>, k: nat) {
    k + 1 < |ts| && ts[k].kind == Indent
  }

  /** The token stands at its indent, and so do its continuation lines. */
  predicate Placed(ts: seq<Tok>, out: Indents, k: nat)
    requires k < |ts| == |out|
  {
    Moved(ts, k)
    || (Shown(ShiftedIndent(ts, k)) == Shown(out[k]) && Continued(ts[k], out[k], ts[k].s) == ts[k].s)
  }

  ghost predicate AllPlaced(ts: seq<Tok>, out: Indents)
    requires |ts| == |out|
  {
    forall k :: 0 <= k < |ts| ==> Placed(ts, out, k)
  }

  // The text, with every indent in front of the token it indents

  function Led(ts: seq<Tok>, k: nat): string
    requires k < |ts|
  {
    if Moved(ts, k) then "" else Shown(ShiftedIndent(ts, k)) + ts[k].s
  }

  function AllLed(ts: seq<Tok>): (r: seq<string>)
    ensures |r| == |ts| && forall k :: 0 <= k < |ts| ==> r[k] == Led(ts, k)
  {
    seq(|ts|, k requires 0 <= k < |ts| => Led(ts, k))
  }

  /** The indent that is still to come before token `k`. */
  function Pending(ts: seq<Tok>, k: nat): string
    requires k <= |ts|
  {
    if k > 0 && Moved(ts, k - 1) then ts[k - 1].s else ""
  }

  lemma LedStep(ts: seq<Tok>, k: nat)
    requires GoodTokens(ts) && Tidy(ts) && k < |ts|
    ensures Led(ts, k) + Pending(ts, k + 1) == Pending(ts, k) + ts[k].s
  {
    ShapeOfSpace(ts, k);
    assert k > 0 && ts[k - 1].kind == Indent ==> Moved(ts, k - 1);
    assert "" + ts[k].s == ts[k].s;
  }

  lemma {:induction false} LedPrefix(ts: seq<Tok>, k: nat)
    requires GoodTokens(ts) && Tidy(ts) && k <= |ts|
    ensures Pre(AllLed(ts), k) + Pending(ts, k) == Pre(Pieces(ts), k)
  {
    hide GoodTokens, Tidy, Led, Pending, Pre;
    if k == 0 {
      NothingPending(ts);
    } else {
      LedPrefix(ts, k - 1);
      LedStep(ts, k - 1);
      PreStep(AllLed(ts), k - 1);
      PreStep(Pieces(ts), k - 1);
      Regroup(Pre(AllLed(ts), k - 1), Led(ts, k - 1), Pending(ts, k), Pending(ts, k - 1), ts[k - 1].s);
    }
  }

  lemma Regroup(before: string, a: string, b: string, c: string, d: string)
    requires a + b == c + d
    ensures before + a + b == before + c + d
  {
    assert before + a + b == before + (a + b);
    assert before + c + d == before + (c + d);
  }

  lemma NothingPending(ts: seq<Tok>)
    ensures Pre(AllLed(ts), 0) + Pending(ts, 0) == Pre(Pieces(ts), 0)
  {
  }

  lemma LedIsText(ts: seq<Tok>)
    requires GoodTokens(ts) && Tidy(ts)
    ensures Concat(AllLed(ts)) == Concat(Pieces(ts))
  {
    LedPrefix(ts, |ts|);
    assert AllLed(ts)[..|ts|] == AllLed(ts) && Pieces(ts)[..|ts|] == Pieces(ts);
    assert Pending(ts, |ts|) == "";
  }

  // What equal texts must have in common

  /** Two texts that begin with blanks before something else begin with the same blanks. */
  lemma BlanksAgree(w: string, x: string, v: string, y: string)
    requires Over(w, BLANK) && Over(v, BLANK) && x != "" && y != "" && x[0] != ' ' && y[0] != ' '
    requires w + x == v + y
    ensures w == v && x == y
  {
    var s := w + x;
    assert s[|w|] == x[0];
    assert (v + y)[|v|] == y[0];
    assert forall k :: 0 <= k < |w| ==> s[k] == w[k];
    assert forall k :: 0 <= k < |v| ==> (v + y)[k] == v[k];
    assert |w| == |v|;
    assert w == s[..|w|] && v == (v + y)[..|v|];
    assert x == s[|w|..] && y == (v + y)[|v|..];
  }

  /** Two texts with a break have the same first line. */
  lemma FirstLinesAgree(a: string, x: string, b: string, y: string)
    requires '\n' !in a && '\n' !in b && a + "\n" + x == b + "\n" + y
    ensures a == b && x == y
  {
    var s, t := a + "\n" + x, b + "\n" + y;
    assert s[|a|] == '\n' && t[|b|] == '\n';
    assert forall k :: 0 <= k < |a| ==> s[k] == a[k];
    assert forall k :: 0 <= k < |b| ==> t[k] == b[k];
    assert |a| == |b|;
    assert a == s[..|a|] && b == t[..|b|];
    assert x == s[|a| + 1..] && y == t[|b| + 1..];
  }

  /** A line that ends in something is blanks before its core. */
  lemma CoreOf(l: string)
    requires PlainLine(l) && l != "" && l[|l| - 1] != ' '
    ensures var core := Trim(l, PY_SPACE);
            core != "" && core[0] != ' ' && l == l[..|l| - |core|] + core && Over(l[..|l| - |core|], BLANK)
  {
    hide PY_SPACE, RTrim, LTrim, PlainLine;
    PlainLineTrims(l);
    EndKept(l);
    var core := LTrim(l, BLANK);
    assert core == l[|l| - |core|..];
  }

  ghost predicate Continuation(ls: seq<string>) {
    && |ls| >= 1
    && (forall k :: 0 <= k < |ls| ==> '\n' !in ls[k] && PlainLine(ls[k]))
    && var l := ls[|ls| - 1]; l != "" && l[|l| - 1] != ' '
  }

  lemma LastLineAgrees(indent: string, l: string, x: string, y: string)
    requires Over(indent, BLANK) && PlainLine(l) && l != "" && l[|l| - 1] != ' '
    requires l + x == Fix(indent, l) + y
    ensures l == Fix(indent, l)
  {
    CoreOf(l);
    var core := Trim(l, PY_SPACE);
    CoresAgree(l[..|l| - |core|], indent, core, x, y);
  }

  lemma CoresAgree(w: string, indent: string, core: string, x: string, y: string)
    requires Over(w, BLANK) && Over(indent, BLANK) && core != "" && core[0] != ' '
    requires w + core + x == indent + core + y
    ensures w == indent
  {
    assert w + core + x == w + (core + x);
    assert indent + core + y == indent + (core + y);
    BlanksAgree(w, core + x, indent, core + y);
  }

  /** Continuation lines that print alike, whatever follows, are the same. */
  lemma {:induction false} LinesAgree(indent: string, ls: seq<string>, x: string, y: string)
    requires Over(indent, BLANK) && Continuation(ls) && Join(ls) + x == Join(FixAll(indent, ls)) + y
    ensures ls == FixAll(indent, ls)
  {
    hide PY_SPACE, Fix, PlainLine;
    var fixed := FixAll(indent, ls);
    if |ls| == 1 {
      LastLineAgrees(indent, ls[0], x, y);
    } else {
      assert fixed[1..] == FixAll(indent, ls[1..]);
      assert Join(ls) + x == ls[0] + "\n" + (Join(ls[1..]) + x);
      assert Join(fixed) + y == fixed[0] + "\n" + (Join(fixed[1..]) + y);
      assert '\n' !in indent;
      FixHasNoBreak(indent, ls[0]);
      FirstLinesAgree(ls[0], Join(ls[1..]) + x, fixed[0], Join(fixed[1..]) + y);
      LinesAgree(indent, ls[1..], x, y);
      assert ls == [ls[0]] + ls[1..] && fixed == [fixed[0]] + fixed[1..];
    }
  }

  lemma {:induction false} JoinOfLines(s: string)
    ensures Join(Lines(s)) == s
  {
    if s != "" {
      JoinOfLines(s[1..]);
      var ls := Lines(s[1..]);
      if s[0] == '\n' {
        assert Lines(s)[1..] == ls;
      } else {
        assert Lines(s)[1..] == ls[1..];
        assert s == [s[0]] + s[1..];
      }
    }
  }

  /** What can be re-indented: plain, and solid at its end where it spans lines. */
  ghost predicate Printable(t: Tok) {
    && t.s != "" && Plain(t.s) && t.lineSpan == LineSpan(t.s)
    && (t.kind != Code && t.lineSpan != 1 ==> t.s[|t.s| - 1] !in PY_SPACE)
  }

  lemma ContinuationOf(t: Tok)
    requires Printable(t) && t.kind != Code && t.lineSpan != 1
    ensures |Lines(t.s)| >= 2 && Continuation(Lines(t.s)[1..])
  {
    SpaceIsSpace();
    hide PY_SPACE, LineSpan, Plain, PlainLine, Lines;
    SpanMeansBreaks(t.s);
    PlainLinesOf(t.s);
    LastLineEnds(t.s);
  }

  /** The text of a token before and after its continuation lines are re-indented. */
  lemma ContinuedParts(t: Tok, indent: string)
    requires |Lines(t.s)| >= 2 && t.kind != Code && t.lineSpan != 1
    ensures var first, rest := Lines(t.s)[0], Lines(t.s)[1..];
            && t.s == first + "\n" + Join(rest) && '\n' !in first
            && Continued(t, Some(indent), t.s) == first + "\n" + Join(FixAll(ContinueIndent(t, indent), rest))
  {
    hide Fix, ContinueIndent, Lines;
    JoinOfLines(t.s);
  }

  lemma PartsAgree(first: string, rest: string, fixed: string, x: string, y: string)
    requires first + "\n" + rest + x == first + "\n" + fixed + y
    ensures rest + x == fixed + y
  {
    var n := |first| + 1;
    assert rest + x == (first + "\n" + rest + x)[n..];
    assert fixed + y == (first + "\n" + fixed + y)[n..];
  }

  lemma ContinuedAgrees(t: Tok, indent: Option<string>, x: string, y: string)
    requires Printable(t) && BlankIndent(indent) && t.s + x == Continued(t, indent, t.s) + y
    ensures Continued(t, indent, t.s) == t.s
  {
    if t.kind != Code && t.lineSpan != 1 && indent.Some? {
      ContinuationOf(t);
      ContinuedParts(t, indent.value);
      ContinueIndentIsBlank(t, indent.value);
      hide Continuation, Over, ContinueIndent, Lines, Printable, FixAll, Continued, Join;
      var rest, cont := Lines(t.s)[1..], ContinueIndent(t, indent.value);
      PartsAgree(Lines(t.s)[0], Join(rest), Join(FixAll(cont, rest)), x, y);
      LinesAgree(cont, rest, x, y);
    }
  }

  lemma ContinuedStarts(t: Tok, indent: Option<string>)
    requires t.s != ""
    ensures Continued(t, indent, t.s) != "" && Continued(t, indent, t.s)[0] == t.s[0]
  {
    hide Fix, ContinueIndent;
    if !(t.kind == Code || t.lineSpan == 1 || indent.None?) {
      assert Lines(t.s)[0] != "" ==> Lines(t.s)[0][0] == t.s[0];
    }
  }

  /** A token that prints alike, whatever follows, stands in its place. */
  lemma TokenAgrees(t: Tok, was: Option<string>, indent: Option<string>, x: string, y: string)
    requires Printable(t) && BlankIndent(was) && BlankIndent(indent)
    requires (indent.Some? ==> was.Some?) && (was.Some? ==> t.s[0] != ' ')
    requires Shown(was) + t.s + x == Applied(indent, Continued(t, indent, t.s)) + y
    ensures Shown(was) == Shown(indent) && Continued(t, indent, t.s) == t.s && x == y
  {
    hide Continued, Plain, LineSpan, PY_SPACE;
    ContinuedStarts(t, indent);
    var c := Continued(t, indent, t.s);
    if was.Some? {
      assert Shown(was) + t.s + x == Shown(was) + (t.s + x);
      assert Applied(indent, c) + y == Shown(indent) + (c + y);
      BlanksAgree(Shown(was), t.s + x, Shown(indent), c + y);
    } else {
      assert Shown(was) + t.s + x == t.s + x;
    }
    ContinuedAgrees(t, indent, x, y);
    assert x == (t.s + x)[|t.s|..] && y == (c + y)[|c|..];
  }

  // How tokens begin

  predicate MayOpenCode(prev: Option<Kind>) {
    prev.Some? && prev.value in {HtmlStart, HtmlSingleton, HtmlDoctype}
  }

  /** Code stands between two tags, and no other token than space and code begins with a space. */
  predicate Begins(prev: Option<Kind>, t: Tok) {
    && (t.kind == Code ==> MayOpenCode(prev))
    && (prev == Some(Code) ==> t.s != "" && t.s[0] == '<')
    && (t.kind !in {Code, Indent, Whitespace} ==> t.s != "" && t.s[0] != ' ')
  }

  ghost predicate AllBegin(prev: Option<Kind>, ts: seq<Tok>)
    decreases |ts|
  {
    ts == [] || (Begins(prev, ts[0]) && AllBegin(Some(ts[0].kind), ts[1..]))
  }

  lemma CodeIsOpened(b: Branch, s: string)
    requires Markup(b) && LabelOf(b, s).Ok? && LabelOf(b, s).value.opensCode
    ensures MayOpenCode(Some(LabelOf(b, s).value.kind))
  {
    hide FirstWord, Mid, EndsWith, StartsWith, Trim;
  }

  lemma MarkupBegins(b: Branch, text: string, i: nat)
    requires i < |text| && Markup(b) && TakeMarkup(b, text, i).Emit?
    ensures var turn := TakeMarkup(b, text, i);
            && turn.s[0] == text[i] && turn.mark.kind !in {Code, Indent, Whitespace}
            && (turn.mark.opensCode ==> MayOpenCode(Some(turn.mark.kind)))
  {
    var turn := TakeMarkup(b, text, i);
    assert turn.s[0] == text[i];
    hide Scan, MayOpenCode;
    if turn.mark.opensCode {
      CodeIsOpened(b, turn.s);
    }
  }

  lemma TurnBegins(text: string, format: Format, i: nat, inCode: bool, prev: Option<Kind>)
    requires i < |text| && TakeTurn(text, format, i, inCode, prev).Emit? && (inCode ==> MayOpenCode(prev))
    requires prev == Some(Code) ==> text[i] == '<'
    ensures var turn := TakeTurn(text, format, i, inCode, prev);
            && MakeTok(text, i, turn).kind == turn.mark.kind && Begins(prev, MakeTok(text, i, turn))
            && (turn.mark.opensCode ==> MayOpenCode(Some(turn.mark.kind)))
            && (turn.mark.kind == Code && i + |turn.s| < |text| ==> text[i + |turn.s|] == '<')
  {
    hide Classify, TakeMarkup, LineAt, ColAt, LineSpan, Until, Trim, PY_SPACE, MayOpenCode;
    var turn := TakeTurn(text, format, i, inCode, prev);
    if !inCode {
      var b := Classify(text, i, format);
      if b.OnText? {
        TrimBegins(Until(text[i..], {'{', '<'}));
      } else if Markup(b) {
        MarkupBegins(b, text, i);
      }
    }
  }

  lemma TrimBegins(s: string)
    requires Trim(s, PY_SPACE) != ""
    ensures Trim(s, PY_SPACE)[0] != ' '
  {
    SpaceIsSpace();
    hide PY_SPACE;
    var l := LTrim(s, PY_SPACE);
    assert Trim(s, PY_SPACE)[0] == l[0];
  }

  lemma {:induction false} TokensBegin(text: string, format: Format, i: nat, inCode: bool, prev: Option<Kind>)
    requires i <= |text| && (inCode ==> MayOpenCode(prev))
    requires i < |text| && prev == Some(Code) ==> text[i] == '<'
    ensures var r := TokensFrom(text, format, i, inCode, prev); r.Tokens? ==> AllBegin(prev, r.ts)
    decreases |text| - i, inCode
  {
    hide TakeTurn, TokensFrom, MakeTok, MayOpenCode, Begins;
    if i == |text| {
      OtherTurns(text, format, i, inCode, prev);
    } else {
      var turn := TakeTurn(text, format, i, inCode, prev);
      if turn.Emit? {
        TurnBegins(text, format, i, inCode, prev);
        TurnTokens(text, format, i, inCode, prev);
        TokensBegin(text, format, i + |turn.s|, turn.mark.opensCode, Some(turn.mark.kind));
        var rest := TokensFrom(text, format, i + |turn.s|, turn.mark.opensCode, Some(turn.mark.kind));
        if rest.Tokens? {
          BeginOneMore(prev, MakeTok(text, i, turn), rest.ts);
        }
      } else if turn.Stuck? {
        StuckDiverges(text, format, i, inCode, prev);
      } else {
        OtherTurns(text, format, i, inCode, prev);
        if turn.EndCode? {
          TokensBegin(text, format, i, false, prev);
        }
      }
    }
  }

  lemma BeginOneMore(prev: Option<Kind>, t: Tok, rest: seq<Tok>)
    requires Begins(prev, t) && AllBegin(Some(t.kind), rest)
    ensures AllBegin(prev, [t] + rest)
  {
    assert ([t] + rest)[1..] == rest;
  }

  lemma {:induction false} BeginsAt(prev: Option<Kind>, ts: seq<Tok>, k: nat)
    requires AllBegin(prev, ts) && k < |ts|
    ensures Begins(PrevKind(ts, k, prev), ts[k])
    decreases k
  {
    hide Begins;
    if k > 0 {
      BeginsAt(Some(ts[0].kind), ts[1..], k - 1);
    }
  }

  // All tokens

  lemma NoSpaceLeads(ts: seq<Tok>, k: nat)
    requires GoodTokens(ts) && Tidy(ts) && k < |ts| && ShiftedIndent(ts, k).Some? && !Moved(ts, k)
    ensures ts[k].kind !in {Indent, Whitespace}
  {
    ShapeOfSpace(ts, k);
    assert GoodToken(ts, k);
    hide GoodTokens, Plain, LineSpan, PY_SPACE, Over, FourBreaks;
    if k > 1 {
      assert !BadIndent(ts, k - 1);
    }
  }

  /** A token that leads its line does not begin with a space. */
  lemma LeaderIsSolid(ts: seq<Tok>, k: nat)
    requires GoodTokens(ts) && Tidy(ts) && AllBegin(None, ts) && k < |ts|
    requires ShiftedIndent(ts, k).Some?
    ensures !Moved(ts, k) ==> ts[k].s != "" && ts[k].s[0] != ' '
  {
    hide GoodTokens, Tidy, AllBegin;
    if !Moved(ts, k) {
      BeginsAt(None, ts, k);
      NoSpaceLeads(ts, k);
    }
  }

  lemma IsPrintable(ts: seq<Tok>, k: nat)
    requires GoodTokens(ts) && k < |ts|
    ensures Printable(ts[k])
  {
    assert GoodToken(ts, k);
    hide Plain, LineSpan, PY_SPACE, Over;
    if ts[k].kind in {Newline, Indent, Whitespace} {
      BlankSpansOne(ts[k]);
    }
  }

  /** What is printed for a moved indent is nothing. */
  lemma MovedPrintsNothing(ts: seq<Tok>, out: Indents, k: nat)
    requires GoodTokens(ts) && Tidy(ts) && GoodIndents(ts, out) && Moved(ts, k)
    ensures FinalText(ts, k, out[k]) == ""
  {
    ShapeOfSpace(ts, k);
    hide GoodTokens;
  }

  lemma {:induction false} SuffixAgrees(ts: seq<Tok>, out: Indents, k: nat)
    requires GoodTokens(ts) && Tidy(ts) && AllBegin(None, ts) && GoodIndents(ts, out) && k <= |ts|
    requires Concat(AllLed(ts)[k..]) == Concat(Printed(ts, out)[k..])
    ensures forall j :: k <= j < |ts| ==> Placed(ts, out, j)
    decreases |ts| - k
  {
    hide GoodTokens, Tidy, AllBegin, Continued, ShiftedIndent, Plain, LineSpan, PY_SPACE, Placed;
    if k < |ts| {
      var a, b := AllLed(ts), Printed(ts, out);
      assert a[k..][1..] == a[k + 1..] && b[k..][1..] == b[k + 1..];
      var x, y := Concat(a[k + 1..]), Concat(b[k + 1..]);
      OneAgrees(ts, out, k, x, y);
      SuffixAgrees(ts, out, k + 1);
    }
  }

  lemma OneAgrees(ts: seq<Tok>, out: Indents, k: nat, x: string, y: string)
    requires GoodTokens(ts) && Tidy(ts) && AllBegin(None, ts) && GoodIndents(ts, out) && k < |ts|
    requires Led(ts, k) + x == FinalText(ts, k, out[k]) + y
    ensures Placed(ts, out, k) && x == y
  {
    hide GoodTokens, Tidy, AllBegin, Continued, Plain, LineSpan, PY_SPACE, Over, Printable;
    if Moved(ts, k) {
      MovedPrintsNothing(ts, out, k);
      assert "" + x == x && "" + y == y;
    } else {
      IsPrintable(ts, k);
      if ShiftedIndent(ts, k).Some? {
        LeaderIsSolid(ts, k);
      }
      LedIsBlank(ts, k);
      TokenAgrees(ts[k], ShiftedIndent(ts, k), out[k], x, y);
    }
  }

  lemma LedIsBlank(ts: seq<Tok>, k: nat)
    requires GoodTokens(ts) && k < |ts|
    ensures BlankIndent(ShiftedIndent(ts, k))
  {
    ShiftedIsBlank(ts);
  }

  lemma PlacedPrintsItself(ts: seq<Tok>, out: Indents, k: nat)
    requires GoodTokens(ts) && Tidy(ts) && GoodIndents(ts, out) && k < |ts| && Placed(ts, out, k)
    ensures Led(ts, k) == FinalText(ts, k, out[k])
  {
    hide GoodTokens, Tidy, Continued, Plain, LineSpan, PY_SPACE;
    if Moved(ts, k) {
      MovedPrintsNothing(ts, out, k);
    } else {
      assert "" + ts[k].s == ts[k].s;
    }
  }

  /** The printed tokens spell the text they came from exactly if each of them stands in its place. */
  lemma PrintsTextExactly(ts: seq<Tok>, out: Indents)
    requires GoodTokens(ts) && Tidy(ts) && AllBegin(None, ts) && GoodIndents(ts, out)
    ensures Concat(Printed(ts, out)) == Concat(Pieces(ts)) <==> AllPlaced(ts, out)
  {
    assert |out| == |ts|;
    hide GoodTokens, Tidy, AllBegin, GoodIndents, Placed, Concat;
    LedIsText(ts);
    var a, b := AllLed(ts), Printed(ts, out);
    if AllPlaced(ts, out) {
      forall k | 0 <= k < |ts|
        ensures a[k] == b[k]
      {
        PlacedPrintsItself(ts, out, k);
      }
      assert a == b;
    }
    if Concat(b) == Concat(a) {
      assert a[0..] == a && b[0..] == b;
      SuffixAgrees(ts, out, 0);
    }
  }
}
