/** What the other passes of the pretty printer do, told by the lines of the text: which tokens lead their line and
    by how much, and what is printed for a token with a given indent. */
module PrintedLines {
  import opened Text
  import opened Tokens
  import opened Tokenizer
  import opened Validate
  import opened Layout
  import opened LineEdges
  import opened InPlace

  /** The text between the last line break and token `k`. */
  function LineSoFar(ts: seq<Tok>, k: nat): string
    requires k <= |ts|
  {
    var ls := Lines(Pre(Pieces(ts), k));
    ls[|ls| - 1]
  }

  // How the line grows

  lemma NothingSoFar(ts: seq<Tok>)
    ensures LineSoFar(ts, 0) == ""
  {
    assert Pre(Pieces(ts), 0) == "";
  }

  lemma LineGrows(ts: seq<Tok>, k: nat)
    requires k < |ts|
    ensures '\n' !in ts[k].s ==> LineSoFar(ts, k + 1) == LineSoFar(ts, k) + ts[k].s
    ensures ts[k].s == "\n" ==> LineSoFar(ts, k + 1) == ""
  {
    hide Pre;
    var a, s := Pre(Pieces(ts), k), ts[k].s;
    PreStep(Pieces(ts), k);
    LinesAppend(a, s);
    if '\n' !in s {
      LinesOfLine(s);
    } else if s == "\n" {
      assert s[1..] == "" && Lines(s[1..]) == [""];
      assert Lines(s) == ["", ""];
    }
  }

  /** A line that ends in something is not blank. */
  lemma LineEndsSolid(ts: seq<Tok>, k: nat)
    requires k < |ts| && ts[k].s != "" && ts[k].s[|ts[k].s| - 1] !in {' ', '\n'}
    ensures var l := LineSoFar(ts, k + 1); l != "" && l[|l| - 1] != ' '
  {
    hide Lines, Concat;
    PreStep(Pieces(ts), k);
    var s := Pre(Pieces(ts), k + 1);
    assert s[|s| - 1] == ts[k].s[|ts[k].s| - 1];
    LastLineEnds(s);
  }

  // Which tokens lead their line

  ghost predicate Checked(ts: seq<Tok>) {
    GoodTokens(ts) && Tidy(ts) && AllBegin(None, ts)
  }

  /** The token before a space is neither a break, nor an indent, nor code. */
  lemma BeforeSpace(ts: seq<Tok>, k: nat)
    requires Checked(ts) && k < |ts| && ts[k].kind == Whitespace
    ensures k > 0 && ts[k - 1].kind !in {Newline, Indent, Code} && Over(ts[k].s, BLANK)
  {
    assert GoodToken(ts, k);
    BeginsAt(None, ts, k);
    hide GoodTokens, AllBegin, Plain, LineSpan, PY_SPACE, FourBreaks;
    if k > 1 {
      assert !BadIndent(ts, k - 1);
    }
  }

  lemma SolidOrSpace(ts: seq<Tok>, k: nat)
    requires Checked(ts) && k < |ts| && ts[k].kind !in {Code, Newline, Indent, Whitespace}
    ensures ts[k].s != "" && ts[k].s[|ts[k].s| - 1] !in {' ', '\n'}
  {
    SpaceIsSpace();
    assert GoodToken(ts, k);
    hide Tidy, AllBegin, Plain, LineSpan, PY_SPACE;
  }

  lemma SpacesAreShaped(ts: seq<Tok>, k: nat)
    requires Checked(ts) && k < |ts|
    ensures ts[k].kind == Newline ==> ts[k].s == "\n"
    ensures ts[k].kind == Indent ==> Over(ts[k].s, BLANK) && (k > 0 ==> ts[k - 1].kind == Newline)
  {
    ShapeOfSpace(ts, k);
  }

  lemma {:induction false} LinesOfTokens(ts: seq<Tok>, k: nat)
    requires Checked(ts) && 0 < k <= |ts|
    ensures ts[k - 1].kind == Newline ==> LineSoFar(ts, k) == ""
    ensures ts[k - 1].kind == Indent ==> LineSoFar(ts, k) == ts[k - 1].s && Over(ts[k - 1].s, BLANK)
    ensures ts[k - 1].kind !in {Code, Newline, Indent} ==> !Over(LineSoFar(ts, k), BLANK)
  {
    hide Checked, LineSoFar, PY_SPACE, LineSpan, Plain, Lines, Tidy, AllBegin, GoodTokens;
    SpacesAreShaped(ts, k - 1);
    var t := ts[k - 1];
    LineGrows(ts, k - 1);
    if t.kind == Indent {
      assert k > 1 by { NoIndentFirst(ts); }
      LinesOfTokens(ts, k - 1);
      assert "" + t.s == t.s;
    } else if t.kind == Whitespace {
      BeforeSpace(ts, k - 1);
      LinesOfTokens(ts, k - 1);
      NotBlankStays(LineSoFar(ts, k - 1), t.s);
    } else if t.kind !in {Code, Newline} {
      SolidOrSpace(ts, k - 1);
      LineEndsSolid(ts, k - 1);
    }
  }

  lemma NotBlankStays(a: string, b: string)
    requires !Over(a, BLANK)
    ensures !Over(a + b, BLANK)
  {
    var k :| 0 <= k < |a| && a[k] !in BLANK;
    assert (a + b)[k] == a[k];
  }

  lemma NoIndentFirst(ts: seq<Tok>)
    requires Checked(ts)
    ensures ts != [] && ts[0].kind != Indent
  {
  }

  /** A token other than an indent gets one exactly if nothing but spaces comes before it on its line, and then it
      gets those spaces. Only the tag after a stretch of code never gets one. */
  lemma LeadersStandAtLineStarts(ts: seq<Tok>, k: nat)
    requires Checked(ts) && k < |ts| && ts[k].kind != Indent
    ensures ShiftedIndent(ts, k) ==
            if Over(LineSoFar(ts, k), {' '}) && (k > 0 ==> ts[k - 1].kind != Code) then Some(LineSoFar(ts, k)) else None
  {
    if k == 0 {
      NothingSoFar(ts);
    } else {
      LinesOfTokens(ts, k);
    }
    hide Checked, LineSoFar;
  }

  /** Checked tokens lead their lines at multiples of four columns, and only breaks lead empty ones. */
  lemma LeadersStandOnFours(ts: seq<Tok>, k: nat)
    requires Checked(ts) && k < |ts| && ts[k].kind != Indent && ShiftedIndent(ts, k).Some?
    ensures |ShiftedIndent(ts, k).value| % 4 == 0 && ts[k].kind != Whitespace
    ensures ts[k].kind == Newline ==> ShiftedIndent(ts, k).value == ""
  {
    NoIndentFirst(ts);
    if k > 0 && ts[k].kind == Whitespace {
      BeforeSpace(ts, k);
    }
    hide GoodTokens, AllBegin, FourBreaks;
    if k > 1 {
      assert !BadIndent(ts, k - 1);
    }
  }

  /** The tokens of a plain text that passed the white space checks are like that. */
  lemma TokensAreChecked(text: string, format: Format)
    requires Plain(text) && Tokenize(text, format).Tokens? && Tidy(Tokenize(text, format).ts)
    ensures Checked(Tokenize(text, format).ts)
    ensures var ts := Tokenize(text, format).ts; Pre(Pieces(ts), |ts|) == text
  {
    hide Plain, TokensFrom, GoodTokens, AllBegin, Tidy;
    TokensAreGood(text, format);
    TokensBegin(text, format, 0, false, None);
    TokenizingIsLossless(text, format);
    var ts := Tokenize(text, format).ts;
    assert Pieces(ts)[..|ts|] == Pieces(ts);
  }

  // What is printed for a token

  /** Code, tokens of one line and tokens without an indent are printed with their indent in front. An indent token
      is not printed, but for one at the end of the text. */
  lemma OneLineIsLed(ts: seq<Tok>, out: Indents, k: nat)
    requires k < |ts| == |out| && (ts[k].kind == Code || ts[k].lineSpan == 1 || out[k].None?)
    ensures Printed(ts, out)[k] ==
            (if out[k].Some? then out[k].value else "")
            + if ts[k].kind == Indent && k < |ts| - 1 then "" else ts[k].s
  {
    hide ContinueIndent;
    var s := if ts[k].kind == Indent && k < |ts| - 1 then "" else ts[k].s;
    assert "" + s == s;
  }

  /** The first line of any other token is led by its indent. The other lines of a comment or text are stripped and
      led by it as well, those of a tag by four spaces more, and blank ones are emptied. */
  lemma FurtherLinesAreLed(ts: seq<Tok>, out: Indents, k: nat, j: nat)
    requires k < |ts| == |out| && ts[k].kind != Code && ts[k].lineSpan != 1 && ts[k].kind != Indent
    requires out[k].Some? && Over(out[k].value, {' '}) && |Lines(ts[k].s)| >= 2 && j < |Lines(ts[k].s)|
    ensures var indent, was, after := out[k].value, Lines(ts[k].s)[j], Lines(Printed(ts, out)[k]);
            && |after| == |Lines(ts[k].s)|
            && after[j] ==
               if j == 0 then indent + was
               else if Trim(was, PY_SPACE) == "" then ""
               else if ts[k].kind in {DjangoComment, HandlebarsComment, HtmlComment, TextRun} then
                 indent + Trim(was, PY_SPACE)
               else indent + "    " + Trim(was, PY_SPACE)
  {
    hide PY_SPACE, Trim, Lines, Continued;
    ContinuedLines(ts[k], out[k].value);
    ReindentedAt(ts[k], out[k].value, j);
  }
}
