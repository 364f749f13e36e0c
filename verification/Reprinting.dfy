/** Printing what was printed: it can fail, because the scanner of partials skips ten characters whatever they are, and
    re-indenting moves what those are. */
module Reprinting {
  import opened Text
  import opened Tokens
  import opened Scanners
  import opened Tokenizer
  import opened Matcher
  import opened Validate
  import opened Layout
  import opened LineEdges
  import opened TemplateTool

  /** One partial that spans two lines and closes at its end only. */
  ghost predicate TwoLinePartial(text: string) {
    && |text| >= 12 && StartsWith(text, "{{>\n") && EndsWith(text, "}}")
    && forall k :: 0 <= k < |text| - 2 ==> text[k] != '}'
  }

  lemma ClosesAtItsEnd(text: string)
    requires TwoLinePartial(text)
    ensures Scanners.Closed(text, 0, 10, "}}") == Ok(text)
  {
    var n := |text|;
    assert text[n - 2..] == text[n - 2..n];
    assert ClosesAt(text, n, "}}");
    var e := FindEnd(text, 10, "}}");
    assert text[e.value - 2..e.value][0] == text[e.value - 2];
    assert text[..n] == text;
  }

  lemma IsPartial(text: string)
    requires TwoLinePartial(text)
    ensures Classify(text, 0, Handlebars) == OnPartial
  {
    var head := text[..4];
    assert head == "{{>\n" && text[0] == head[0] && text[1] == head[1] && text[2] == head[2];
    assert text[0..3][2] == text[2] && text[0..2][1] == text[1];
    assert text[0..3] == "{{>";
  }

  function PartialTok(text: string): Tok {
    Tok(HandlebarsPartial, text, Trim(Mid(text, 9, 2), PY_SPACE), LineAt(text, 0), ColAt(text, 0), LineSpan(text))
  }

  lemma OneToken(text: string)
    requires TwoLinePartial(text)
    ensures Tokenize(text, Handlebars) == Tokens([PartialTok(text)])
  {
    IsPartial(text);
    ClosesAtItsEnd(text);
    hide Classify, Scanners.Closed, TwoLinePartial, Mid, Trim, PY_SPACE, LineAt, ColAt, LineSpan;
    var mark := Label(HandlebarsPartial, Mid(text, 9, 2), false);
    assert TakeMarkup(OnPartial, text, 0) == Emit(text, mark);
    assert TakeTurn(text, Handlebars, 0, false, None) == Emit(text, mark);
    assert TokensFrom(text, Handlebars, |text|, false, Some(HandlebarsPartial)) == Tokens([]);
    TurnTokens(text, Handlebars, 0, false, None);
    assert [PartialTok(text)] + [] == [PartialTok(text)];
  }

  /** Alone, it passes the checks, whatever its tag, and is printed unless that is else. */
  lemma OnePasses(t: Tok)
    requires t.kind == HandlebarsPartial && t.tag in {"xelse", "else"}
    ensures Tidy([t]) && MatchTags([t]) == Ok(INIT) && Sized([t], INIT, Adjusting([], Shifted([t])))
    ensures Adjusted([t], INIT, Shifted([t])) == if t.tag == "else" then Raise(AssertionError) else Ok([Some("")])
  {
    var ts, a := [t], Adjusting([], [Some("")]);
    assert Shifted(ts) == [Some("")];
    assert After(ts, 0) == Ok(INIT) && Step(t, 0, INIT) == Ok(INIT);
    OneTurn(t);
    hide AdjustToken;
    assert AdjustedUpTo(ts, INIT, Shifted(ts), 0) == Ok(a);
    assert AdjustedUpTo(ts, INIT, Shifted(ts), 1) == AdjustToken(ts, INIT, 0, a);
  }

  lemma OneTurn(t: Tok)
    requires t.kind == HandlebarsPartial && t.tag in {"xelse", "else"}
    ensures var a := Adjusting([], [Some("")]);
            AdjustToken([t], INIT, 0, a) == if t.tag == "else" then Raise(AssertionError) else Ok(a)
  {
    assert !Skipped(t);
    assert [Some("")][0 := Some("")] == [Some("")];
  }

  const WRITTEN := "{{>\n     xelse}}"
  const PRINTED := "{{>\n    xelse}}"

  lemma LettersAreSolid()
    ensures forall c :: c in {'{', '>', 'x', 'e', 'l', 's', '}'} ==> c !in PY_SPACE
  {
  }

  lemma TheyArePartials()
    ensures TwoLinePartial(WRITTEN) && TwoLinePartial(PRINTED)
  {
    assert WRITTEN[..4] == "{{>\n" && WRITTEN[14..] == "}}";
    assert PRINTED[..4] == "{{>\n" && PRINTED[13..] == "}}";
  }

  lemma WrittenIsPlain()
    ensures Plain(WRITTEN)
  {
    LettersAreSolid();
    hide PY_SPACE;
    forall k | 0 <= k < |WRITTEN|
      ensures WRITTEN[k] in PY_SPACE ==> WRITTEN[k] == ' ' || WRITTEN[k] == '\n'
    {
      assert WRITTEN[k] in {'{', '>', 'x', 'e', 'l', 's', '}'} || WRITTEN[k] == ' ' || WRITTEN[k] == '\n';
    }
  }

  lemma TheirTags()
    ensures Trim(Mid(WRITTEN, 9, 2), PY_SPACE) == "xelse" && Trim(Mid(PRINTED, 9, 2), PY_SPACE) == "else"
  {
    LettersAreSolid();
    hide PY_SPACE, Trim;
    assert WRITTEN[9..14] == "xelse" && PRINTED[9..13] == "else";
    SolidTrims("xelse", PY_SPACE);
    SolidTrims("else", PY_SPACE);
  }

  lemma SolidTrims(s: string, cs: set<char>)
    requires s != "" && s[0] !in cs && s[|s| - 1] !in cs
    ensures Trim(s, cs) == s
  {
  }

  lemma ItsLines()
    ensures Lines(WRITTEN) == ["{{>", "     xelse}}"] && LineSpan(WRITTEN) == 2
  {
    var ls := ["{{>", "     xelse}}"];
    LinesOfJoin(ls);
    assert ls[1..] == ["     xelse}}"];
    assert Join(ls) == "{{>" + "\n" + Join(ls[1..]) == WRITTEN;
    hide Lines, Trim;
    SolidTrims(WRITTEN, BREAK);
  }

  lemma FixedCore(indent: string, blanks: string, core: string)
    requires Over(blanks, PY_SPACE) && core != "" && core[0] !in PY_SPACE && core[|core| - 1] !in PY_SPACE
    ensures Fix(indent, blanks + core) == indent + core
  {
    hide PY_SPACE, Over;
    LTrimSkip(blanks, core, PY_SPACE);
    LTrimOver(blanks, PY_SPACE);
    SolidTrims(core, PY_SPACE);
  }

  lemma ItsSecondLine()
    ensures Fix(STEP, "     xelse}}") == "    xelse}}"
  {
    LettersAreSolid();
    SpaceIsSpace();
    hide PY_SPACE, Fix;
    var blanks, core := "     ", "xelse}}";
    FixedCore(STEP, blanks, core);
    assert blanks + core == "     xelse}}" && STEP + core == "    xelse}}";
  }

  lemma ItPrints()
    ensures Concat(Printed([PartialTok(WRITTEN)], [Some("")])) == PRINTED
  {
    ItsLines();
    ItsSecondLine();
    hide Fix, LineSpan, Trim, Mid, Lines;
    var t := PartialTok(WRITTEN);
    var frags := Lines(t.s);
    assert frags[1..] == ["     xelse}}"];
    assert "" + STEP == STEP;
    assert FixAll(STEP, frags[1..]) == ["    xelse}}"];
    assert "{{>" + "\n" + "    xelse}}" == PRINTED;
    assert Continued(t, Some(""), t.s) == PRINTED;
    assert "" + PRINTED == PRINTED && PRINTED + "" == PRINTED;
    assert Printed([t], [Some("")]) == [PRINTED];
    assert [PRINTED][1..] == [];
  }

  lemma FirstPrint()
    ensures Passes(WRITTEN, Handlebars) && PrintOf(WRITTEN, Handlebars) == Done(PRINTED)
  {
    TheyArePartials();
    TheirTags();
    OneToken(WRITTEN);
    OnePasses(PartialTok(WRITTEN));
    ItPrints();
    hide Tokenize, Tidy, MatchTags, Adjusted, Sized, Printed, TwoLinePartial, PartialTok, Shifted, Concat, Trim, Mid;
  }

  lemma SecondPrint()
    ensures Passes(PRINTED, Handlebars) && PrintOf(PRINTED, Handlebars) == Failed(AssertionError)
  {
    TheyArePartials();
    TheirTags();
    OneToken(PRINTED);
    OnePasses(PartialTok(PRINTED));
    hide Tokenize, Tidy, MatchTags, Adjusted, Sized, Printed, TwoLinePartial, PartialTok, Shifted, Concat, Trim, Mid;
  }

  /** A template that is printed, and whose print passes the checks and cannot be printed. */
  lemma PrintingTwiceFails()
    ensures Plain(WRITTEN) && Passes(WRITTEN, Handlebars) && PrintOf(WRITTEN, Handlebars) == Done(PRINTED)
    ensures Passes(PRINTED, Handlebars) && PrintOf(PRINTED, Handlebars) == Failed(AssertionError)
  {
    hide Passes, PrintOf, Plain;
    WrittenIsPlain();
    FirstPrint();
    SecondPrint();
  }
}
