/** The template tools put together: tokenize, check, match tags and pretty-print one text. */
module TemplateTool {
  import opened Text
  import opened Tokens
  import opened Tokenizer
  import opened Matcher
  import opened Validate
  import opened Layout
  import opened LayoutMeaning
  import opened LineEdges
  import opened InPlace
  import opened Stalls
  import opened UnexpectedEnds

  datatype Outcome = Done(text: string) | Failed(error: Error) | Hangs

  /** The tokens passed every check: the white space is tidy and the tags match. */
  ghost predicate Passes(text: string, format: Format) {
    var lexed := Tokenize(text, format);
    lexed.Tokens? && Tidy(lexed.ts) && MatchTags(lexed.ts).Ok?
  }

  ghost function LinksOf(text: string, format: Format): State
    requires Passes(text, format)
  {
    MatchTags(Tokenize(text, format).ts).value
  }

  /** What printing comes to for a text that passed the checks. */
  ghost function PrintOf(text: string, format: Format): Outcome
    requires Passes(text, format)
  {
    var ts, links := Tokenize(text, format).ts, LinksOf(text, format);
    LinksAreSized(ts, links, Shifted(ts));
    match PrettyPrinted(ts, links)
    case Ok(out) => Done(out)
    case Raise(e) => Failed(e)
  }

  /** Validate a template and print it. The tools hang exactly if the text comes to a gap with an odd tail, which one
      of plain spaces and newlines never does. A template that passes every check ends as printing it ends, and any
      other fails; printing succeeds exactly if no token bars the block pass. What is printed differs from the text at
      line edges only. Without `~` the only tokens that bar are lone ones tagged else and line-leading start tags in
      blocks that do not lead their line. A plain text whose start and end tags are skipped together is left as it is
      exactly if nothing bars the pass and the text is laid out. */
  method FormatTemplate(text: string, format: Format) returns (r: Outcome)
    ensures r.Hangs? <==> Stalling(text, format, 0, false)
    ensures Plain(text) ==> !r.Hangs?
    ensures Tokenize(text, format).Raises? ==> r == Failed(Tokenize(text, format).error)
    ensures if Passes(text, format) then r == PrintOf(text, format) else !r.Done?
    ensures r.Done? <==> Passes(text, format) && NothingBars(text, format)
    ensures Plain(text) && r.Done? ==> SameButEdges(Lines(text), Lines(r.text))
    ensures Plain(text) && Passes(text, format) && SkipsAgree(Tokenize(text, format).ts, LinksOf(text, format)) ==>
              (r == Done(text) <==> NothingBars(text, format) && IsLaidOut(text, format))
    ensures Passes(text, format) && NoTilde(Tokenize(text, format).ts) ==>
              && r != Failed(Unexpected)
              && (r.Done? <==> PrintsExactly(text, format))
  {
    hide Tokenize, Tidy, MatchTags, PrettyPrinted, Plain, SameButEdges, NoTilde, Sized, LinkedAs, PrintsExactly,
         Stalling, NothingBars, SkipsAgree, IsLaidOut;
    HangsExactly(text, format);
    var made := RunTokenizer(text, format);
    NeverHangs(text, format);
    match made
    case Loops => return Hangs;
    case Raised(e) => return Failed(e);
    case Made(tokens) =>
      var tidy := PreventWhitespaceViolations(tokens);
      if tidy.Raise? {
        return Failed(tidy.error);
      }
      assert forall k :: 0 <= k < |tokens| ==> tokens[k].indent == None && CellOf(tokens[k]) == FRESH_CELL;
      var matched := MatchTokens(tokens);
      assert forall k :: 0 <= k < |tokens| ==> tokens[k].indent == None && CellOf(tokens[k]) == FRESH_CELL;
      if matched.Raise? {
        return Failed(matched.error);
      }
      ghost var ts := Views(tokens);
      ghost var links := MatchTags(ts).value;
      LinksAreSized(ts, links, Shifted(ts));
      var printed := PrettyPrintHtml(tokens, links);
      Printing(text, format);
      LeavesAloneExactly(text, format);
      if printed.Raise? {
        return Failed(printed.error);
      }
      return Done(printed.value);
  }

  /** The condition under which the block pass succeeds. */
  ghost predicate PrintsExactly(text: string, format: Format)
    requires Passes(text, format)
  {
    var ts := Tokenize(text, format).ts;
    ts != [] && NoElseLeaf(ts) && Ladder(ts, LinksOf(text, format), Shifted(ts))
  }

  /** The condition under which printing succeeds, whatever the tags. */
  ghost predicate NothingBars(text: string, format: Format)
    requires Passes(text, format)
  {
    var ts := Tokenize(text, format).ts;
    ts != [] && NoneBars(ts, LinksOf(text, format), Shifted(ts), |ts|)
  }

  /** The text is laid out: some layout of its blocks finds every token in its place. */
  ghost predicate IsLaidOut(text: string, format: Format)
    requires Passes(text, format)
  {
    var ts := Tokenize(text, format).ts;
    exists out: Indents :: Laid(ts, LinksOf(text, format), Shifted(ts), out) && |out| == |ts| && AllPlaced(ts, out)
  }

  /** A text that passes the checks is printed as it is exactly if it is laid out. */
  lemma PrintsItselfExactly(text: string, format: Format)
    requires Plain(text) && Passes(text, format) && PrintOf(text, format).Done?
    requires SkipsAgree(Tokenize(text, format).ts, LinksOf(text, format))
    ensures PrintOf(text, format) == Done(text) <==> IsLaidOut(text, format)
  {
    hide Tokenize, MatchTags, Plain, SameButEdges, Sized, Adjusted, Tidy, Laid, AllPlaced;
    hide GoodTokens, AllBegin, GoodIndents;
    var ts, links := Tokenize(text, format).ts, LinksOf(text, format);
    LinksAreSized(ts, links, Shifted(ts));
    var out := Adjusted(ts, links, Shifted(ts)).value;
    TokensAreGood(text, format);
    PassIsGood(ts, links, out);
    TokensStart(text, format);
    TokenizingIsLossless(text, format);
    PrintsTextExactly(ts, out);
    AdjustedIsLaid(ts, links, Shifted(ts), out);
    OneLayout(ts, links, out);
  }

  lemma LeavesAloneExactly(text: string, format: Format)
    requires Passes(text, format)
    ensures Plain(text) && SkipsAgree(Tokenize(text, format).ts, LinksOf(text, format)) ==>
              (PrintOf(text, format) == Done(text) <==> NothingBars(text, format) && IsLaidOut(text, format))
  {
    Printing(text, format);
    hide Tokenize, Plain, SkipsAgree, IsLaidOut, NothingBars, PrintOf, Passes;
    if Plain(text) && SkipsAgree(Tokenize(text, format).ts, LinksOf(text, format)) && PrintOf(text, format).Done? {
      PrintsItselfExactly(text, format);
    }
  }

  lemma TokensStart(text: string, format: Format)
    requires Tokenize(text, format).Tokens?
    ensures AllBegin(None, Tokenize(text, format).ts)
  {
    hide TokensFrom, AllBegin;
    TokensBegin(text, format, 0, false, None);
  }

  lemma PassIsGood(ts: seq<Tok>, links: State, out: Indents)
    requires GoodTokens(ts) && Sized(ts, links, Adjusting([], Shifted(ts))) && Adjusted(ts, links, Shifted(ts)) == Ok(out)
    ensures GoodIndents(ts, out)
  {
    hide GoodTokens, BlankIndent, ShiftedIndent, AdjustedUpTo, Sized;
    ShiftedIsBlank(ts);
    PassKeepsBlank(ts, links, Shifted(ts), |ts|);
  }

  /** Every layout is the one that the pass computes. */
  lemma OneLayout(ts: seq<Tok>, links: State, out: Indents)
    requires Laid(ts, links, Shifted(ts), out)
    ensures forall other: Indents :: Laid(ts, links, Shifted(ts), other) ==> other == out
  {
    hide LaidAt;
    forall other: Indents | Laid(ts, links, Shifted(ts), other)
      ensures other == out
    {
      LayoutIsUnique(ts, links, Shifted(ts), out, other, |ts|);
    }
  }

  lemma NeverHangs(text: string, format: Format)
    ensures Plain(text) ==> !Tokenize(text, format).Diverges?
  {
    hide Tokenize, Plain;
    if Plain(text) {
      TokenizingIsLossless(text, format);
    }
  }

  lemma Printing(text: string, format: Format)
    requires Passes(text, format)
    ensures var r := PrintOf(text, format);
            && (r.Done? <==> NothingBars(text, format))
            && (NoTilde(Tokenize(text, format).ts) ==>
                  r != Failed(Unexpected) && (r.Done? <==> PrintsExactly(text, format)))
            && (Plain(text) && r.Done? ==> SameButEdges(Lines(text), Lines(r.text)))
  {
    hide Tokenize, MatchTags, Plain, SameButEdges, NoTilde, Sized, Adjusted, Validated, NoElseLeaf, Ladder, Tidy,
         NoneBars;
    var ts, links := Tokenize(text, format).ts, LinksOf(text, format);
    LinksAreSized(ts, links, Shifted(ts));
    SucceedsExactly(ts, links, Shifted(ts));
    if NoTilde(ts) {
      NoTildeAgrees(ts, links);
      UnexpectedIsUnreachable(ts, links, Shifted(ts));
      AdjustSucceedsExactly(ts, links, Shifted(ts));
    }
    if Plain(text) && PrettyPrinted(ts, links).Ok? {
      PrettyPrintingKeepsLines(text, format, links, PrettyPrinted(ts, links).value);
    }
  }
}
