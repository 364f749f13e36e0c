/** `validate` on token objects: the white space checks, and the matching loop that links start and end tokens. */
module Validate {
  import opened Tokens
  import opened Matcher

  // White space checks

  ghost predicate FourBreaks(ts: seq<Tok>, k: nat) {
    k + 3 < |ts| && forall j :: k <= j < k + 4 ==> ts[j].kind == Newline
  }

  ghost predicate BadIndent(ts: seq<Tok>, k: nat) {
    && k + 1 < |ts| && ts[k].kind == Indent
    && (ts[k + 1].kind in {Indent, Whitespace, Newline} || |ts[k].s| % 4 != 0)
  }

  /** An indent after the first token that is followed by more space. */
  ghost predicate SpaceAfterIndent(ts: seq<Tok>, k: nat) {
    1 <= k && k + 1 < |ts| && ts[k].kind == Indent && (ts[k + 1].kind == Indent || ts[k + 1].kind == Whitespace)
  }

  ghost predicate BadSpace(ts: seq<Tok>, k: nat) {
    && k + 1 < |ts| && ts[k].kind == Whitespace
    && (|ts[k].s| > 1 || ts[k + 1].kind == Newline)
  }

  /** No leading white space, no four breaks in a row, indents of four spaces that lead to something, and
      single spaces between tokens. The first and the last token are not checked for the latter two. */
  ghost predicate Tidy(ts: seq<Tok>) {
    && ts != [] && ts[0].kind !in {Indent, Whitespace}
    && (forall k: nat :: !FourBreaks(ts, k))
    && (forall k: nat :: 1 <= k ==> !BadIndent(ts, k) && !BadSpace(ts, k))
  }

  /** An indent is a multiple of four spaces and leads to a tag or text; other space is a single one and not before a
      break. */
  predicate WellSpaced(ts: seq<Tok>, k: nat) {
    k + 1 < |ts| ==>
      && (ts[k].kind == Indent ==> |ts[k].s| % 4 == 0 && !(ts[k + 1].kind in {Indent, Whitespace, Newline}))
      && (ts[k].kind == Whitespace ==> |ts[k].s| <= 1 && ts[k + 1].kind != Newline)
  }

  predicate FourInARow(ts: seq<Tok>, k: nat) {
    && k + 3 < |ts| && ts[k].kind == Newline
    && ts[k + 1].kind == Newline && ts[k + 2].kind == Newline && ts[k + 3].kind == Newline
  }

  /** What tidy is: there are tokens, no space before everything, no four line breaks in a row, and good spacing. */
  lemma TidyMeans(ts: seq<Tok>)
    ensures Tidy(ts) <==>
              && |ts| >= 1 && ts[0].kind != Indent && ts[0].kind != Whitespace
              && (forall k: nat :: !FourInARow(ts, k))
              && (forall k: nat :: 1 <= k ==> WellSpaced(ts, k))
  {
    forall k: nat
      ensures FourBreaks(ts, k) <==> FourInARow(ts, k)
      ensures !BadIndent(ts, k) && !BadSpace(ts, k) <==> WellSpaced(ts, k)
    {
      FourBreaksInARow(ts, k);
      GoodSpacing(ts, k);
    }
    hide FourBreaks, BadIndent, BadSpace, FourInARow, WellSpaced;
  }

  lemma FourBreaksInARow(ts: seq<Tok>, k: nat)
    ensures FourBreaks(ts, k) <==> FourInARow(ts, k)
  {
    if FourBreaks(ts, k) {
      assert ts[k].kind == ts[k + 1].kind == ts[k + 2].kind == ts[k + 3].kind == Newline;
    }
  }

  lemma GoodSpacing(ts: seq<Tok>, k: nat)
    ensures !BadIndent(ts, k) && !BadSpace(ts, k) <==> WellSpaced(ts, k)
  {
  }

  method PreventExtraNewlines(tokens: seq<Token>) returns (ok: bool)
    ensures ok <==> forall k: nat :: !FourBreaks(Views(tokens), k)
  {
    ghost var ts := Views(tokens);
    var count := 0;
    for i := 0 to |tokens|
      invariant 0 <= count <= i && count < 4
      invariant forall j :: i - count <= j < i ==> ts[j].kind == Newline
      invariant count < i ==> ts[i - count - 1].kind != Newline
      invariant forall k: nat :: k + 3 < i ==> !FourBreaks(ts, k)
    {
      if tokens[i].kind != Newline {
        count := 0;
        continue;
      }
      count := count + 1;
      if count >= 4 {
        assert FourBreaks(ts, i - 3);
        return false;
      }
    }
    return true;
  }

  /** The first place where the loop stops. */
  ghost predicate FirstBad(ts: seq<Tok>, i: nat) {
    && 1 <= i && (BadIndent(ts, i) || BadSpace(ts, i))
    && forall k: nat :: 1 <= k < i ==> !BadIndent(ts, k) && !BadSpace(ts, k)
  }

  lemma OneFirstBad(ts: seq<Tok>, i: nat)
    requires FirstBad(ts, i)
    ensures forall j: nat :: FirstBad(ts, j) ==> j == i
  {
    hide BadIndent, BadSpace;
  }

  /** One turn of the loop. */
  method CheckSpacing(tokens: seq<Token>, i: nat) returns (r: Result<()>)
    requires 1 <= i && i + 1 < |tokens|
    ensures var ts := Views(tokens);
            && (r.Ok? <==> !BadIndent(ts, i) && !BadSpace(ts, i))
            && (r == Raise(AssertionError) <==> SpaceAfterIndent(ts, i))
            && (r.Raise? ==> r.error in {AssertionError, TemplateParser})
  {
    var token, next := tokens[i], tokens[i + 1];
    assert Views(tokens)[i] == token.View() && Views(tokens)[i + 1] == next.View();
    if token.kind == Indent {
      if next.kind == Indent || next.kind == Whitespace {
        return Raise(AssertionError);
      }
      if next.kind == Newline || |token.s| % 4 != 0 {
        return Raise(TemplateParser);
      }
    }
    if token.kind == Whitespace && (|token.s| > 1 || next.kind == Newline) {
      return Raise(TemplateParser);
    }
    return Ok(());
  }

  method PreventWhitespaceViolations(tokens: seq<Token>) returns (r: Result<()>)
    ensures r.Ok? <==> Tidy(Views(tokens))
    ensures r == Raise(IndexError) <==> tokens == []
    ensures r == Raise(AssertionError) <==>
              var ts := Views(tokens);
              && ts != [] && ts[0].kind != Indent && ts[0].kind != Whitespace && (forall k: nat :: !FourBreaks(ts, k))
              && exists i: nat :: FirstBad(ts, i) && SpaceAfterIndent(ts, i)
    ensures r.Raise? ==> r.error in {IndexError, AssertionError, TemplateParser}
  {
    hide BadIndent, BadSpace, FourBreaks, SpaceAfterIndent;
    ghost var ts := Views(tokens);
    if tokens == [] {
      return Raise(IndexError);
    }
    assert ts[0] == tokens[0].View();
    if tokens[0].kind == Indent || tokens[0].kind == Whitespace {
      return Raise(TemplateParser);
    }
    var spaced := PreventExtraNewlines(tokens);
    if !spaced {
      return Raise(TemplateParser);
    }
    var i := 1;
    while i < |tokens| - 1
      invariant 1 <= i
      invariant forall k: nat :: 1 <= k < i ==> !BadIndent(ts, k) && !BadSpace(ts, k)
    {
      r := CheckSpacing(tokens, i);
      if r.Raise? {
        assert FirstBad(ts, i);
        OneFirstBad(ts, i);
        return;
      }
      i := i + 1;
    }
    NoneAtEnd(ts);
    return Ok(());
  }

  lemma NoneAtEnd(ts: seq<Tok>)
    ensures forall k: nat :: |ts| - 1 <= k ==> !BadIndent(ts, k) && !BadSpace(ts, k)
  {
  }

  // The matching loop

  /** A matcher closure: the start token it waits to close, and what it captured. */
  datatype Waiting = Waiting(startToken: Token, tag: string, line: nat, oldForeign: bool)

  function LinkTo(tokens: seq<Token>, links: map<nat, nat>, k: nat): Token? {
    if k in links && links[k] < |tokens| then tokens[links[k]] else null
  }

  /** The token objects point at one another as the links of `st` say. */
  ghost predicate LinkedAs(tokens: seq<Token>, st: State)
    reads tokens`startToken, tokens`endToken
  {
    forall k :: 0 <= k < |tokens| ==>
      && tokens[k].startToken == LinkTo(tokens, st.startOf, k)
      && tokens[k].endToken == LinkTo(tokens, st.endOf, k)
  }

  ghost predicate SameStack(tokens: seq<Token>, stack: seq<Waiting>, frames: seq<Frame>) {
    |stack| == |frames| && forall d :: 0 <= d < |stack| ==> SameFrame(tokens, stack[d], frames[d])
  }

  lemma AfterNone(ts: seq<Tok>)
    ensures After(ts, 0) == Ok(INIT)
  {
  }

  lemma Unlinked(tokens: seq<Token>)
    requires forall t :: t in tokens ==> t.startToken == null && t.endToken == null
    ensures LinkedAs(tokens, INIT) && SameStack(tokens, [], INIT.stack)
  {
  }

  lemma SameLinks(tokens: seq<Token>, st: State, st': State)
    requires LinkedAs(tokens, st) && st.startOf == st'.startOf && st.endOf == st'.endOf
    ensures LinkedAs(tokens, st')
  {
  }

  lemma Refused(ts: seq<Tok>, k: nat)
    requires k < |ts| && After(ts, k).Ok? && !SelfClosingRule(After(ts, k).value.foreign, ts[k])
    ensures !MatchTags(ts).Ok?
  {
    StopsAt(ts, k);
  }

  /** What a closure captured is what its frame holds. */
  ghost predicate SameFrame(tokens: seq<Token>, w: Waiting, f: Frame) {
    && f.start < |tokens| && w.startToken == tokens[f.start]
    && w.tag == f.tag && w.line == f.line && w.oldForeign == f.oldForeign
  }

  lemma SamePush(tokens: seq<Token>, stack: seq<Waiting>, frames: seq<Frame>, w: Waiting, f: Frame)
    requires SameStack(tokens, stack, frames) && SameFrame(tokens, w, f)
    ensures SameStack(tokens, stack + [w], frames + [f])
  {
  }

  lemma SamePop(tokens: seq<Token>, stack: seq<Waiting>, frames: seq<Frame>)
    requires SameStack(tokens, stack, frames)
    ensures |stack| == |frames|
    ensures stack != [] ==>
              && SameFrame(tokens, stack[|stack| - 1], frames[|frames| - 1])
              && SameStack(tokens, stack[..|stack| - 1], frames[..|frames| - 1])
  {
  }

  method LinkTags(tokens: seq<Token>, ghost k: nat, end: Token, waiting: Waiting, ghost st: State)
    requires Distinct(tokens) && LinkedAs(tokens, st)
    requires k < |tokens| && tokens[k] == end
    requires st.stack != [] && Top(st).start < |tokens| && waiting.startToken == tokens[Top(st).start]
    modifies tokens`startToken, tokens`endToken
    ensures LinkedAs(tokens, st.(startOf := st.startOf[k := Top(st).start], endOf := st.endOf[Top(st).start := k]))
  {
    end.startToken := waiting.startToken;
    waiting.startToken.endToken := end;
  }

  /** The matching loop accepts what `MatchTags` accepts and sets the links it computes. */
  method MatchTokens(tokens: seq<Token>) returns (r: Result<()>)
    requires Distinct(tokens)
    requires forall t :: t in tokens ==> t.startToken == null && t.endToken == null
    modifies tokens`startToken, tokens`endToken
    ensures r.Ok? <==> MatchTags(Views(tokens)).Ok?
    ensures r.Raise? ==> r.error == TemplateParser
    ensures r.Ok? ==> LinkedAs(tokens, MatchTags(Views(tokens)).value)
  {
    hide Accepts, SelfClosingRule, TagFlavor, Bare, After, SameStack, LinkedAs;
    ghost var ts := Views(tokens);
    var stack: seq<Waiting>, depth, foreign := [], 0, false;
    ghost var st := INIT;
    AfterNone(ts);
    Unlinked(tokens);
    for i := 0 to |tokens|
      invariant After(ts, i) == Ok(st) && LinkedAs(tokens, st)
      invariant SameStack(tokens, stack, st.stack) && depth == st.depth && foreign == st.foreign
    {
      var token := tokens[i];
      if !SelfClosingRule(foreign, token.View()) {
        Refused(ts, i);
        return Raise(TemplateParser);
      }
      var flavor := TagFlavor(token.kind, token.tag);
      if flavor == Start {
        StartStep(ts, i);
        SamePush(tokens, stack, st.stack, Waiting(token, Bare(token.tag), token.line, foreign),
                 Frame(i, Bare(token.tag), token.line, foreign));
        st := Push(ts[i], i, st);
        SameLinks(tokens, After(ts, i).value, st);
        stack := stack + [Waiting(token, Bare(token.tag), token.line, foreign)];
        depth := depth + 1;
        foreign := foreign || Bare(token.tag) in FOREIGN_TAGS;
      } else if flavor == End {
        EndStep(ts, i);
        SamePop(tokens, stack, st.stack);
        if stack == [] {
          StopsAt(ts, i);
          return Raise(TemplateParser);
        }
        var top := stack[|stack| - 1];
        if !Accepts(top.tag, top.line, token.View()) {
          StopsAt(ts, i);
          return Raise(TemplateParser);
        }
        LinkTags(tokens, i, token, top, st);
        if token.tag != "else" {
          stack := stack[..|stack| - 1];
          foreign := top.oldForeign;
          depth := depth - 1;
        }
        ghost var linked := st.(startOf := st.startOf[i := Top(st).start], endOf := st.endOf[Top(st).start := i]);
        st := RunMatcher(ts[i], i, st).value;
        SameLinks(tokens, linked, st);
      } else {
        LeafStep(ts, i);
      }
    }
    if depth != 0 {
      return Raise(TemplateParser);
    }
    return Ok(());
  }
}
