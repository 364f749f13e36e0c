/** What stands between markup, and whole templates: an element or a block that is opened and closed. */
module WrittenTexts {
  import opened Text
  import opened Tokens
  import opened Scanners
  import opened Tokenizer
  import opened Matcher
  import opened Validate
  import opened TemplateTool
  import opened TagRules
  import opened WrittenForms
  import opened WrittenLogic

  // Between markup

  /** One turn that is known. */
  lemma TurnReads(text: string, format: Format, i: nat, inCode: bool, prev: Option<Kind>, w: string, mark: Label,
                  tag: string)
    requires i < |text| && TakeTurn(text, format, i, inCode, prev) == Emit(w, mark) && Trim(mark.tag, PY_SPACE) == tag
    ensures i + |w| <= |text|
    ensures TokensFrom(text, format, i, inCode, prev) ==
            Prepend([Tok(mark.kind, w, tag, LineAt(text, i), ColAt(text, i), LineSpan(w))],
                    TokensFrom(text, format, i + |w|, mark.opensCode, Some(mark.kind)))
  {
    hide TakeTurn, Trim, PY_SPACE, LineAt, ColAt, LineSpan, TokensFrom;
    TurnTokens(text, format, i, inCode, prev);
  }

  lemma NewlineTurn(text: string, format: Format, i: nat, prev: Option<Kind>, w: string, tag: string)
    requires i < |text| && text[i] == '\n' && w == "\n" && tag == "newline"
    ensures TakeTurn(text, format, i, false, prev) == Emit(w, Label(Newline, tag, false))
  {
    hide Trim, PY_SPACE, TakeMarkup;
  }

  lemma NewlineReads(text: string, format: Format, i: nat, w: string, tag: string)
    requires i < |text| && text[i] == '\n' && w == "\n" && tag == "newline"
    ensures Reads(text, format, i, w, Newline, tag, false)
  {
    hide Trim, PY_SPACE, LineAt, ColAt, LineSpan, TokensFrom, TakeTurn;
    NewlineTrims(tag);
    forall prev: Option<Kind>
      ensures TokensFrom(text, format, i, false, prev) ==
                Prepend([Tok(Newline, w, tag, LineAt(text, i), ColAt(text, i), LineSpan(w))],
                        TokensFrom(text, format, i + 1, false, Some(Newline)))
    {
      NewlineTurn(text, format, i, prev, w, tag);
      TurnReads(text, format, i, false, prev, w, Label(Newline, tag, false), tag);
    }
  }

  lemma NewlineTrims(s: string)
    requires s == "newline"
    ensures Trim(s, PY_SPACE) == s
  {
    assert 'n' !in PY_SPACE && 'e' !in PY_SPACE;
    hide PY_SPACE, Trim;
    SolidTrims(s, PY_SPACE);
  }

  lemma EmptyTrims(s: string)
    requires s == ""
    ensures Trim(s, PY_SPACE) == ""
  {
    hide PY_SPACE;
  }

  lemma {:induction false} SpacesAre(text: string, i: nat, n: nat)
    requires i + n <= |text| && (forall k :: i <= k < i + n ==> text[k] == ' ')
    requires i + n < |text| ==> text[i + n] != ' '
    ensures Spaces(text, i) == text[i..i + n]
    decreases n
  {
    if n > 0 {
      SpacesAre(text, i + 1, n - 1);
      assert text[i..i + n] == " " + text[i + 1..i + n];
    }
  }

  /** Spaces are indentation after a line break and at the beginning, and white space elsewhere. */
  lemma SpacesRead(text: string, format: Format, i: nat, n: nat, prev: Option<Kind>)
    requires 1 <= n <= |text| - i && (forall k :: i <= k < i + n ==> text[k] == ' ')
    requires i + n < |text| ==> text[i + n] != ' '
    ensures var kind := if prev in {None, Some(Newline)} then Indent else Whitespace;
            TokensFrom(text, format, i, false, prev) ==
              Prepend([Tok(kind, text[i..i + n], "", LineAt(text, i), ColAt(text, i), LineSpan(text[i..i + n]))],
                      TokensFrom(text, format, i + n, false, Some(kind)))
  {
    hide Trim, PY_SPACE, LineAt, ColAt, LineSpan, TokensFrom, TakeTurn;
    var kind := if prev in {None, Some(Newline)} then Indent else Whitespace;
    var mark := Label(kind, "", false);
    SpacesTurn(text, format, i, n, prev);
    EmptyTrims(mark.tag);
    TurnReads(text, format, i, false, prev, text[i..i + n], mark, "");
  }

  lemma SpacesTurn(text: string, format: Format, i: nat, n: nat, prev: Option<Kind>)
    requires 1 <= n <= |text| - i && (forall k :: i <= k < i + n ==> text[k] == ' ')
    requires i + n < |text| ==> text[i + n] != ' '
    ensures TakeTurn(text, format, i, false, prev) ==
            Emit(text[i..i + n], Label(if prev in {None, Some(Newline)} then Indent else Whitespace, "", false))
  {
    hide Trim, PY_SPACE, TakeMarkup;
    SpacesAre(text, i, n);
  }

  lemma {:induction false} UntilEnds(s: string, n: nat, stops: set<char>)
    requires n <= |s| && (forall k :: 0 <= k < n ==> s[k] !in stops) && (n < |s| ==> s[n] in stops)
    ensures Until(s, stops) == s[..n]
  {
    if n > 0 {
      UntilEnds(s[1..], n - 1, stops);
      assert s[..n] == [s[0]] + s[1..][..n - 1];
    }
  }

  /** White space at the end of a text does not belong to it. */
  lemma {:induction false} RTrimDrops(s: string, gap: string, cs: set<char>)
    requires s != "" && s[|s| - 1] !in cs && Over(gap, cs)
    ensures RTrim(s + gap, cs) == s
  {
    if gap == "" {
      assert s + gap == s;
    } else {
      var n := |gap| - 1;
      assert (s + gap)[..|s| + n] == s + gap[..n];
      RTrimDrops(s, gap[..n], cs);
    }
  }

  /** Text runs to the next markup, without the white space at its end. */
  lemma TextReads(text: string, format: Format, i: nat, w: string, gap: string)
    requires w != "" && w[0] !in PY_SPACE && w[|w| - 1] !in PY_SPACE && Over(gap, PY_SPACE)
    requires forall k :: 0 <= k < |w| ==> w[k] !in {'{', '<'}
    requires LookingAt(text, i, w + gap)
    requires i + |w + gap| < |text| ==> text[i + |w + gap|] in {'{', '<'}
    ensures Reads(text, format, i, w, TextRun, "", false)
  {
    hide Until, Trim, PY_SPACE, LineAt, ColAt, LineSpan, TokensFrom, TakeTurn, LookingAt;
    TextStands(text, i, w, gap);
    RunIs(text, i, w, gap);
    TextTrims(w, gap);
    SolidIsText(w[0]);
    var mark := Label(TextRun, "", false);
    EmptyTrims(mark.tag);
    forall prev: Option<Kind>
      ensures TokensFrom(text, format, i, false, prev) ==
                Prepend([Tok(TextRun, w, "", LineAt(text, i), ColAt(text, i), LineSpan(w))],
                        TokensFrom(text, format, i + |w|, false, Some(TextRun)))
    {
      TextTurnIs(text, format, i, w, gap, prev);
      TurnReads(text, format, i, false, prev, w, mark, "");
    }
  }

  lemma SolidIsText(c: char)
    requires c !in PY_SPACE
    ensures c != ' ' && c != '\n'
  {
  }

  lemma TextTrims(w: string, gap: string)
    requires w != "" && w[0] !in PY_SPACE && w[|w| - 1] !in PY_SPACE && Over(gap, PY_SPACE)
    ensures Trim(w + gap, PY_SPACE) == w
  {
    hide PY_SPACE, Over;
    RTrimDrops(w, gap, PY_SPACE);
    assert (w + gap)[0] == w[0];
  }

  lemma TextStands(text: string, i: nat, w: string, gap: string)
    requires w != "" && LookingAt(text, i, w + gap)
    ensures i + |w| <= |text| && text[i] == w[0] && text[i..i + |w|] == w
  {
    Seen(text, i, w + gap);
    assert text[i + 0] == (w + gap)[0] == w[0];
    assert text[i..i + |w|] == (w + gap)[..|w|] == w;
  }

  lemma TextTurnIs(text: string, format: Format, i: nat, w: string, gap: string, prev: Option<Kind>)
    requires i < |text| && text[i] !in {'\n', ' ', '{', '<'} && w != ""
    requires Until(text[i..], {'{', '<'}) == w + gap && Trim(w + gap, PY_SPACE) == w
    ensures TakeTurn(text, format, i, false, prev) == Emit(w, Label(TextRun, "", false))
  {
    hide Trim, PY_SPACE, TakeMarkup, Until;
  }

  lemma RunIs(text: string, i: nat, w: string, gap: string)
    requires Over(gap, PY_SPACE) && forall k :: 0 <= k < |w| ==> w[k] !in {'{', '<'}
    requires LookingAt(text, i, w + gap)
    requires i + |w + gap| < |text| ==> text[i + |w + gap|] in {'{', '<'}
    ensures Until(text[i..], {'{', '<'}) == w + gap
  {
    var s, n := text[i..], |w + gap|;
    assert '{' !in PY_SPACE && '<' !in PY_SPACE;
    hide PY_SPACE;
    assert s[..n] == w + gap;
    forall k | 0 <= k < n
      ensures s[k] !in {'{', '<'}
    {
      assert s[k] == (w + gap)[k];
      assert k >= |w| ==> (w + gap)[k] == gap[k - |w|];
    }
    UntilEnds(s, n, {'{', '<'});
  }

  /** Code runs to the next angle bracket, and there it ends. */
  lemma CodeReads(text: string, format: Format, i: nat, w: string, prev: Option<Kind>)
    requires LookingAt(text, i, w) && '<' !in w && (i + |w| < |text| ==> text[i + |w|] == '<') && i < |text|
    ensures TokensFrom(text, format, i, true, prev) ==
            if w == "" then TokensFrom(text, format, i, false, prev)
            else Prepend([Tok(Code, w, "", LineAt(text, i), ColAt(text, i), LineSpan(w))],
                         TokensFrom(text, format, i + |w|, false, Some(Code)))
  {
    var s := text[i..];
    assert s[..|w|] == w;
    forall k | 0 <= k < |w|
      ensures s[k] != '<'
    {
      assert s[k] == w[k];
    }
    UntilEnds(s, |w|, {'<'});
    CodeTurnIs(text, format, i, w, prev);
    hide Until, Trim, PY_SPACE, LineAt, ColAt, LineSpan, TokensFrom, TakeTurn;
    if w == "" {
      OtherTurns(text, format, i, true, prev);
    } else {
      var mark := Label(Code, "", false);
      EmptyTrims(mark.tag);
      TurnReads(text, format, i, true, prev, w, mark, "");
    }
  }

  lemma CodeTurnIs(text: string, format: Format, i: nat, w: string, prev: Option<Kind>)
    requires i < |text| && Until(text[i..], {'<'}) == w
    ensures TakeTurn(text, format, i, true, prev) == if w == "" then EndCode else Emit(w, Label(Code, "", false))
  {
    hide Trim, PY_SPACE, TakeMarkup, Until, Classify;
  }

  // Whole templates

  /** A name without white space, quotes, slashes, marks, angle brackets or braces. */
  predicate Ordinary(name: string) {
    name != ""
    && forall k :: 0 <= k < |name| ==>
         name[k] !in PY_SPACE && name[k] !in {'"', '\'', '/', '!', '<', '>', '{', '}', '#', '*', '~', '%'}
  }

  /** A start tag and an end tag of the same name, on one line, are accepted, unless the end reads as an else. */
  lemma PairIsAccepted(s: Tok, e: Tok)
    requires StartsBlock(s) && EndsBlock(e) && s.tag == e.tag && s.line == e.line && s.kind != HtmlSingleton
    ensures MatchTags([s, e]).Ok? <==> (s.kind == HtmlStart ==> !Void(s.tag)) && s.tag != "else"
  {
    hide After, StartsBlock, EndsBlock, Void, OpenAt, EndFits;
    var ts := [s, e];
    FirstOfPair(ts);
    if After(ts, 1).Ok? {
      SecondOfPair(ts);
      AcceptedExactly(ts);
    } else {
      StopsAt(ts, 0);
    }
  }

  lemma FirstOfPair(ts: seq<Tok>)
    requires |ts| == 2 && StartsBlock(ts[0]) && ts[0].kind != HtmlSingleton
    ensures After(ts, 0).Ok? && (After(ts, 1).Ok? <==> (ts[0].kind == HtmlStart ==> !Void(ts[0].tag)))
    ensures After(ts, 1).Ok? ==> OpenAt(ts, 1, 0)
  {
    assert After(ts, 0) == Ok(INIT);
    hide After, StartsBlock, EndsBlock, Void, InForeign, OpenAt;
    NothingOpen(ts);
    KindsApart(ts[0]);
    VoidClosesItself(ts, 0);
    if ts[0].kind != HtmlStart {
      OthersAreAccepted(ts, 0);
    }
    if After(ts, 1).Ok? {
      OpenTagsChange(ts, 0, 0);
    }
  }

  lemma SecondOfPair(ts: seq<Tok>)
    requires |ts| == 2 && EndsBlock(ts[1]) && ts[0].tag == ts[1].tag && ts[0].line == ts[1].line
    requires After(ts, 1).Ok? && OpenAt(ts, 1, 0)
    ensures After(ts, 2).Ok? <==> EndFits(ts[0], ts[1])
    ensures ts[0].tag != "else" ==> EndFits(ts[0], ts[1])
    ensures After(ts, 2).Ok? ==>
              !OpenAt(ts, 2, 1) && (OpenAt(ts, 2, 0) <==> ts[1].tag == "else")
  {
    hide After, StartsBlock, EndsBlock, OpenAt, Trim, InnermostAt;
    KindsApart(ts[1]);
    OnlyFirst(ts);
    EndsFitTheInnermost(ts, 1);
    if After(ts, 2).Ok? {
      OpenTagsChange(ts, 1, 0);
      OpenTagsChange(ts, 1, 1);
    }
  }

  lemma KindsApart(t: Tok)
    ensures !(StartsBlock(t) && EndsBlock(t))
    ensures t.kind == HtmlStart ==> !EndsBlock(t)
  {
  }

  lemma NothingOpen(ts: seq<Tok>)
    requires After(ts, 0).Ok?
    ensures !InForeign(ts, 0)
  {
    hide After;
  }

  lemma OnlyFirst(ts: seq<Tok>)
    requires |ts| >= 1 && After(ts, 1).Ok? && OpenAt(ts, 1, 0)
    ensures forall j: nat :: InnermostAt(ts, 1, j) <==> j == 0
  {
    hide After, OpenAt;
  }

  /** Two pieces of markup that make up a text are its two tokens. */
  lemma TwoTokens(text: string, format: Format, v: string, w: string, kind: Kind, kind': Kind, tag: string, code: bool)
    requires text == v + w && w != "" && (code ==> w[0] == '<')
    requires Reads(text, format, 0, v, kind, tag, code) && Reads(text, format, |v|, w, kind', tag, false)
    ensures Tokenize(text, format) ==
            Tokens([Tok(kind, v, tag, LineAt(text, 0), ColAt(text, 0), LineSpan(v)),
                    Tok(kind', w, tag, LineAt(text, |v|), ColAt(text, |v|), LineSpan(w))])
  {
    hide LineAt, ColAt, LineSpan, TokensFrom;
    var s := Tok(kind, v, tag, LineAt(text, 0), ColAt(text, 0), LineSpan(v));
    var e := Tok(kind', w, tag, LineAt(text, |v|), ColAt(text, |v|), LineSpan(w));
    if code {
      assert text[|v|] == '<';
      CodeReads(text, format, |v|, "", Some(kind));
    }
    NothingMore(text, format, Some(kind'));
    assert TokensFrom(text, format, |v|, false, Some(kind)) == Prepend([e], Tokens([])) == Tokens([e] + []);
    assert [e] + [] == [e] && [s] + [e] == [s, e];
    assert TokensFrom(text, format, 0, false, None) == Prepend([s], Tokens([e]));
  }

  lemma NothingMore(text: string, format: Format, prev: Option<Kind>)
    ensures TokensFrom(text, format, |text|, false, prev) == Tokens([])
  {
  }

  /** Text without breaks is on one line. */
  lemma OneLine(text: string, i: nat)
    requires i <= |text| && '\n' !in text
    ensures LineAt(text, i) == 1
  {
    LinesOfLine(text[..i]);
  }

  lemma TwoAreTidy(s: Tok, e: Tok)
    requires s.kind !in {Indent, Whitespace, Newline} && e.kind !in {Indent, Whitespace, Newline}
    ensures Tidy([s, e])
  {
  }

  lemma OrdinaryIsNamed(name: string, rest: string)
    requires Ordinary(name) && (rest != "" ==> rest[0] in PY_SPACE)
    ensures Named(name, rest) && '\n' !in name && '}' !in name && '%' !in name
    ensures name[0] !in {'/', '!', '>', '#', '*'} && name[|name| - 1] !in {'/', '#', '~'}
    ensures Trim(name, PY_SPACE) == name
  {
    assert '\n' in PY_SPACE;
    hide PY_SPACE, Trim;
    SolidTrims(name, PY_SPACE);
  }

  lemma {:induction false} NoQuotes(u: string)
    requires '"' !in u && '>' !in u
    ensures Quoted(u)
  {
    QuoteFree(u);
  }

  lemma {:induction false} QuoteFree(u: string)
    requires '"' !in u
    ensures Quotes(u) == 0
  {
    if u != "" {
      QuoteFree(u[..|u| - 1]);
    }
  }

  lemma OrdinaryIsQuoted(name: string)
    requires Ordinary(name)
    ensures Quoted(name) && Quoted("/" + name) && Quoted(name + "/")
  {
    hide PY_SPACE;
    NoQuotes(name);
    NoQuotes("/" + name);
    NoQuotes(name + "/");
  }

  lemma {:induction false} QuotesJoin(a: string, b: string)
    ensures Quotes(a + b) == Quotes(a) + Quotes(b)
  {
    if b == "" {
      assert a + b == a;
    } else {
      var n := |b| - 1;
      assert (a + b)[..|a + b| - 1] == a + b[..n];
      QuotesJoin(a, b[..n]);
    }
  }

  /** An attribute in double quotes, whatever else it holds. */
  function Attribute(attr: string, value: string): string {
    " " + attr + "=" + ['"'] + value + ['"']
  }

  lemma QuotesBefore(before: string, part: string)
    requires '"' !in before && '"' !in part
    ensures Quotes(before + (['"'] + part)) == 1
    ensures Quotes(before + (['"'] + part) + ['"']) == 2
  {
    assert ['"'][..0] == "";
    assert Quotes(['"']) == 1;
    hide Quotes;
    QuoteFree(before);
    QuoteFree(part);
    QuotesJoin(['"'], part);
    QuotesJoin(before, ['"'] + part);
    QuotesJoin(before + (['"'] + part), ['"']);
  }

  lemma AttributeIsQuoted(name: string, attr: string, value: string)
    requires '"' !in name + attr + value && '>' !in name + attr
    ensures Quoted(name + Attribute(attr, value))
  {
    var before := name + " " + attr + "=";
    var u := before + (['"'] + value) + ['"'];
    assert u == name + Attribute(attr, value);
    QuotesBefore(before, value);
    hide Quotes, Attribute;
    forall k | 0 <= k < |u| && u[k] == '>'
      ensures Quotes(u[..k]) % 2 != 0
    {
      BracketIsInside(before, value, k);
    }
  }

  lemma BracketIsInside(before: string, value: string, k: nat)
    requires '"' !in before && '"' !in value && '>' !in before
    requires var u := before + (['"'] + value) + ['"']; k < |u| && u[k] == '>'
    ensures var u := before + (['"'] + value) + ['"']; Quotes(u[..k]) == 1
  {
    hide Quotes;
    var u := before + (['"'] + value) + ['"'];
    assert k > |before| by {
      assert forall i :: 0 <= i < |before| ==> u[i] == before[i];
      assert u[|before|] == '"';
    }
    assert k < |u| - 1;
    var part := value[..k - |before| - 1];
    assert u[..k] == before + (['"'] + part);
    QuotesBefore(before, part);
  }

  /** A quoted attribute belongs to its tag, closing brackets included. */
  lemma AttributeReads(text: string, format: Format, i: nat, name: string, attr: string, value: string)
    requires Ordinary(name) && '"' !in attr + value && '>' !in attr
    requires LookingAt(text, i, "<" + (name + Attribute(attr, value)) + ">")
    ensures Reads(text, format, i, "<" + (name + Attribute(attr, value)) + ">", HtmlStart, name, OpensCode(name))
  {
    hide PY_SPACE, Trim, Quoted, Named, LookingAt, Reads, Doctype, OpensCode, StartsWith;
    var rest := Attribute(attr, value);
    SpaceIsWhite();
    OrdinaryIsNamed(name, rest);
    OrdinaryHasNone(name);
    AttributeIsQuoted(name, attr, value);
    NoDoctype(name, rest + ">");
    assert name + rest + ">" == name + (rest + ">");
    StartTagReads(text, format, i, name, rest);
  }

  lemma OrdinaryHasNone(name: string)
    requires Ordinary(name)
    ensures '"' !in name && '>' !in name
  {
    hide PY_SPACE;
  }

  lemma NoDoctype(name: string, tail: string)
    requires name != "" && name[0] != '!'
    ensures !Doctype(name) && !StartsWith(name + tail, "!--")
  {
    assert (name + tail)[0] == name[0];
  }

  function Element(name: string): string {
    ("<" + (name + "") + ">") + ("</" + name + ">")
  }

  lemma ElementTokens(name: string, format: Format)
    requires Ordinary(name)
    ensures var v, w, text := "<" + (name + "") + ">", "</" + name + ">", Element(name);
            Tokenize(text, format) ==
              Tokens([Tok(HtmlStart, v, name, 1, ColAt(text, 0), LineSpan(v)),
                      Tok(HtmlEnd, w, name, 1, ColAt(text, |v|), LineSpan(w))])
  {
    hide LineAt, ColAt, LineSpan, Trim, PY_SPACE, Tokenize;
    var v, w, text := "<" + (name + "") + ">", "</" + name + ">", Element(name);
    OrdinaryIsNamed(name, "");
    OrdinaryIsQuoted(name);
    hide Ordinary, Named, Quoted;
    assert name + "" == name && name[|name| - 1] != '/';
    assert !Doctype(name) && !StartsWith(name + "" + ">", "!--") by {
      assert (name + "" + ">")[0] == name[0] != '!';
    }
    assert text[..|v|] == v && text[|v|..] == w && text[|v|..|v| + |w|] == w;
    StartTagReads(text, format, 0, name, "");
    EndTagReads(text, format, |v|, name);
    TwoTokens(text, format, v, w, HtmlStart, HtmlEnd, name, OpensCode(name));
    assert '\n' !in text;
    OneLine(text, 0);
    OneLine(text, |v|);
  }

  /** `<name></name>` passes every check exactly if the element is not void and not called else. */
  lemma ElementPasses(name: string, format: Format)
    requires Ordinary(name)
    ensures Passes(Element(name), format) <==> !Void(name) && name != "else"
  {
    ElementTokens(name, format);
    hide Tokenize, Tidy, MatchTags, Void, Ordinary, Element;
    var ts := Tokenize(Element(name), format).ts;
    TwoAreTidy(ts[0], ts[1]);
    PairIsAccepted(ts[0], ts[1]);
    assert ts == [ts[0], ts[1]];
  }

  /** `<name/>` passes exactly if the element is void. */
  lemma SingletonPasses(name: string, format: Format)
    requires Ordinary(name)
    ensures Passes("<" + (name + "" + "/") + ">", format) <==> Void(name)
  {
    hide LineAt, ColAt, LineSpan, Trim, PY_SPACE, Tokenize, MatchTags, Void;
    var w := "<" + (name + "" + "/") + ">";
    OrdinaryIsNamed(name, "");
    OrdinaryIsQuoted(name);
    hide Ordinary, Named, Quoted;
    assert name + "" == name;
    assert !Doctype(name) && !StartsWith(name + "" + "/>", "!--") by {
      assert (name + "" + "/>")[0] == name[0] != '!';
    }
    assert w[..|w|] == w && w[0..0 + |w|] == w;
    SingletonReads(w, format, 0, name, "");
    NothingMore(w, format, Some(HtmlSingleton));
    var t := Tok(HtmlSingleton, w, name, LineAt(w, 0), ColAt(w, 0), LineSpan(w));
    assert [t] + [] == [t];
    FromStart(w, format);
    assert TokensFrom(w, format, 0, false, None) == Prepend([t], Tokens([]));
    LoneSingleton(t);
  }

  lemma FromStart(text: string, format: Format)
    ensures Tokenize(text, format) == TokensFrom(text, format, 0, false, None)
  {
    hide TokensFrom;
  }

  lemma LoneSingleton(t: Tok)
    requires t.kind == HtmlSingleton
    ensures Tidy([t]) && (MatchTags([t]).Ok? <==> Void(t.tag))
  {
    var ts := [t];
    assert After(ts, 0) == Ok(INIT);
    NothingOpen(ts);
    VoidClosesItself(ts, 0);
    hide Void, InForeign, OpenAt;
    if After(ts, 1).Ok? {
      OpenTagsChange(ts, 0, 0);
    }
    AcceptedExactly(ts);
  }

  function Block(name: string): string {
    ("{{#" + (name + "") + "}}") + ("{{/" + name + "}}")
  }

  lemma BlockTokens(name: string)
    requires Ordinary(name)
    ensures var v, w, text := "{{#" + (name + "") + "}}", "{{/" + name + "}}", Block(name);
            Tokenize(text, Handlebars) ==
              Tokens([Tok(HandlebarsStart, v, name, 1, ColAt(text, 0), LineSpan(v)),
                      Tok(HandlebarsEnd, w, name, 1, ColAt(text, |v|), LineSpan(w))])
  {
    hide LineAt, ColAt, LineSpan, Trim, PY_SPACE, Tokenize;
    var v, w, text := "{{#" + (name + "") + "}}", "{{/" + name + "}}", Block(name);
    OrdinaryIsNamed(name, "");
    SolidTrims(name, {'/', '#', '~'});
    hide Ordinary, Named;
    assert name + "" == name;
    assert text[..|v|] == v && text[|v|..] == w && text[|v|..|v| + |w|] == w;
    BlockStartReads(text, Handlebars, 0, "{{#", name, "");
    BlockEndReads(text, |v|, name);
    TwoTokens(text, Handlebars, v, w, HandlebarsStart, HandlebarsEnd, name, false);
    assert '\n' !in text;
    OneLine(text, 0);
    OneLine(text, |v|);
  }

  /** `{{#name}}{{/name}}` passes exactly if it is not called else. */
  lemma BlockPasses(name: string)
    requires Ordinary(name)
    ensures Passes(Block(name), Handlebars) <==> name != "else"
  {
    BlockTokens(name);
    hide Tokenize, Tidy, MatchTags, Ordinary, Block;
    var ts := Tokenize(Block(name), Handlebars).ts;
    TwoAreTidy(ts[0], ts[1]);
    PairIsAccepted(ts[0], ts[1]);
    assert ts == [ts[0], ts[1]];
  }

  function Tag(name: string): string {
    ("{% " + (name + " ") + "%}") + ("{% end" + name + [' '] + "%}")
  }

  lemma TagTokens(name: string)
    requires Ordinary(name) && !Continues(name + " " + "%}")
    ensures var v, w, text := "{% " + (name + " ") + "%}", "{% end" + name + [' '] + "%}", Tag(name);
            Tokenize(text, Django) ==
              Tokens([Tok(DjangoStart, v, name, 1, ColAt(text, 0), LineSpan(v)),
                      Tok(DjangoEnd, w, name, 1, ColAt(text, |v|), LineSpan(w))])
  {
    hide LineAt, ColAt, LineSpan, Trim, PY_SPACE, Tokenize, Continues;
    var v, w, text := "{% " + (name + " ") + "%}", "{% end" + name + [' '] + "%}", Tag(name);
    SpaceIsWhite();
    OrdinaryIsNamed(name, " ");
    hide Ordinary, Named;
    assert text[..|v|] == v && text[|v|..] == w && text[|v|..|v| + |w|] == w;
    DjangoStartReads(text, 0, name, " ");
    assert StartKind(name + " ") == DjangoStart;
    DjangoEndReads(text, |v|, name, ' ');
    TwoTokens(text, Django, v, w, DjangoStart, DjangoEnd, name, false);
    assert '\n' !in text;
    OneLine(text, 0);
    OneLine(text, |v|);
  }

  lemma SpaceIsWhite()
    ensures ' ' in PY_SPACE
  {
  }

  predicate NamesBlock(name: string) {
    name in {"autoescape", "block", "comment", "for", "if", "ifequal", "macro", "verbatim", "blocktrans", "trans", "raw",
             "with"}
  }

  lemma NamedBlocks(t: Tok)
    requires t.kind == DjangoStart
    ensures StartsBlock(t) <==> NamesBlock(t.tag)
  {
  }

  /** `{% name %}{% endname %}` passes exactly if the name is that of a block. */
  lemma TagPasses(name: string)
    requires Ordinary(name) && !Continues(name + " " + "%}")
    ensures Passes(Tag(name), Django) <==> NamesBlock(name)
  {
    hide Tokenize, Tidy, MatchTags, Ordinary, Tag, Continues, NamesBlock, StartsBlock;
    TagTokens(name);
    var ts := Tokenize(Tag(name), Django).ts;
    TwoAreTidy(ts[0], ts[1]);
    NamedBlocks(ts[0]);
    TagPair(ts[0], ts[1]);
    assert ts == [ts[0], ts[1]];
  }

  lemma TagPair(s: Tok, e: Tok)
    requires s.kind == DjangoStart && e.kind == DjangoEnd && s.tag == e.tag && s.line == e.line
    ensures MatchTags([s, e]).Ok? <==> StartsBlock(s)
  {
    hide MatchTags, NamesBlock;
    if StartsBlock(s) {
      NamedBlocks(s);
      NoElseBlock(s.tag);
      PairIsAccepted(s, e);
    } else {
      EndAlone(s, e);
    }
  }

  lemma NoElseBlock(name: string)
    requires NamesBlock(name)
    ensures name != "else"
  {
  }

  /** An end tag without anything open is refused. */
  lemma EndAlone(s: Tok, e: Tok)
    requires s.kind == DjangoStart && !StartsBlock(s) && EndsBlock(e)
    ensures !MatchTags([s, e]).Ok?
  {
    var ts := [s, e];
    assert After(ts, 0) == Ok(INIT);
    hide After, StartsBlock, InForeign;
    NothingOpen(ts);
    NotAnEnd(s);
    OthersAreAccepted(ts, 0);
    OpenTagsChange(ts, 0, 0);
    EndsFitTheInnermost(ts, 1);
    hide OpenAt;
    StopsAt(ts, 1);
  }

  lemma NotAnEnd(t: Tok)
    requires t.kind == DjangoStart
    ensures !EndsBlock(t)
  {
  }
}
