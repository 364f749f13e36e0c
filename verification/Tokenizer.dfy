/** The tokenizer loop, and the theorem that it loses nothing: tokens tile the text they came from. */
module Tokenizer {
  import opened Text
  import opened Tokens
  import opened Scanners

  /** The branches of the tokenizer loop, in the order in which it tries them. */
  datatype Branch =
    | OnHtmlComment | OnHandlebarsComment | OnDjangoComment | OnPartial | OnPartialBlock | OnHtmlStart | OnHtmlEnd
    | OnHandlebarsElse | OnTripleStache | OnHandlebarsStart | OnHandlebarsEnd | OnDjangoElse | OnDjangoEnd
    | OnDjangoStart | OnJinja2End | OnJinja2Start | OnTemplateVar | OnNewline | OnSpaces | OnText

  function Classify(text: string, i: nat, format: Format): (b: Branch)
    requires i < |text|
    ensures b == OnNewline <==> text[i] == '\n'
    ensures b == OnSpaces <==> text[i] == ' '
    ensures b == OnText <==> text[i] !in {'\n', ' ', '{', '<'}
  {
    assert forall s: string :: s != "" && LookingAt(text, i, s) ==> text[i] == s[0] by {
      forall s: string | s != "" && LookingAt(text, i, s) ensures text[i] == s[0] {
        assert text[i..i + |s|][0] == text[i];
      }
    }
    if text[i] == '<' then
      if LookingAt(text, i, "<!--") then OnHtmlComment
      else if LookingAt(text, i, "</") then OnHtmlEnd
      else OnHtmlStart
    else if text[i] == '{' then
      if LookingAt(text, i, "{{!") then OnHandlebarsComment
      else if format == Django && LookingAt(text, i, "{#") then OnDjangoComment
      else if format == Handlebars && LookingAt(text, i, "{{>") then OnPartial
      else if format == Handlebars && LookingAt(text, i, "{{#>") then OnPartialBlock
      else if format == Handlebars && LookingAt(text, i, "{{else") then OnHandlebarsElse
      else if format == Handlebars && (LookingAt(text, i, "{{{") || LookingAt(text, i, "{{~{")) then OnTripleStache
      else if LookingAt(text, i, "{{#") || LookingAt(text, i, "{{^") || LookingAt(text, i, "{{~#") then
        OnHandlebarsStart
      else if format == Handlebars && (LookingAt(text, i, "{{/") || LookingAt(text, i, "{{~/")) then OnHandlebarsEnd
      else if format == Django && (LookingAt(text, i, "{% else") || LookingAt(text, i, "{% elif")
                                   || LookingAt(text, i, "{%- else") || LookingAt(text, i, "{%- elif")) then
        OnDjangoElse
      else if format == Django && LookingAt(text, i, "{% end") then OnDjangoEnd
      else if format == Django && LookingAt(text, i, "{% ") then OnDjangoStart
      else if format == Django && LookingAt(text, i, "{%- end") then OnJinja2End
      else if format == Django && LookingAt(text, i, "{%-") then OnJinja2Start
      else OnTemplateVar
    else if text[i] == '\n' then OnNewline
    else if text[i] == ' ' then OnSpaces
    else OnText
  }

  /** The test of each branch, whatever the branches before it say. */
  predicate LooksLike(b: Branch, text: string, i: nat, format: Format) {
    match b
    case OnHtmlComment => LookingAt(text, i, "<!--")
    case OnHandlebarsComment => LookingAt(text, i, "{{!")
    case OnDjangoComment => format == Django && LookingAt(text, i, "{#")
    case OnPartial => format == Handlebars && LookingAt(text, i, "{{>")
    case OnPartialBlock => format == Handlebars && LookingAt(text, i, "{{#>")
    case OnHtmlStart => LookingAt(text, i, "<") && !LookingAt(text, i, "</")
    case OnHtmlEnd => LookingAt(text, i, "</")
    case OnHandlebarsElse => format == Handlebars && LookingAt(text, i, "{{else")
    case OnTripleStache => format == Handlebars && (LookingAt(text, i, "{{{") || LookingAt(text, i, "{{~{"))
    case OnHandlebarsStart => LookingAt(text, i, "{{#") || LookingAt(text, i, "{{^") || LookingAt(text, i, "{{~#")
    case OnHandlebarsEnd => format == Handlebars && (LookingAt(text, i, "{{/") || LookingAt(text, i, "{{~/"))
    case OnDjangoElse =>
      format == Django && (LookingAt(text, i, "{% else") || LookingAt(text, i, "{% elif")
                           || LookingAt(text, i, "{%- else") || LookingAt(text, i, "{%- elif"))
    case OnDjangoEnd => format == Django && LookingAt(text, i, "{% end")
    case OnDjangoStart => format == Django && LookingAt(text, i, "{% ")
    case OnJinja2End => format == Django && LookingAt(text, i, "{%- end")
    case OnJinja2Start => format == Django && LookingAt(text, i, "{%-") && !LookingAt(text, i, "{%- end")
    case OnTemplateVar => LookingAt(text, i, "{")
    case OnNewline => LookingAt(text, i, "\n")
    case OnSpaces => LookingAt(text, i, " ")
    case OnText => true
  }

  /** The place of a branch in the chain. */
  function PlaceOf(b: Branch): nat {
    match b
    case OnHtmlComment => 0
    case OnHandlebarsComment => 1
    case OnDjangoComment => 2
    case OnPartial => 3
    case OnPartialBlock => 4
    case OnHtmlStart => 5
    case OnHtmlEnd => 6
    case OnHandlebarsElse => 7
    case OnTripleStache => 8
    case OnHandlebarsStart => 9
    case OnHandlebarsEnd => 10
    case OnDjangoElse => 11
    case OnDjangoEnd => 12
    case OnDjangoStart => 13
    case OnJinja2End => 14
    case OnJinja2Start => 15
    case OnTemplateVar => 16
    case OnNewline => 17
    case OnSpaces => 18
    case OnText => 19
  }

  lemma LooksAtFirst(text: string, i: nat, s: string)
    requires i < |text| && s != ""
    ensures LookingAt(text, i, s) ==> text[i] == s[0]
    ensures |s| == 1 && text[i] == s[0] ==> LookingAt(text, i, s)
  {
    if LookingAt(text, i, s) {
      assert text[i..i + |s|][0] == text[i];
    }
  }

  /** The tests of a branch start with its character. */
  lemma LooksFrom(b: Branch, text: string, i: nat, format: Format)
    requires i < |text| && LooksLike(b, text, i, format) && !b.OnText?
    ensures text[i] == (if PlaceOf(b) in {0, 5, 6} then '<'
                        else if b.OnNewline? then '\n'
                        else if b.OnSpaces? then ' '
                        else '{')
  {
    forall s: string | s != "" && LookingAt(text, i, s)
      ensures text[i] == s[0]
    {
      LooksAtFirst(text, i, s);
    }
    hide LookingAt;
  }

  lemma TakenLooks(text: string, i: nat, format: Format)
    requires i < |text|
    ensures LooksLike(Classify(text, i, format), text, i, format)
  {
    LooksAtFirst(text, i, "<");
    LooksAtFirst(text, i, "{");
    LooksAtFirst(text, i, "\n");
    LooksAtFirst(text, i, " ");
    hide LookingAt;
  }

  lemma TakenIsFirst(text: string, i: nat, format: Format, b: Branch)
    requires i < |text| && LooksLike(b, text, i, format)
    ensures PlaceOf(Classify(text, i, format)) <= PlaceOf(b)
  {
    if !b.OnText? {
      LooksFrom(b, text, i, format);
    }
    hide LookingAt;
  }

  /** Of the branches whose test holds, the first in the chain is taken. */
  lemma FirstBranchIsTaken(text: string, i: nat, format: Format, b: Branch)
    requires i < |text|
    ensures LooksLike(Classify(text, i, format), text, i, format)
    ensures LooksLike(b, text, i, format) ==> PlaceOf(Classify(text, i, format)) <= PlaceOf(b)
  {
    hide LooksLike, PlaceOf, Classify;
    TakenLooks(text, i, format);
    if LooksLike(b, text, i, format) {
      TakenIsFirst(text, i, format, b);
    }
  }

  predicate Markup(b: Branch) {
    !b.OnNewline? && !b.OnSpaces? && !b.OnText?
  }

  predicate Comment(b: Branch) {
    b.OnHtmlComment? || b.OnHandlebarsComment? || b.OnDjangoComment? || b.OnPartial? || b.OnPartialBlock?
  }

  /** A non-empty piece of the text from `i` on that ends in a closer. */
  predicate TakenAt(s: string, text: string, i: nat) {
    0 < |s| && i + |s| <= |text| && s == text[i..i + |s|] && s[|s| - 1] in {'}', '>'}
  }

  /** The text of a comment or partial. */
  function ScanClosed(b: Branch, text: string, i: nat): (r: Result<string>)
    requires i < |text| && Comment(b)
    ensures r.Ok? ==> TakenAt(r.value, text, i)
  {
    match b
    case OnHtmlComment => Closed(text, i, 7, "-->")
    case OnHandlebarsComment => Closed(text, i, 5, "}}")
    case OnDjangoComment => Closed(text, i, 4, "#}")
    case OnPartial | OnPartialBlock => Closed(text, i, 10, "}}")
  }

  predicate TagOrVar(b: Branch) {
    b.OnHtmlStart? || b.OnHtmlEnd? || b.OnTripleStache? || b.OnTemplateVar?
  }

  function ScanTag(b: Branch, text: string, i: nat): (r: Result<string>)
    requires i < |text| && TagOrVar(b)
    ensures r.Ok? ==> TakenAt(r.value, text, i)
  {
    match b
    case OnTripleStache => TripleStache(text, i)
    case OnTemplateVar => Var(text, i)
    case OnHtmlStart | OnHtmlEnd => HtmlTag(text, i)
  }

  /** The text of a tag of template logic. */
  function ScanLogic(b: Branch, text: string, i: nat): (r: Result<string>)
    requires i < |text| && Markup(b) && !Comment(b) && !TagOrVar(b)
    ensures r.Ok? ==> TakenAt(r.value, text, i)
  {
    match b
    case OnHandlebarsElse | OnHandlebarsStart | OnHandlebarsEnd => StopTag(text, i, i + 2, 2, '}')
    case OnJinja2Start => StopTag(text, i, i + 3, 1, '%')
    case OnDjangoElse | OnDjangoEnd | OnDjangoStart | OnJinja2End => StopTag(text, i, i + 2, 1, '%')
  }

  /** The text that a markup branch takes. */
  function Scan(b: Branch, text: string, i: nat): (r: Result<string>)
    requires i < |text| && Markup(b)
    ensures r.Ok? ==> TakenAt(r.value, text, i)
  {
    if Comment(b) then ScanClosed(b, text, i)
    else if TagOrVar(b) then ScanTag(b, text, i)
    else ScanLogic(b, text, i)
  }

  method ScanAt(b: Branch, text: string, i: nat) returns (r: Result<string>)
    requires i < |text| && Markup(b)
    ensures r == Scan(b, text, i)
  {
    match b
    case OnHtmlComment => r := GetClosed(text, i, 7, "-->");
    case OnHandlebarsComment => r := GetClosed(text, i, 5, "}}");
    case OnDjangoComment => r := GetClosed(text, i, 4, "#}");
    case OnPartial | OnPartialBlock => r := GetClosed(text, i, 10, "}}");
    case OnHtmlStart | OnHtmlEnd => r := GetHtmlTag(text, i);
    case OnTripleStache => r := GetHandlebarsTripleStacheTag(text, i);
    case OnHandlebarsElse | OnHandlebarsStart | OnHandlebarsEnd => r := GetHandlebarsTag(text, i);
    case OnDjangoElse | OnDjangoEnd | OnDjangoStart | OnJinja2End => r := GetDjangoTag(text, i, false);
    case OnJinja2Start => r := GetDjangoTag(text, i, true);
    case OnTemplateVar => r := GetTemplateVar(text, i);
  }

  /** How a piece of markup is recorded, and whether the text after it is a code block. */
  datatype Label = Label(kind: Kind, tag: string, opensCode: bool)

  function Labelled(kind: Kind, tag: string): Result<Label> {
    Ok(Label(kind, tag, false))
  }

  /** A mark whose tag is the first word of `body`; `split()[0]` fails when there is none. */
  function WordLabel(kind: Kind, body: string): Result<Label> {
    match FirstWord(body)
    case None => Raise(IndexError)
    case Some(w) => Labelled(kind, w)
  }

  function HtmlStartLabel(s: string): Result<Label> {
    var closed := EndsWith(s, "/>");
    match FirstWord(Mid(s, 1, if closed then 2 else 1))
    case None => Raise(TemplateParser)
    case Some(tag) =>
      var kind :=
        if tag == "!DOCTYPE" || tag == "!doctype" then HtmlDoctype
        else if closed then HtmlSingleton
        else HtmlStart;
      Ok(Label(kind, tag, tag in {"code", "pre", "script"}))
  }

  function TripleStacheLabel(s: string): Result<Label> {
    var before := if StartsWith(s, "{{~{") then 4 else 3;
    var after := if EndsWith(s, "}~}}") then 4 else 3;
    var tag := Trim(Mid(s, before, after), PY_SPACE);
    if EndsWith(tag, "_html") then Labelled(HandlebarsTripleStache, tag) else Raise(TemplateParser)
  }

  function LabelOf(b: Branch, s: string): (r: Result<Label>)
    requires Markup(b)
    ensures r.Ok? ==> r.value.kind !in {Code, Newline, Indent, Whitespace, TextRun}
  {
    match b
    case OnHtmlComment => Labelled(HtmlComment, Mid(s, 4, 3))
    case OnHandlebarsComment => Labelled(HandlebarsComment, Mid(s, 3, 2))
    case OnDjangoComment => Labelled(DjangoComment, Mid(s, 2, 2))
    case OnPartial => Labelled(HandlebarsPartial, Mid(s, 9, 2))
    case OnPartialBlock => WordLabel(HandlebarsPartialBlock, Mid(s, 5, 2))
    case OnHtmlStart => HtmlStartLabel(s)
    case OnHtmlEnd => Labelled(HtmlEnd, Mid(s, 2, 1))
    case OnHandlebarsElse => Labelled(HandlebarsElse, "else")
    case OnTripleStache => TripleStacheLabel(s)
    case OnHandlebarsStart =>
      (match FirstWord(Mid(s, 3, 2))
       case None => Raise(IndexError)
       case Some(w) => Labelled(HandlebarsStart, RemovePrefix(Trim(w, {'#'}), "*")))
    case OnHandlebarsEnd => Labelled(HandlebarsEnd, Trim(Mid(s, 3, 2), {'/', '#', '~'}))
    case OnDjangoElse => Labelled(DjangoElse, "else")
    case OnDjangoEnd => Labelled(DjangoEnd, Mid(s, 6, 3))
    case OnDjangoStart =>
      WordLabel(if |s| >= 3 && s[|s| - 3] == '-' then Jinja2StrippedStart else DjangoStart, Mid(s, 3, 2))
    case OnJinja2End => Labelled(Jinja2StrippedEnd, Mid(s, 7, 3))
    case OnJinja2Start => WordLabel(Jinja2StrippedType2Start, Mid(s, 3, 3))
    case OnTemplateVar => Labelled(TemplateVar, "var")
  }

  /** One turn of the tokenizer loop: a token, the `continue` after an empty code block, the `continue`
      that changes nothing and so repeats for ever, or an exception. */
  datatype Turn = Emit(s: string, mark: Label) | EndCode | Stuck | Fail(error: Error)

  function TakeMarkup(b: Branch, text: string, i: nat): (t: Turn)
    requires i < |text| && Markup(b)
    ensures t.Emit? || t.Fail?
    ensures t.Emit? ==> 0 < |t.s| <= |text| - i && t.s == text[i..i + |t.s|] && t.s[|t.s| - 1] in {'}', '>'}
    ensures t.Emit? ==> t.mark.kind !in {Code, Newline, Indent, Whitespace, TextRun}
  {
    match Scan(b, text, i)
    case Raise(e) => Fail(e)
    case Ok(s) =>
      match LabelOf(b, s)
      case Raise(e) => Fail(e)
      case Ok(mark) => Emit(s, mark)
  }

  function TakeTurn(text: string, format: Format, i: nat, inCode: bool, prev: Option<Kind>): (t: Turn)
    requires i < |text|
    ensures t.Emit? ==> 0 < |t.s| <= |text| - i
    ensures t.EndCode? ==> inCode
  {
    if inCode then
      var s := Until(text[i..], {'<'});
      if s == "" then EndCode else Emit(s, Label(Code, "", false))
    else
      var b := Classify(text, i, format);
      if b.OnNewline? then Emit("\n", Label(Newline, "newline", false))
      else if b.OnSpaces? then
        Emit(Spaces(text, i), Label(if prev.None? || prev.value == Newline then Indent else Whitespace, "", false))
      else if b.OnText? then
        var s := Trim(Until(text[i..], {'{', '<'}), PY_SPACE);
        if s == "" then Stuck else Emit(s, Label(TextRun, "", false))
      else TakeMarkup(b, text, i)
  }

  // Positions

  /** The line of index `i`, counted from 1: how many lines the text before it has. */
  function LineAt(text: string, i: nat): nat
    requires i <= |text|
  {
    |Lines(text[..i])|
  }

  /** The column of index `i`, counted from 1: how much of its line lies before it. */
  function ColAt(text: string, i: nat): nat
    requires i <= |text|
  {
    var ls := Lines(text[..i]);
    |ls[|ls| - 1]| + 1
  }

  lemma PositionStep(text: string, i: nat)
    requires i < |text|
    ensures LineAt(text, i + 1) == LineAt(text, i) + if text[i] == '\n' then 1 else 0
    ensures ColAt(text, i + 1) == if text[i] == '\n' then 1 else ColAt(text, i) + 1
  {
    var c := [text[i]];
    assert text[..i + 1] == text[..i] + c;
    LinesAppend(text[..i], c);
    assert c[1..] == "";
    assert Lines("") == [""];
    if text[i] == '\n' {
      assert Lines(c) == [""] + Lines(c[1..]);
    } else {
      LinesOfLine(c);
    }
  }

  function MakeTok(text: string, i: nat, turn: Turn): Tok
    requires i <= |text| && turn.Emit?
  {
    Tok(turn.mark.kind, turn.s, Trim(turn.mark.tag, PY_SPACE), LineAt(text, i), ColAt(text, i), LineSpan(turn.s))
  }

  function Located(text: string, i: nat, e: Error): Error
    requires i <= |text|
  {
    if e.Tokenization? then Formatted(LineAt(text, i), ColAt(text, i)) else e
  }

  /** What becomes of tokenizing. */
  datatype Lexed = Tokens(ts: seq<Tok>) | Raises(error: Error) | Diverges

  function Prepend(t: seq<Tok>, rest: Lexed): Lexed {
    if rest.Tokens? then Tokens(t + rest.ts) else rest
  }

  /** The rest of the tokenizer loop from index `i`. */
  function TokensFrom(text: string, format: Format, i: nat, inCode: bool, prev: Option<Kind>): Lexed
    requires i <= |text|
    decreases |text| - i, if inCode then 1 else 0
  {
    if i == |text| then Tokens([])
    else
      var turn := TakeTurn(text, format, i, inCode, prev);
      match turn
      case EndCode => TokensFrom(text, format, i, false, prev)
      case Stuck => Diverges
      case Fail(e) => Raises(Located(text, i, e))
      case Emit(s, mark) =>
        Prepend([MakeTok(text, i, turn)],
                TokensFrom(text, format, i + |s|, mark.opensCode, Some(mark.kind)))
  }

  function Tokenize(text: string, format: Format): Lexed {
    TokensFrom(text, format, 0, false, None)
  }

  /** The position the tokenizer has reached. */
  class TokenizerState {
    var i: nat
    var line: nat
    var col: nat

    constructor ()
      ensures i == 0 && line == 1 && col == 1
    {
      i, line, col := 0, 1, 1;
    }

    ghost predicate At(text: string)
      reads this
    {
      i <= |text| && line == LineAt(text, i) && col == ColAt(text, i)
    }

    method Advance(text: string, n: nat)
      requires At(text) && i + n <= |text|
      modifies this
      ensures At(text) && i == old(i) + n
    {
      var k := 0;
      while k < n
        invariant 0 <= k <= n && i == old(i) + k && At(text)
      {
        PositionStep(text, i);
        i := i + 1;
        if text[i - 1] == '\n' {
          line := line + 1;
          col := 1;
        } else {
          col := col + 1;
        }
        k := k + 1;
      }
    }
  }

  method TakeTurnAt(text: string, format: Format, i: nat, inCode: bool, prev: Option<Kind>) returns (t: Turn)
    requires i < |text|
    ensures t == TakeTurn(text, format, i, inCode, prev)
  {
    if inCode {
      var s := GetRun(text, i, {'<'});
      return if s == "" then EndCode else Emit(s, Label(Code, "", false));
    }
    var b := Classify(text, i, format);
    if b.OnNewline? {
      t := Emit("\n", Label(Newline, "newline", false));
    } else if b.OnSpaces? {
      var s := GetSpaces(text, i);
      t := Emit(s, Label(if prev.None? || prev.value == Newline then Indent else Whitespace, "", false));
    } else if b.OnText? {
      var s := GetText(text, i);
      t := if s == "" then Stuck else Emit(s, Label(TextRun, "", false));
    } else {
      var r := ScanAt(b, text, i);
      if r.Raise? {
        return Fail(r.error);
      }
      var mark := LabelOf(b, r.value);
      t := if mark.Raise? then Fail(mark.error) else Emit(r.value, mark.value);
    }
  }

  /** How the rest of the loop unfolds by one turn, given the tokens made so far. */
  lemma Unfold(text: string, format: Format, i: nat, inCode: bool, prev: Option<Kind>, ts: seq<Tok>, turn: Turn)
    requires i < |text| && turn == TakeTurn(text, format, i, inCode, prev)
    ensures var before := Prepend(ts, TokensFrom(text, format, i, inCode, prev));
            match turn
            case EndCode => before == Prepend(ts, TokensFrom(text, format, i, false, prev))
            case Stuck => before == Diverges
            case Fail(e) => before == Raises(Located(text, i, e))
            case Emit(s, mark) => before == Prepend(
              ts + [MakeTok(text, i, turn)], TokensFrom(text, format, i + |s|, mark.opensCode, Some(mark.kind)))
  {
    hide TakeTurn, MakeTok, Located;
    if turn.Emit? {
      var rest := TokensFrom(text, format, i + |turn.s|, turn.mark.opensCode, Some(turn.mark.kind));
      if rest.Tokens? {
        assert ts + ([MakeTok(text, i, turn)] + rest.ts) == ts + [MakeTok(text, i, turn)] + rest.ts;
      }
    }
  }

  lemma AtEnd(text: string, format: Format, i: nat, inCode: bool, prev: Option<Kind>, ts: seq<Tok>)
    requires i == |text|
    ensures Prepend(ts, TokensFrom(text, format, i, inCode, prev)) == Tokens(ts)
  {
    assert ts + [] == ts;
  }

  /** What the tokenizer hands to its caller. */
  datatype Tokenized = Made(tokens: seq<Token>) | Raised(error: Error) | Loops

  method MakeToken(text: string, state: TokenizerState, turn: Turn) returns (token: Token)
    requires state.At(text) && turn.Emit? && |turn.s| <= |text| - state.i
    modifies state
    ensures fresh(token) && token.Pristine() && token.kind == turn.mark.kind
    ensures token.View() == MakeTok(text, old(state.i), turn)
    ensures state.At(text) && state.i == old(state.i) + |turn.s|
  {
    hide LineAt, ColAt, LineSpan, Trim, PY_SPACE;
    token := new Token(
      turn.mark.kind, turn.s, Trim(turn.mark.tag, PY_SPACE), state.line, state.col, LineSpan(turn.s));
    state.Advance(text, |turn.s|);
  }

  /** The tokenizer loop. It ends on every text except where the source would loop for ever. */
  method RunTokenizer(text: string, format: Format) returns (r: Tokenized)
    ensures r.Made? <==> Tokenize(text, format).Tokens?
    ensures r.Made? ==> Views(r.tokens) == Tokenize(text, format).ts && Distinct(r.tokens)
    ensures r.Made? ==> forall k :: 0 <= k < |r.tokens| ==> fresh(r.tokens[k]) && r.tokens[k].Pristine()
    ensures r.Raised? <==> Tokenize(text, format) == Raises(if r.Raised? then r.error else IndexError)
    ensures r.Loops? <==> Tokenize(text, format).Diverges?
  {
    hide TakeTurn, TokensFrom, MakeTok;
    var state := new TokenizerState();
    var inCode := false;
    var tokens: seq<Token> := [];
    assert Lines(text[..0]) == [""];
    while state.i < |text|
      invariant fresh(state) && state.At(text) && Distinct(tokens)
      invariant forall k :: 0 <= k < |tokens| ==> fresh(tokens[k]) && tokens[k].Pristine()
      invariant Tokenize(text, format)
             == Prepend(Views(tokens), TokensFrom(text, format, state.i, inCode, LastKind(tokens)))
      decreases |text| - state.i, inCode
    {
      var turn := TakeTurnAt(text, format, state.i, inCode, LastKind(tokens));
      Unfold(text, format, state.i, inCode, LastKind(tokens), Views(tokens), turn);
      if turn.EndCode? {
        inCode := false;
      } else if turn.Stuck? {
        return Loops;
      } else if turn.Fail? {
        return Raised(if turn.error.Tokenization? then Formatted(state.line, state.col) else turn.error);
      } else {
        inCode := turn.mark.opensCode;
        var token := MakeToken(text, state, turn);
        ViewsAppend(tokens, token);
        tokens := tokens + [token];
      }
    }
    AtEnd(text, format, state.i, inCode, LastKind(tokens), Views(tokens));
    r := Made(tokens);
  }

  function LastKind(tokens: seq<Token>): Option<Kind> {
    if tokens == [] then None else Some(tokens[|tokens| - 1].kind)
  }

  // Losslessness

  /** What every token looks like when the text has no odd white space. */
  ghost predicate Shaped(prev: Option<Kind>, t: Tok) {
    && t.s != ""
    && t.lineSpan == LineSpan(t.s)
    && (t.kind == Newline ==> t.s == "\n")
    && (t.kind == Indent ==> Over(t.s, BLANK) && (prev.None? || prev.value == Newline))
    && (t.kind == Whitespace ==> Over(t.s, BLANK) && prev.Some? && prev.value != Newline)
    && (t.kind !in {Code, Newline, Indent, Whitespace} ==> t.s[|t.s| - 1] !in PY_SPACE)
  }

  /** The token is the piece of text at `i`, and records that place. */
  ghost predicate CutAt(text: string, i: nat, t: Tok) {
    && i + |t.s| <= |text|
    && t.s == text[i..i + |t.s|]
    && t.line == LineAt(text, i)
    && t.col == ColAt(text, i)
  }

  /** The tokens cover the text from `i` on, in order. */
  ghost predicate Tiles(text: string, i: nat, prev: Option<Kind>, ts: seq<Tok>)
    decreases |ts|
  {
    if ts == [] then i == |text|
    else
      && CutAt(text, i, ts[0])
      && Shaped(prev, ts[0])
      && Tiles(text, i + |ts[0].s|, Some(ts[0].kind), ts[1..])
  }

  lemma TextTurn(text: string, i: nat)
    requires i < |text| && text[i] !in {'{', '<'} && text[i] !in PY_SPACE
    ensures var s := Trim(Until(text[i..], {'{', '<'}), PY_SPACE);
            && 0 < |s| <= |text| - i
            && s == text[i..i + |s|]
            && s[|s| - 1] !in PY_SPACE
  {
    var run := Until(text[i..], {'{', '<'});
    assert text[i..][0] == text[i];
    assert run[0] == text[i];
    assert LTrim(run, PY_SPACE) == run;
    RTrimKeeps(run, PY_SPACE);
  }

  lemma {:induction false} RTrimKeeps(s: string, cs: set<char>)
    requires s != "" && s[0] !in cs
    ensures RTrim(s, cs) != ""
  {
    if |s| > 1 && s[|s| - 1] in cs {
      RTrimKeeps(s[..|s| - 1], cs);
    }
  }

  lemma PlainAt(text: string, i: nat)
    requires Plain(text) && i < |text| && text[i] != ' ' && text[i] != '\n'
    ensures text[i] !in PY_SPACE
  {
  }

  /** A token cut from the text where it stands. */
  lemma CutIsShaped(text: string, i: nat, prev: Option<Kind>, turn: Turn)
    requires turn.Emit? && 0 < |turn.s| <= |text| - i && turn.s == text[i..i + |turn.s|]
    requires turn.mark.kind == Newline ==> turn.s == "\n"
    requires turn.mark.kind == Indent ==> Over(turn.s, BLANK) && (prev.None? || prev.value == Newline)
    requires turn.mark.kind == Whitespace ==> Over(turn.s, BLANK) && prev.Some? && prev.value != Newline
    requires turn.mark.kind !in {Code, Newline, Indent, Whitespace} ==> turn.s[|turn.s| - 1] !in PY_SPACE
    ensures CutAt(text, i, MakeTok(text, i, turn)) && Shaped(prev, MakeTok(text, i, turn))
  {
    hide LineAt, ColAt, LineSpan, Trim, PY_SPACE, Over;
  }

  lemma TurnIsLossless(text: string, format: Format, i: nat, inCode: bool, prev: Option<Kind>)
    requires i < |text| && Plain(text)
    ensures var turn := TakeTurn(text, format, i, inCode, prev);
            && !turn.Stuck?
            && (turn.Emit? ==> CutAt(text, i, MakeTok(text, i, turn)) && Shaped(prev, MakeTok(text, i, turn)))
  {
    hide Classify, TakeMarkup, LineAt, ColAt, LineSpan, Trim, Until, PY_SPACE, Plain, CutAt, Shaped, MakeTok;
    var b := Classify(text, i, format);
    var turn := TakeTurn(text, format, i, inCode, prev);
    if inCode {
      var s := Until(text[i..], {'<'});
      assert text[i..][..|s|] == text[i..i + |s|];
    } else if b.OnText? {
      PlainAt(text, i);
      TextTurn(text, i);
    } else if b.OnNewline? {
      assert text[i..i + 1] == "\n";
    } else if !b.OnSpaces? {
      ClosersAreSolid();
    }
    if turn.Emit? {
      CutIsShaped(text, i, prev, turn);
    }
  }

  lemma ClosersAreSolid()
    ensures '}' !in PY_SPACE && '>' !in PY_SPACE
  {
  }

  lemma TilesOneMore(text: string, i: nat, prev: Option<Kind>, t: Tok, rest: seq<Tok>)
    requires CutAt(text, i, t) && Shaped(prev, t) && Tiles(text, i + |t.s|, Some(t.kind), rest)
    ensures Tiles(text, i, prev, [t] + rest)
  {
    hide CutAt, Shaped;
    assert ([t] + rest)[1..] == rest;
  }

  /** How the tokens of the rest follow from those after one turn. */
  lemma TurnTokens(text: string, format: Format, i: nat, inCode: bool, prev: Option<Kind>)
    requires i < |text| && TakeTurn(text, format, i, inCode, prev).Emit?
    ensures var turn := TakeTurn(text, format, i, inCode, prev);
            TokensFrom(text, format, i, inCode, prev) ==
              Prepend([MakeTok(text, i, turn)],
                      TokensFrom(text, format, i + |turn.s|, turn.mark.opensCode, Some(turn.mark.kind)))
  {
    hide TakeTurn, MakeTok;
  }

  lemma OtherTurns(text: string, format: Format, i: nat, inCode: bool, prev: Option<Kind>)
    requires i <= |text| && (i < |text| ==> !TakeTurn(text, format, i, inCode, prev).Emit?)
    requires i < |text| ==> !TakeTurn(text, format, i, inCode, prev).Stuck?
    ensures var r := TokensFrom(text, format, i, inCode, prev);
            if i == |text| then r == Tokens([])
            else if TakeTurn(text, format, i, inCode, prev).EndCode? then r == TokensFrom(text, format, i, false, prev)
            else r.Raises?
  {
    hide TakeTurn, MakeTok;
  }

  /** A turn fails only at markup. */
  lemma OnlyMarkupFails(text: string, format: Format, i: nat, inCode: bool, prev: Option<Kind>)
    requires i < |text| && TakeTurn(text, format, i, inCode, prev).Fail?
    ensures !inCode && text[i] in {'{', '<'}
  {
    hide Scan, LabelOf;
  }

  /** Where the loop fails at: markup that cannot be read, with the place of it in the error. */
  ghost predicate FailsAt(text: string, format: Format, error: Error, j: nat, prev: Option<Kind>)
    requires j < |text|
  {
    && text[j] in {'{', '<'} && TakeTurn(text, format, j, false, prev).Fail?
    && error == if TakeTurn(text, format, j, false, prev).error.Tokenization? then
                  Formatted(|Lines(text[..j])|, |Lines(text[..j])[|Lines(text[..j])| - 1]| + 1)
                else TakeTurn(text, format, j, false, prev).error
  }

  /** Every error is that of a piece of markup, and a tokenization error names its line and column, from 1. */
  lemma {:induction false} FaultsAreLocated(text: string, format: Format, i: nat, inCode: bool, prev: Option<Kind>)
    requires i <= |text| && TokensFrom(text, format, i, inCode, prev).Raises?
    ensures exists j: nat, p ::
              i <= j < |text| && FailsAt(text, format, TokensFrom(text, format, i, inCode, prev).error, j, p)
    decreases |text| - i, inCode
  {
    hide TakeTurn, MakeTok, FailsAt;
    if i < |text| {
      var turn := TakeTurn(text, format, i, inCode, prev);
      Unfold(text, format, i, inCode, prev, [], turn);
      match turn
      case EndCode => FaultsAreLocated(text, format, i, false, prev);
      case Stuck =>
      case Fail(e) =>
        FailsHere(text, format, i, inCode, prev);
      case Emit(s, mark) =>
        FaultsAreLocated(text, format, i + |s|, mark.opensCode, Some(mark.kind));
    }
  }

  lemma FailsHere(text: string, format: Format, i: nat, inCode: bool, prev: Option<Kind>)
    requires i < |text| && TakeTurn(text, format, i, inCode, prev).Fail?
    ensures FailsAt(text, format, TokensFrom(text, format, i, inCode, prev).error, i, prev)
  {
    OnlyMarkupFails(text, format, i, inCode, prev);
    hide TakeTurn;
  }

  lemma {:induction false} TokensTile(text: string, format: Format, i: nat, inCode: bool, prev: Option<Kind>)
    requires i <= |text| && Plain(text)
    ensures var r := TokensFrom(text, format, i, inCode, prev);
            !r.Diverges? && (r.Tokens? ==> Tiles(text, i, prev, r.ts))
    decreases |text| - i, inCode
  {
    hide TakeTurn, TokensFrom, Shaped, CutAt, LineSpan, LineAt, ColAt, Tiles, Plain;
    if i == |text| {
      OtherTurns(text, format, i, inCode, prev);
      NothingTiles(text, prev);
    } else {
      TurnIsLossless(text, format, i, inCode, prev);
      var turn := TakeTurn(text, format, i, inCode, prev);
      if turn.Emit? {
        TokensTile(text, format, i + |turn.s|, turn.mark.opensCode, Some(turn.mark.kind));
        TurnTokens(text, format, i, inCode, prev);
        var rest := TokensFrom(text, format, i + |turn.s|, turn.mark.opensCode, Some(turn.mark.kind));
        if rest.Tokens? {
          TilesOneMore(text, i, prev, MakeTok(text, i, turn), rest.ts);
        }
      } else {
        OtherTurns(text, format, i, inCode, prev);
        if turn.EndCode? {
          TokensTile(text, format, i, false, prev);
        }
      }
    }
  }

  lemma NothingTiles(text: string, prev: Option<Kind>)
    ensures Tiles(text, |text|, prev, [])
  {
  }

  function Pieces(ts: seq<Tok>): (r: seq<string>)
    ensures |r| == |ts| && forall k :: 0 <= k < |ts| ==> r[k] == ts[k].s
  {
    seq(|ts|, k requires 0 <= k < |ts| => ts[k].s)
  }

  /** Where token `k` starts in the text the tokens were cut from. */
  function OffsetOf(ts: seq<Tok>, k: nat): nat
    requires k <= |ts|
  {
    |Concat(Pieces(ts[..k]))|
  }

  lemma PiecesCons(ts: seq<Tok>, k: nat)
    requires 0 < k <= |ts|
    ensures Concat(Pieces(ts[..k])) == ts[0].s + Concat(Pieces(ts[1..][..k - 1]))
  {
    assert Pieces(ts[..k])[1..] == Pieces(ts[1..][..k - 1]);
  }

  lemma {:induction false} TilesCover(text: string, i: nat, prev: Option<Kind>, ts: seq<Tok>)
    requires i <= |text| && Tiles(text, i, prev, ts)
    ensures Concat(Pieces(ts)) == text[i..]
    decreases |ts|
  {
    hide Shaped, LineAt, ColAt;
    if ts != [] {
      TilesCover(text, i + |ts[0].s|, Some(ts[0].kind), ts[1..]);
      assert ts[..|ts|] == ts && ts[1..][..|ts| - 1] == ts[1..];
      PiecesCons(ts, |ts|);
      assert text[i..] == text[i..i + |ts[0].s|] + text[i + |ts[0].s|..];
    }
  }

  ghost function PrevKind(ts: seq<Tok>, k: nat, prev: Option<Kind>): Option<Kind>
    requires k <= |ts|
  {
    if k == 0 then prev else Some(ts[k - 1].kind)
  }

  lemma {:induction false} TilesAt(text: string, i: nat, prev: Option<Kind>, ts: seq<Tok>, k: nat)
    requires i <= |text| && Tiles(text, i, prev, ts) && k < |ts|
    ensures CutAt(text, i + OffsetOf(ts, k), ts[k])
    ensures Shaped(PrevKind(ts, k, prev), ts[k])
    decreases k
  {
    hide Shaped, LineAt, ColAt;
    if k > 0 {
      TilesAt(text, i + |ts[0].s|, Some(ts[0].kind), ts[1..], k - 1);
      PiecesCons(ts, k);
    } else {
      assert Pieces(ts[..0]) == [];
    }
  }

  /** Tokenizing is lossless. On plain text the loop always ends, and when it returns, the tokens are
      non-empty, spell out the text, and carry the line and column at which they start. */
  lemma TokenizingIsLossless(text: string, format: Format)
    requires Plain(text)
    ensures var r := Tokenize(text, format);
            && !r.Diverges?
            && (r.Tokens? ==>
                  && Concat(Pieces(r.ts)) == text
                  && forall k :: 0 <= k < |r.ts| ==>
                       && r.ts[k].s != ""
                       && OffsetOf(r.ts, k) <= |text|
                       && r.ts[k].line == LineAt(text, OffsetOf(r.ts, k))
                       && r.ts[k].col == ColAt(text, OffsetOf(r.ts, k)))
  {
    hide LineAt, ColAt, Pieces, TokensFrom, Tiles, OffsetOf, Concat, Plain;
    TokensTile(text, format, 0, false, None);
    var r := Tokenize(text, format);
    if r.Tokens? {
      TilesCover(text, 0, None, r.ts);
      assert text[0..] == text;
      forall k | 0 <= k < |r.ts|
        ensures && r.ts[k].s != ""
                && OffsetOf(r.ts, k) <= |text|
                && r.ts[k].line == LineAt(text, OffsetOf(r.ts, k))
                && r.ts[k].col == ColAt(text, OffsetOf(r.ts, k))
      {
        TilesAt(text, 0, None, r.ts, k);
      }
    }
  }

  // Why the text must be plain

  /** A lone tab trims to nothing, so the loop repeats for ever. */
  lemma TabHangs(format: Format)
    ensures Tokenize("\t", format).Diverges?
  {
    var text := "\t";
    assert text[0..] == text;
    assert Until(text, {'{', '<'}) == text by {
      assert Until(text[1..], {'{', '<'}) == "";
    }
    assert LTrim(text, PY_SPACE) == LTrim(text[1..], PY_SPACE) == "";
    assert TakeTurn(text, format, 0, false, None).Stuck?;
  }
}
