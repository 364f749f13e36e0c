/** Tokens of a template file, the errors the template tools raise, and the tag vocabulary. */
module Tokens {
  import opened Text

  /** The exceptions of the template tools. `Formatted` is a tokenizer error with its place, and
      `Unexpected` the assertion that an end tag was not expected where it stands. */
  datatype Error =
    | Tokenization
    | Formatted(line: nat, col: nat)
    | TemplateParser
    | IndexError
    | AssertionError
    | Unexpected

  datatype Result<+T> = Ok(value: T) | Raise(error: Error)

  datatype Format = NoFormat | Django | Handlebars

  datatype Kind =
    | Code | HtmlComment | HandlebarsComment | DjangoComment | HandlebarsPartial | HandlebarsPartialBlock
    | HtmlDoctype | HtmlSingleton | HtmlStart | HtmlEnd | HandlebarsElse | HandlebarsTripleStache
    | HandlebarsStart | HandlebarsEnd | DjangoElse | DjangoEnd | DjangoStart | Jinja2StrippedStart
    | Jinja2StrippedEnd | Jinja2StrippedType2Start | TemplateVar | Newline | Indent | Whitespace | TextRun

  /** What the tokenizer records about one token. */
  datatype Tok = Tok(kind: Kind, s: string, tag: string, line: nat, col: nat, lineSpan: nat)

  /** The number of lines a token occupies, not counting breaks at its edges. */
  function LineSpan(s: string): nat {
    |Lines(Trim(s, BREAK))|
  }

  datatype Flavor = Start | End | NoFlavor

  const HTML_VOID_TAGS: set<string> := {
    "area", "base", "br", "col", "command", "embed", "hr", "img", "input", "keygen", "link", "meta", "param",
    "source", "track", "wbr"}

  const DJANGO_BLOCK_TAGS: set<string> := {
    "autoescape", "block", "comment", "for", "if", "ifequal", "macro", "verbatim", "blocktrans", "trans", "raw",
    "with"}

  /** Whether a token opens a block, continues or closes one, or stands alone. */
  function TagFlavor(kind: Kind, tag: string): Flavor {
    match kind
    case HandlebarsStart | HandlebarsPartialBlock | HtmlStart => Start
    case DjangoElse | DjangoEnd | HandlebarsElse | HandlebarsEnd | HtmlEnd | Jinja2StrippedEnd => End
    case DjangoStart | Jinja2StrippedStart | Jinja2StrippedType2Start =>
      if tag in DJANGO_BLOCK_TAGS then Start else NoFlavor
    case _ => NoFlavor
  }

  /** A token object: the tokenizer fills the first group of fields, validation links start and end
      tokens, and the pretty printer rewrites the last group. */
  class Token {
    const kind: Kind
    const s: string
    const tag: string
    const line: nat
    const col: nat
    const lineSpan: nat

    var startToken: Token?
    var endToken: Token?

    var newS: string
    var indent: Option<string>
    var origIndent: Option<string>
    var childIndent: Option<string>
    var indentIsFinal: bool
    var parentToken: Token?

    constructor (kind: Kind, s: string, tag: string, line: nat, col: nat, lineSpan: nat)
      ensures View() == Tok(kind, s, tag, line, col, lineSpan)
      ensures Pristine() && newS == ""
    {
      this.kind, this.s, this.tag, this.line, this.col, this.lineSpan := kind, s, tag, line, col, lineSpan;
      startToken, endToken, parentToken := null, null, null;
      newS, indent, origIndent, childIndent, indentIsFinal := "", None, None, None, false;
    }

    /** As the tokenizer leaves it. */
    ghost predicate Pristine()
      reads this
    {
      && startToken == null && endToken == null && parentToken == null
      && indent == None && origIndent == None && childIndent == None && !indentIsFinal
    }

    function View(): Tok {
      Tok(kind, s, tag, line, col, lineSpan)
    }
  }

  ghost predicate Distinct(tokens: seq<Token>) {
    forall j, k :: 0 <= j < k < |tokens| ==> tokens[j] != tokens[k]
  }

  function Views(tokens: seq<Token>): (ts: seq<Tok>)
    ensures |ts| == |tokens|
    ensures forall k :: 0 <= k < |ts| ==> ts[k] == tokens[k].View()
  {
    seq(|tokens|, k requires 0 <= k < |tokens| => tokens[k].View())
  }

  lemma ViewsAppend(tokens: seq<Token>, token: Token)
    ensures Views(tokens + [token]) == Views(tokens) + [token.View()]
  {
  }
}
