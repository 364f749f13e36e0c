/** The pretty printer: four passes over validated tokens that rewrite indentation and nothing else.
    Each pass is a method on token objects and a function on what the objects hold. */
module Layout {
  import opened Text
  import opened Tokens
  import opened Matcher
  import opened Validate

  type Indents = seq<Option<string>>

  const STEP := "    "

  // First pass: indents move from their own tokens to the tokens they indent

  function ShiftedIndent(ts: seq<Tok>, k: nat): Option<string>
    requires k < |ts|
  {
    if k == 0 then Some("")
    else if ts[k - 1].kind == Indent then Some(ts[k - 1].s)
    else if ts[k - 1].kind == Newline && ts[k].kind != Indent then Some("")
    else None
  }

  function Shifted(ts: seq<Tok>): (r: Indents)
    ensures |r| == |ts| && forall k :: 0 <= k < |ts| ==> r[k] == ShiftedIndent(ts, k)
  {
    seq(|ts|, k requires 0 <= k < |ts| => ShiftedIndent(ts, k))
  }

  /** A token's text once its indent token, if it is one, has been emptied. The last token keeps its text. */
  function ShiftedText(ts: seq<Tok>, k: nat): string
    requires k < |ts|
  {
    if ts[k].kind == Indent && k + 1 < |ts| then "" else ts[k].s
  }

  /** Token `k` once the loop has reached token `i`: its indent is final up to `i`, its text before `i`. */
  ghost predicate ShiftedAt(tokens: seq<Token>, ts: seq<Tok>, i: nat, k: nat)
    requires k < |tokens| == |ts|
    reads tokens
  {
    && tokens[k].indent == (if k <= i then ShiftedIndent(ts, k) else None)
    && tokens[k].newS == (if k < i then ShiftedText(ts, k) else tokens[k].s)
  }

  /** One turn of the loop: the neighbours `token` and `next`. */
  method ShiftIndent(token: Token, next: Token)
    requires token != next && next.indent == None && token.newS == token.s
    modifies token`newS, next`indent
    ensures token.newS == if token.kind == Indent then "" else token.s
    ensures next.indent == if token.kind == Indent then Some(token.s)
                           else if token.kind == Newline && next.kind != Indent then Some("")
                           else None
  {
    if token.kind == Indent {
      next.indent := Some(token.s);
      token.newS := "";
    }
    if token.kind == Newline && next.kind != Indent {
      next.indent := Some("");
    }
  }

  /** What one turn makes of the neighbours is what the specification says. */
  lemma ShiftsNext(tokens: seq<Token>, ts: seq<Tok>, i: nat)
    requires ts == Views(tokens) && i + 1 < |tokens|
    ensures ShiftedText(ts, i) == if tokens[i].kind == Indent then "" else tokens[i].s
    ensures ShiftedIndent(ts, i + 1) == if tokens[i].kind == Indent then Some(tokens[i].s)
                                        else if tokens[i].kind == Newline && tokens[i + 1].kind != Indent then Some("")
                                        else None
  {
  }

  ghost predicate AllShifted(tokens: seq<Token>, ts: seq<Tok>, i: nat)
    requires |tokens| == |ts|
    reads tokens
  {
    forall k: nat :: k < |tokens| ==> ShiftedAt(tokens, ts, i, k)
  }

  lemma ShiftStarts(tokens: seq<Token>, ts: seq<Tok>)
    requires ts == Views(tokens) && tokens != [] && tokens[0].indent == Some("")
    requires forall k :: 1 <= k < |tokens| ==> tokens[k].indent == None
    requires forall k :: 0 <= k < |tokens| ==> tokens[k].newS == tokens[k].s
    ensures AllShifted(tokens, ts, 0)
  {
    hide ShiftedText, Views;
  }

  lemma ShiftEnds(tokens: seq<Token>, ts: seq<Tok>)
    requires ts == Views(tokens) && tokens != [] && AllShifted(tokens, ts, |tokens| - 1)
    ensures forall k :: 0 <= k < |tokens| ==>
              tokens[k].indent == ShiftedIndent(ts, k) && tokens[k].newS == ShiftedText(ts, k)
  {
    hide ShiftedIndent;
    forall k | 0 <= k < |tokens|
      ensures tokens[k].indent == ShiftedIndent(ts, k) && tokens[k].newS == ShiftedText(ts, k)
    {
      assert ShiftedAt(tokens, ts, |tokens| - 1, k);
    }
  }

  method ShiftTurn(tokens: seq<Token>, i: nat, ghost ts: seq<Tok>)
    requires Distinct(tokens) && ts == Views(tokens) && i + 1 < |tokens| && AllShifted(tokens, ts, i)
    modifies tokens`indent, tokens`newS
    ensures AllShifted(tokens, ts, i + 1)
  {
    hide ShiftedIndent, ShiftedText, Views;
    ghost var next := i + 1;
    assert ShiftedAt(tokens, ts, i, i) && ShiftedAt(tokens, ts, i, next);
    ShiftIndent(tokens[i], tokens[i + 1]);
    ShiftsNext(tokens, ts, i);
    forall k: nat | k < |tokens|
      ensures ShiftedAt(tokens, ts, next, k)
    {
      if k != i && k != next {
        assert old(ShiftedAt(tokens, ts, i, k));
      }
    }
  }

  method ShiftIndentsToTheNextTokens(tokens: seq<Token>)
    requires Distinct(tokens) && tokens != []
    requires forall k :: 0 <= k < |tokens| ==> tokens[k].indent == None && tokens[k].newS == tokens[k].s
    modifies tokens`indent, tokens`newS
    ensures var ts := Views(tokens);
            forall k :: 0 <= k < |tokens| ==>
              tokens[k].indent == ShiftedIndent(ts, k) && tokens[k].newS == ShiftedText(ts, k)
  {
    hide ShiftedIndent, ShiftedText, Views, AllShifted;
    ghost var ts := Views(tokens);
    tokens[0].indent := Some("");
    ShiftStarts(tokens, ts);
    for i := 0 to |tokens| - 1
      invariant AllShifted(tokens, ts, i)
    {
      ShiftTurn(tokens, i, ts);
    }
    ShiftEnds(tokens, ts);
  }

  // Second pass: block indentation

  /** Template logic and links may leave their children at their own indent. Loops may not. */
  predicate AllowsChildrenToSkipIndents(t: Tok) {
    t.tag != "each" && (t.kind in {DjangoStart, HandlebarsStart} || t.tag == "a")
  }

  /** Tokens the pass leaves alone. */
  predicate Skipped(t: Tok) {
    t.kind in {Indent, Whitespace, Newline} || t.tag in {"code", "pre"}
  }

  /** An open block: its start token, and the fields the pass has set on it. */
  datatype Nest = Nest(start: nat, orig: Option<string>, child: Option<string>, isFinal: bool)

  datatype Adjusting = Adjusting(stack: seq<Nest>, out: Indents)

  function Innermost(stack: seq<Nest>): Nest
    requires stack != []
  {
    stack[|stack| - 1]
  }

  /** The first line-leading token inside a block settles whether its children are indented further. */
  function Settle(t: Tok, top: Nest, topIndent: Option<string>, indent: Option<string>): (r: Nest)
    ensures r.start == top.start && r.orig == top.orig
  {
    if indent.None? then top
    else
      var skips := !top.isFinal && indent == top.orig && AllowsChildrenToSkipIndents(t);
      top.(child := if skips then topIndent else top.child, isFinal := true)
  }

  function SettleStack(ts: seq<Tok>, a: Adjusting, indent: Option<string>): (stack: seq<Nest>)
    requires |a.out| == |ts| && forall d :: 0 <= d < |a.stack| ==> a.stack[d].start < |ts|
    ensures |stack| == |a.stack|
    ensures forall d :: 0 <= d < |stack| ==> stack[d].start == a.stack[d].start
  {
    if a.stack == [] then []
    else
      var top := Innermost(a.stack);
      a.stack[..|a.stack| - 1] + [Settle(ts[top.start], top, a.out[top.start], indent)]
  }

  ghost predicate Sized(ts: seq<Tok>, links: State, a: Adjusting) {
    && |a.out| == |ts|
    && (forall d :: 0 <= d < |a.stack| ==> a.stack[d].start < |ts|)
    && (forall e :: e in links.startOf ==> links.startOf[e] < |ts|)
    && (forall a :: a in links.endOf ==> links.endOf[a] < |ts|)
  }

  function AdjustStart(k: nat, stack: seq<Nest>, out: Indents): Result<Adjusting>
    requires k < |out|
  {
    if out[k].None? then Ok(Adjusting(stack + [Nest(k, None, None, false)], out))
    else if stack != [] && Innermost(stack).child.None? then Raise(AssertionError)
    else
      var indent := if stack != [] then Innermost(stack).child.value else "";
      Ok(Adjusting(stack + [Nest(k, out[k], Some(indent + STEP), false)], out[k := Some(indent)]))
  }

  function AdjustEnd(k: nat, start: nat, stack: seq<Nest>, out: Indents): Result<Adjusting>
    requires k < |out| && start < |out|
  {
    if stack == [] || Innermost(stack).start != start then Raise(Unexpected)
    else Ok(Adjusting(stack[..|stack| - 1], if out[k].Some? then out[k := out[start]] else out))
  }

  function AdjustLeaf(k: nat, stack: seq<Nest>, out: Indents): Indents
    requires k < |out|
  {
    if out[k].None? then out
    else if stack == [] then out[k := Some("")]
    else if Innermost(stack).child.Some? then out[k := Innermost(stack).child]
    else out
  }

  /** One turn of the loop of `adjust_block_indentation`. */
  function AdjustToken(ts: seq<Tok>, links: State, k: nat, a: Adjusting): (r: Result<Adjusting>)
    requires Sized(ts, links, a) && k < |ts|
    ensures r.Ok? ==> Sized(ts, links, r.value)
  {
    if Skipped(ts[k]) then Ok(a)
    else if ts[k].tag == "else" then
      if k !in links.startOf then Raise(AssertionError)
      else Ok(a.(out := if a.out[k].Some? then a.out[k := a.out[links.startOf[k]]] else a.out))
    else
      var stack := SettleStack(ts, a, a.out[k]);
      if k in links.endOf then AdjustStart(k, stack, a.out)
      else if k in links.startOf then AdjustEnd(k, links.startOf[k], stack, a.out)
      else Ok(Adjusting(stack, AdjustLeaf(k, stack, a.out)))
  }

  /** The pass over the first `k` tokens. */
  function AdjustedUpTo(ts: seq<Tok>, links: State, indents: Indents, k: nat): (r: Result<Adjusting>)
    requires Sized(ts, links, Adjusting([], indents)) && k <= |ts|
    ensures r.Ok? ==> Sized(ts, links, r.value)
  {
    if k == 0 then Ok(Adjusting([], indents))
    else
      match AdjustedUpTo(ts, links, indents, k - 1)
      case Raise(e) => Raise(e)
      case Ok(a) => AdjustToken(ts, links, k - 1, a)
  }

  function Adjusted(ts: seq<Tok>, links: State, indents: Indents): (r: Result<Indents>)
    requires Sized(ts, links, Adjusting([], indents))
    ensures r.Ok? ==> |r.value| == |ts|
  {
    match AdjustedUpTo(ts, links, indents, |ts|)
    case Raise(e) => Raise(e)
    case Ok(a) => Ok(a.out)
  }

  // Third and fourth pass: continuation lines, and the indents themselves

  function Fix(indent: string, frag: string): string {
    var f := Trim(frag, PY_SPACE);
    if f == "" then "" else indent + f
  }

  function FixAll(indent: string, frags: seq<string>): (r: seq<string>)
    ensures |r| == |frags|
    ensures forall k :: 0 <= k < |r| ==> r[k] == Fix(indent, frags[k])
  {
    seq(|frags|, k requires 0 <= k < |frags| => Fix(indent, frags[k]))
  }

  function ContinueIndent(t: Tok, indent: string): string {
    if t.kind in {DjangoComment, HandlebarsComment, HtmlComment, TextRun} then indent else indent + STEP
  }

  /** The text of a token after `fix_indents_for_multi_line_tags`. */
  function Continued(t: Tok, indent: Option<string>, s: string): string {
    if t.kind == Code || t.lineSpan == 1 || indent.None? then s
    else
      var frags := Lines(s);
      frags[0] + "\n" + (if |frags| == 1 then "" else Join(FixAll(ContinueIndent(t, indent.value), frags[1..])))
  }

  /** The text of a token after `apply_token_indents`. */
  function Applied(indent: Option<string>, s: string): string {
    if indent.Some? then indent.value + s else s
  }

  function Printed(ts: seq<Tok>, indents: Indents): (r: seq<string>)
    requires |indents| == |ts|
    ensures |r| == |ts|
    ensures forall k :: 0 <= k < |ts| ==>
      r[k] == Applied(indents[k], Continued(ts[k], indents[k], ShiftedText(ts, k)))
  {
    seq(|ts|, k requires 0 <= k < |ts| => Applied(indents[k], Continued(ts[k], indents[k], ShiftedText(ts, k))))
  }

  /** `pretty_print_html`. */
  function PrettyPrinted(ts: seq<Tok>, links: State): Result<string>
    requires Sized(ts, links, Adjusting([], Shifted(ts)))
  {
    if ts == [] then Raise(IndexError)
    else
      match Adjusted(ts, links, Shifted(ts))
      case Raise(e) => Raise(e)
      case Ok(indents) => Ok(Concat(Printed(ts, indents)))
  }

  // The passes on token objects

  /** The token fields that only the second pass uses. */
  datatype Cell = Cell(orig: Option<string>, child: Option<string>, isFinal: bool, parent: Token?)

  const FRESH_CELL := Cell(None, None, false, null)

  function CellOf(t: Token): Cell
    reads t
  {
    Cell(t.origIndent, t.childIndent, t.indentIsFinal, t.parentToken)
  }

  ghost predicate CellsAre(tokens: seq<Token>, cells: seq<Cell>)
    reads tokens
  {
    |cells| == |tokens| && forall j :: 0 <= j < |tokens| ==> CellOf(tokens[j]) == cells[j]
  }

  ghost predicate IndentsAre(tokens: seq<Token>, out: Indents)
    reads tokens
  {
    |out| == |tokens| && forall j :: 0 <= j < |tokens| ==> tokens[j].indent == out[j]
  }

  /** The token below position `d` of the stack. */
  function Below(tokens: seq<Token>, stack: seq<Nest>, d: nat): Token?
    requires d <= |stack|
  {
    if d > 0 && stack[d - 1].start < |tokens| then tokens[stack[d - 1].start] else null
  }

  /** The cells hold the stack: each start token its nest, with its parent token below it. */
  ghost predicate StackIn(tokens: seq<Token>, cells: seq<Cell>, stack: seq<Nest>, k: nat) {
    && (forall d :: 0 <= d < |stack| ==>
          && stack[d].start < k && stack[d].start < |cells|
          && cells[stack[d].start] == Cell(stack[d].orig, stack[d].child, stack[d].isFinal, Below(tokens, stack, d)))
    && (forall d, e :: 0 <= d < e < |stack| ==> stack[d].start < stack[e].start)
    && (forall j :: k <= j < |cells| ==> cells[j] == FRESH_CELL)
  }

  lemma StackSettled(tokens: seq<Token>, cells: seq<Cell>, stack: seq<Nest>, k: nat, top: Nest)
    requires StackIn(tokens, cells, stack, k) && stack != [] && top.start == Innermost(stack).start
    ensures StackIn(tokens,
                    cells[top.start := Cell(top.orig, top.child, top.isFinal, Below(tokens, stack, |stack| - 1))],
                    stack[..|stack| - 1] + [top], k)
  {
    var n := |stack| - 1;
    var settled := stack[..n] + [top];
    var cells' := cells[top.start := Cell(top.orig, top.child, top.isFinal, Below(tokens, stack, n))];
    BelowSettled(tokens, stack, settled);
    hide Below;
    forall d | 0 <= d < |settled|
      ensures settled[d].start < k && settled[d].start < |cells'|
      ensures cells'[settled[d].start] ==
              Cell(settled[d].orig, settled[d].child, settled[d].isFinal, Below(tokens, settled, d))
    {
      if d < n {
        assert settled[d] == stack[d] && stack[d].start < stack[n].start;
      }
    }
    forall d, e | 0 <= d < e < |settled|
      ensures settled[d].start < settled[e].start
    {
      assert stack[d].start < stack[e].start;
    }
  }

  /** Settling the top of the stack leaves what is below each of its positions. */
  lemma BelowSettled(tokens: seq<Token>, stack: seq<Nest>, settled: seq<Nest>)
    requires |settled| == |stack| && forall d :: 0 <= d < |stack| ==> settled[d].start == stack[d].start
    ensures forall d: nat :: d <= |stack| ==> Below(tokens, settled, d) == Below(tokens, stack, d)
  {
  }

  lemma StackPushed(tokens: seq<Token>, cells: seq<Cell>, stack: seq<Nest>, k: nat, nest: Nest)
    requires StackIn(tokens, cells, stack, k) && k < |cells| && nest.start == k
    ensures StackIn(tokens,
                    cells[k := Cell(nest.orig, nest.child, nest.isFinal, Below(tokens, stack, |stack|))],
                    stack + [nest], k + 1)
  {
  }

  lemma StackPopped(tokens: seq<Token>, cells: seq<Cell>, stack: seq<Nest>, k: nat)
    requires StackIn(tokens, cells, stack, k)
    ensures StackIn(tokens, cells, stack, k + 1)
    ensures stack != [] ==> StackIn(tokens, cells, stack[..|stack| - 1], k + 1)
  {
  }

  lemma TopCell(tokens: seq<Token>, cells: seq<Cell>, stack: seq<Nest>, k: nat)
    requires StackIn(tokens, cells, stack, k) && |cells| == |tokens|
    ensures stack == [] <==> Below(tokens, stack, |stack|) == null
    ensures stack != [] ==>
              var top := Innermost(stack);
              && top.start < k && top.start < |tokens| && Below(tokens, stack, |stack|) == tokens[top.start]
              && cells[top.start] == Cell(top.orig, top.child, top.isFinal, Below(tokens, stack, |stack| - 1))
  {
  }

  lemma BelowIsPosition(tokens: seq<Token>, stack: seq<Nest>, start: nat)
    requires Distinct(tokens) && start < |tokens| && (stack != [] ==> Innermost(stack).start < |tokens|)
    ensures Below(tokens, stack, |stack|) == tokens[start] <==> stack != [] && Innermost(stack).start == start
  {
  }

  method SettleBlock(t: Token, indent: Option<string>, ghost top: Nest)
    requires t.origIndent == top.orig && t.childIndent == top.child && t.indentIsFinal == top.isFinal
    modifies t`childIndent, t`indentIsFinal
    ensures var settled := Settle(t.View(), top, t.indent, indent);
            CellOf(t) == Cell(settled.orig, settled.child, settled.isFinal, t.parentToken)
  {
    if indent.Some? {
      if !t.indentIsFinal && indent == t.origIndent && AllowsChildrenToSkipIndents(t.View()) {
        t.childIndent := t.indent;
      }
      t.indentIsFinal := true;
    }
  }

  method OpenBlock(t: Token, startToken: Token?) returns (ok: bool)
    requires t != startToken && CellOf(t) == FRESH_CELL
    modifies t`indent, t`origIndent, t`childIndent, t`parentToken
    ensures ok <==> old(t.indent).None? || startToken == null || startToken.childIndent.Some?
    ensures ok ==>
              if old(t.indent).None? then t.indent == None && CellOf(t) == Cell(None, None, false, startToken)
              else
                var indent := if startToken == null then "" else startToken.childIndent.value;
                t.indent == Some(indent) && CellOf(t) == Cell(old(t.indent), Some(indent + STEP), false, startToken)
  {
    if t.indent.Some? {
      t.origIndent := t.indent;
      if startToken != null {
        if startToken.childIndent.None? {
          return false;
        }
        t.indent := startToken.childIndent;
      } else {
        t.indent := Some("");
      }
      t.childIndent := Some(t.indent.value + STEP);
    }
    t.parentToken := startToken;
    return true;
  }

  /** Before turn `k` of the second pass: the objects hold `a`, and `startToken` the innermost open block. */
  ghost predicate InTurn(tokens: seq<Token>, links: State, k: nat, a: Adjusting, cells: seq<Cell>, startToken: Token?)
    reads tokens
  {
    && Distinct(tokens) && LinkedAs(tokens, links) && Sized(Views(tokens), links, a)
    && IndentsAre(tokens, a.out) && CellsAre(tokens, cells) && StackIn(tokens, cells, a.stack, k)
    && startToken == Below(tokens, a.stack, |a.stack|)
  }

  /** The settling step of a turn, on the innermost block. */
  method SettleTop(tokens: seq<Token>, ghost links: State, k: nat, ghost a: Adjusting, ghost cells: seq<Cell>,
                   startToken: Token?) returns (ghost cells': seq<Cell>)
    requires k < |tokens| && InTurn(tokens, links, k, a, cells, startToken)
    modifies tokens`childIndent, tokens`indentIsFinal
    ensures InTurn(tokens, links, k, a.(stack := SettleStack(Views(tokens), a, a.out[k])), cells', startToken)
  {
    hide AllowsChildrenToSkipIndents, Settle, LinkedAs, StackIn;
    cells' := cells;
    TopCell(tokens, cells, a.stack, k);
    if startToken != null {
      ghost var top := Innermost(a.stack);
      ghost var settled := Settle(startToken.View(), top, a.out[top.start], a.out[k]);
      SettleBlock(startToken, tokens[k].indent, top);
      StackSettled(tokens, cells, a.stack, k, settled);
      cells' := cells[top.start := CellOf(startToken)];
    }
  }

  /** One turn of the second pass on token objects. */
  method AdjustOne(tokens: seq<Token>, ghost links: State, k: nat, ghost a: Adjusting, ghost cells: seq<Cell>,
                   startToken: Token?)
    returns (r: Result<Token?>, ghost a': Adjusting, ghost cells': seq<Cell>)
    requires k < |tokens| && InTurn(tokens, links, k, a, cells, startToken)
    modifies tokens`indent, tokens`origIndent, tokens`childIndent, tokens`indentIsFinal, tokens`parentToken
    ensures r.Raise? ==> AdjustToken(Views(tokens), links, k, a) == Raise(r.error)
    ensures r.Ok? ==> AdjustToken(Views(tokens), links, k, a) == Ok(a') && InTurn(tokens, links, k + 1, a', cells', r.value)
  {
    hide AllowsChildrenToSkipIndents, Settle, Skipped, StackIn, SettleStack;
    var token := tokens[k];
    a', cells' := a, cells;
    if Skipped(token.View()) {
      StackPopped(tokens, cells, a.stack, k);
      return Ok(startToken), a, cells;
    }
    if token.tag == "else" {
      if token.startToken == null {
        return Raise(AssertionError), a, cells;
      }
      StackPopped(tokens, cells, a.stack, k);
      if token.indent.Some? {
        token.indent := token.startToken.indent;
        a' := a.(out := a.out[k := a.out[links.startOf[k]]]);
      }
      return Ok(startToken), a', cells;
    }
    cells' := SettleTop(tokens, links, k, a, cells, startToken);
    ghost var stack := SettleStack(Views(tokens), a, a.out[k]);
    if token.endToken != null {
      r, a', cells' := AdjustStartOn(tokens, links, k, Adjusting(stack, a.out), cells', startToken);
    } else if token.startToken != null {
      r, a' := AdjustEndOn(tokens, links, k, Adjusting(stack, a.out), cells', startToken);
    } else {
      a' := AdjustLeafOn(tokens, links, k, Adjusting(stack, a.out), cells', startToken);
      r := Ok(startToken);
    }
  }

  lemma NextIsFresh(tokens: seq<Token>, cells: seq<Cell>, stack: seq<Nest>, k: nat)
    requires StackIn(tokens, cells, stack, k) && k < |cells|
    ensures cells[k] == FRESH_CELL
  {
  }

  method AdjustStartOn(tokens: seq<Token>, ghost links: State, k: nat, ghost a: Adjusting, ghost cells: seq<Cell>,
                       startToken: Token?)
    returns (r: Result<Token?>, ghost a': Adjusting, ghost cells': seq<Cell>)
    requires k < |tokens| && InTurn(tokens, links, k, a, cells, startToken)
    modifies tokens`indent, tokens`origIndent, tokens`childIndent, tokens`parentToken
    ensures r.Raise? ==> AdjustStart(k, a.stack, a.out) == Raise(r.error)
    ensures r.Ok? ==> AdjustStart(k, a.stack, a.out) == Ok(a') && InTurn(tokens, links, k + 1, a', cells', r.value)
  {
    hide LinkedAs, StackIn;
    var token := tokens[k];
    TopCell(tokens, cells, a.stack, k);
    NextIsFresh(tokens, cells, a.stack, k);
    var ok := OpenBlock(token, startToken);
    if !ok {
      return Raise(AssertionError), a, cells;
    }
    a' := AdjustStart(k, a.stack, a.out).value;
    StackPushed(tokens, cells, a.stack, k, Innermost(a'.stack));
    cells' := cells[k := CellOf(token)];
    r := Ok(token);
  }

  lemma LinkedStart(tokens: seq<Token>, links: State, k: nat)
    requires LinkedAs(tokens, links) && k < |tokens| && k in links.startOf && links.startOf[k] < |tokens|
    ensures tokens[k].startToken == tokens[links.startOf[k]]
  {
  }

  /** Writes one indent; everything else stays as it is. */
  method WriteIndent(tokens: seq<Token>, k: nat, token: Token, indent: Option<string>, ghost out: Indents,
                     ghost cells: seq<Cell>)
    requires k < |tokens| && tokens[k] == token && Distinct(tokens) && IndentsAre(tokens, out) && CellsAre(tokens, cells)
    modifies token`indent
    ensures IndentsAre(tokens, out[k := indent]) && CellsAre(tokens, cells)
  {
    token.indent := indent;
  }

  method AdjustEndOn(tokens: seq<Token>, ghost links: State, k: nat, ghost a: Adjusting, ghost cells: seq<Cell>,
                     startToken: Token?)
    returns (r: Result<Token?>, ghost a': Adjusting)
    requires k < |tokens| && InTurn(tokens, links, k, a, cells, startToken) && k in links.startOf
    modifies tokens`indent
    ensures r.Raise? ==> AdjustEnd(k, links.startOf[k], a.stack, a.out) == Raise(r.error)
    ensures r.Ok? ==>
              AdjustEnd(k, links.startOf[k], a.stack, a.out) == Ok(a') && InTurn(tokens, links, k + 1, a', cells, r.value)
  {
    var token := tokens[k];
    a' := a;
    TopCell(tokens, cells, a.stack, k);
    LinkedStart(tokens, links, k);
    BelowIsPosition(tokens, a.stack, links.startOf[k]);
    StackPopped(tokens, cells, a.stack, k);
    hide StackIn, LinkedAs;
    if startToken != token.startToken {
      return Raise(Unexpected), a;
    }
    r := Ok(startToken.parentToken);
    a' := AdjustEnd(k, links.startOf[k], a.stack, a.out).value;
    hide Distinct, Views;
    if token.indent.Some? {
      WriteIndent(tokens, k, token, startToken.indent, a.out, cells);
    }
  }

  method AdjustLeafOn(tokens: seq<Token>, ghost links: State, k: nat, ghost a: Adjusting, ghost cells: seq<Cell>,
                      startToken: Token?)
    returns (ghost a': Adjusting)
    requires k < |tokens| && InTurn(tokens, links, k, a, cells, startToken)
    modifies tokens`indent
    ensures a' == Adjusting(a.stack, AdjustLeaf(k, a.stack, a.out))
    ensures InTurn(tokens, links, k + 1, a', cells, startToken)
  {
    var token := tokens[k];
    a' := Adjusting(a.stack, AdjustLeaf(k, a.stack, a.out));
    StackPopped(tokens, cells, a.stack, k);
    if token.indent.None? {
      return;
    }
    if startToken == null {
      token.indent := Some("");
      return;
    }
    if startToken.childIndent.Some? {
      token.indent := startToken.childIndent;
    }
  }

  lemma NoMoreTurns(ts: seq<Tok>, links: State, indents: Indents, k: nat)
    requires Sized(ts, links, Adjusting([], indents)) && k <= |ts| && AdjustedUpTo(ts, links, indents, k).Raise?
    ensures Adjusted(ts, links, indents) == Raise(AdjustedUpTo(ts, links, indents, k).error)
    decreases |ts| - k
  {
    hide AdjustToken;
    if k < |ts| {
      NoMoreTurns(ts, links, indents, k + 1);
    }
  }

  lemma TurnTaken(ts: seq<Tok>, links: State, indents: Indents, k: nat, a: Adjusting)
    requires Sized(ts, links, Adjusting([], indents)) && k < |ts| && AdjustedUpTo(ts, links, indents, k) == Ok(a)
    ensures AdjustedUpTo(ts, links, indents, k + 1) == AdjustToken(ts, links, k, a)
  {
    hide AdjustToken;
  }

  /** The second pass on token objects computes `Adjusted`. */
  method AdjustBlockIndentation(tokens: seq<Token>, ghost links: State, ghost indents: Indents) returns (r: Result<()>)
    requires Distinct(tokens) && LinkedAs(tokens, links) && Sized(Views(tokens), links, Adjusting([], indents))
    requires IndentsAre(tokens, indents)
    requires forall k :: 0 <= k < |tokens| ==> CellOf(tokens[k]) == FRESH_CELL
    modifies tokens`indent, tokens`origIndent, tokens`childIndent, tokens`indentIsFinal, tokens`parentToken
    ensures var spec := Adjusted(Views(tokens), links, indents);
            if r.Ok? then spec.Ok? && IndentsAre(tokens, spec.value) else spec == Raise(r.error)
  {
    hide AdjustToken, AdjustedUpTo, Sized, StackIn, LinkedAs;
    ghost var ts := Views(tokens);
    ghost var a, cells := Adjusting([], indents), seq(|tokens|, _ => FRESH_CELL);
    var startToken: Token? := null;
    NoTurns(tokens, links, indents, cells);
    for i := 0 to |tokens|
      invariant AdjustedUpTo(ts, links, indents, i) == Ok(a)
      invariant InTurn(tokens, links, i, a, cells, startToken)
    {
      var one: Result<Token?>;
      TurnTaken(ts, links, indents, i, a);
      one, a, cells := AdjustOne(tokens, links, i, a, cells, startToken);
      if one.Raise? {
        NoMoreTurns(ts, links, indents, i + 1);
        return Raise(one.error);
      }
      startToken := one.value;
    }
    return Ok(());
  }

  lemma NoTurns(tokens: seq<Token>, links: State, indents: Indents, cells: seq<Cell>)
    requires Sized(Views(tokens), links, Adjusting([], indents)) && |cells| == |tokens|
    requires forall k :: 0 <= k < |cells| ==> cells[k] == FRESH_CELL
    ensures AdjustedUpTo(Views(tokens), links, indents, 0) == Ok(Adjusting([], indents))
    ensures StackIn(tokens, cells, [], 0)
  {
  }

  /** `fix_indents_for_multi_line_tags`. */
  method FixIndentsForMultiLineTags(tokens: seq<Token>)
    requires Distinct(tokens)
    modifies tokens`newS
    ensures forall k :: 0 <= k < |tokens| ==>
              tokens[k].newS == Continued(tokens[k].View(), tokens[k].indent, old(tokens[k].newS))
  {
    hide Continued;
    for i := 0 to |tokens|
      invariant forall k :: 0 <= k < i ==>
        tokens[k].newS == Continued(tokens[k].View(), tokens[k].indent, old(tokens[k].newS))
      invariant forall k :: i <= k < |tokens| ==> tokens[k].newS == old(tokens[k].newS)
    {
      var token := tokens[i];
      var fixed := FixToken(token);
      token.newS := fixed;
    }
  }

  method FixToken(t: Token) returns (s: string)
    ensures s == Continued(t.View(), t.indent, t.newS)
  {
    if t.kind == Code {
      return t.newS;
    }
    if t.lineSpan == 1 || t.indent.None? {
      return t.newS;
    }
    var continueIndent := t.indent.value;
    if !(t.kind in {DjangoComment, HandlebarsComment, HtmlComment, TextRun}) {
      continueIndent := t.indent.value + STEP;
    }
    var frags := Lines(t.newS);
    var fixed := FixAll(continueIndent, frags[1..]);
    return frags[0] + "\n" + (if |fixed| == 0 then "" else Join(fixed));
  }

  /** `apply_token_indents`. */
  method ApplyTokenIndents(tokens: seq<Token>)
    requires Distinct(tokens)
    modifies tokens`newS
    ensures forall k :: 0 <= k < |tokens| ==> tokens[k].newS == Applied(tokens[k].indent, old(tokens[k].newS))
  {
    for i := 0 to |tokens|
      invariant forall k :: 0 <= k < i ==> tokens[k].newS == Applied(tokens[k].indent, old(tokens[k].newS))
      invariant forall k :: i <= k < |tokens| ==> tokens[k].newS == old(tokens[k].newS)
    {
      var token := tokens[i];
      if token.indent.Some? && token.indent.value != "" {
        token.newS := token.indent.value + token.newS;
      } else {
        assert token.indent.Some? ==> "" + token.newS == token.newS;
      }
    }
  }

  /** `pretty_print_html` on token objects computes `PrettyPrinted`. */
  method PrettyPrintHtml(tokens: seq<Token>, ghost links: State) returns (r: Result<string>)
    requires Distinct(tokens) && LinkedAs(tokens, links)
    requires Sized(Views(tokens), links, Adjusting([], Shifted(Views(tokens))))
    requires forall k :: 0 <= k < |tokens| ==> CellOf(tokens[k]) == FRESH_CELL && tokens[k].indent == None
    modifies tokens`newS, tokens`indent, tokens`origIndent, tokens`childIndent, tokens`indentIsFinal, tokens`parentToken
    ensures r == PrettyPrinted(Views(tokens), links)
  {
    hide Adjusted, Continued, Applied, ShiftedIndent, ShiftedText, LinkedAs, Sized;
    ghost var ts := Views(tokens);
    for i := 0 to |tokens|
      invariant forall k :: 0 <= k < i ==> tokens[k].newS == tokens[k].s
      modifies tokens`newS
    {
      tokens[i].newS := tokens[i].s;
    }
    if tokens == [] {
      return Raise(IndexError);
    }
    ShiftIndentsToTheNextTokens(tokens);
    var adjusted := AdjustBlockIndentation(tokens, links, Shifted(ts));
    if adjusted.Raise? {
      return Raise(adjusted.error);
    }
    ghost var indents := Adjusted(ts, links, Shifted(ts)).value;
    FixIndentsForMultiLineTags(tokens);
    ApplyTokenIndents(tokens);
    var parts := seq(|tokens|, k requires 0 <= k < |tokens| reads tokens => tokens[k].newS);
    assert parts == Printed(ts, indents);
    return Ok(Concat(parts));
  }
}
