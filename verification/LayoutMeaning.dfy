/** What the block pass computes on validated tokens: when it succeeds, and which indents it gives, told by
    the block structure alone. */
module LayoutMeaning {
  import opened Text
  import opened Tokens
  import opened Matcher
  import opened Layout
  import opened Reindent

  /** No start or end tag carries a `~`. */
  ghost predicate NoTilde(ts: seq<Tok>) {
    forall k :: 0 <= k < |ts| && (IsStart(ts, k) || IsEnd(ts, k)) ==> '~' !in ts[k].tag
  }

  /** The pass skips both tags of a block or neither, and takes no start tag for an else. */
  ghost predicate SkipsAgree(ts: seq<Tok>, links: State) {
    forall p :: p in links.endOf && p < |ts| && links.endOf[p] < |ts| ==>
      ts[p].tag != "else" && Skipped(ts[links.endOf[p]]) == Skipped(ts[p])
  }

  /** Validation accepted the tokens, and the pass sees their blocks whole. */
  ghost predicate Validated(ts: seq<Tok>, links: State) {
    && MatchTags(ts) == Ok(links)
    && SkipsAgree(ts, links)
  }

  lemma BareTag(tag: string)
    requires '~' !in tag
    ensures Bare(tag) == tag
  {
  }

  lemma LinksAreSized(ts: seq<Tok>, links: State, indents: Indents)
    requires MatchTags(ts) == Ok(links) && |indents| == |ts|
    ensures Sized(ts, links, Adjusting([], indents)) && EarlierStarts(links)
  {
    hide MatchTags, Fits, TagFlavor;
    LinksAreMutualAndNested(ts);
    forall e | e in links.startOf
      ensures links.startOf[e] < e && links.startOf[e] < |ts|
    {
      assert IsEnd(ts, e);
    }
    forall a | a in links.endOf
      ensures links.endOf[a] < |ts|
    {
      assert IsStart(ts, a);
    }
  }

  /** A block whose tags the pass does not skip. */
  predicate Visible(ts: seq<Tok>, p: nat) {
    IsStart(ts, p) && !Skipped(ts[p])
  }

  ghost predicate StartFact(ts: seq<Tok>, links: State, p: nat) {
    IsStart(ts, p) ==>
      && p in links.endOf && p !in links.startOf
      && p < links.endOf[p] < |ts| && IsEnd(ts, links.endOf[p]) && !IsElse(ts, links.endOf[p])
      && links.endOf[p] in links.startOf && links.startOf[links.endOf[p]] == p
      && ts[p].tag != "else" && Skipped(ts[links.endOf[p]]) == Skipped(ts[p])
  }

  ghost predicate EndFact(ts: seq<Tok>, links: State, e: nat) {
    IsEnd(ts, e) ==>
      && e in links.startOf && e !in links.endOf
      && links.startOf[e] < e && IsStart(ts, links.startOf[e])
      && (!IsElse(ts, e) ==> links.startOf[e] in links.endOf && links.endOf[links.startOf[e]] == e)
  }

  ghost predicate LeafFact(ts: seq<Tok>, links: State, k: nat) {
    k < |ts| && !IsStart(ts, k) && !IsEnd(ts, k) ==> k !in links.startOf && k !in links.endOf
  }

  ghost predicate NestFact(ts: seq<Tok>, links: State, e: nat, c: nat) {
    IsEnd(ts, e) && e in links.startOf && links.startOf[e] < c < e && IsStart(ts, c) ==>
      c in links.endOf && links.endOf[c] < e
  }

  /** The facts about links that the pass relies on. */
  ghost predicate BlockFacts(ts: seq<Tok>, links: State) {
    && (forall p: nat :: StartFact(ts, links, p))
    && (forall e: nat :: EndFact(ts, links, e))
    && (forall k: nat :: LeafFact(ts, links, k))
    && (forall e: nat, c: nat :: NestFact(ts, links, e, c))
  }

  lemma ValidatedBlocks(ts: seq<Tok>, links: State)
    requires Validated(ts, links)
    ensures BlockFacts(ts, links)
  {
    hide MatchTags, TagFlavor, Skipped, Fits;
    LinksAreMutualAndNested(ts);
  }

  /** Where no tag carries a `~`, the two tags of a block are the same, so validation is enough. */
  lemma NoTildeAgrees(ts: seq<Tok>, links: State)
    requires MatchTags(ts) == Ok(links) && NoTilde(ts)
    ensures Validated(ts, links)
  {
    hide MatchTags, TagFlavor, Skipped, Fits, NoTilde;
    LinksAreMutualAndNested(ts);
    forall p | p in links.endOf && p < |ts| && links.endOf[p] < |ts|
      ensures ts[p].tag != "else" && Skipped(ts[links.endOf[p]]) == Skipped(ts[p])
    {
      assert IsStart(ts, p);
      TagsAgree(ts, p, links.endOf[p]);
    }
  }

  lemma TagsAgree(ts: seq<Tok>, p: nat, e: nat)
    requires NoTilde(ts) && IsStart(ts, p) && IsEnd(ts, e) && !IsElse(ts, e) && Fits(ts[p], ts[e])
    ensures ts[p].tag == ts[e].tag && ts[p].tag != "else" && Skipped(ts[e]) == Skipped(ts[p])
  {
    hide Bare, TagFlavor, HTML_VOID_TAGS;
    BareTag(ts[p].tag);
    BareTag(ts[e].tag);
    StartAndEndKinds(ts[p]);
    StartAndEndKinds(ts[e]);
  }

  lemma StartAndEndKinds(t: Tok)
    ensures FlavorOf(t) != NoFlavor ==> t.kind !in {Indent, Whitespace, Newline}
  {
  }

  // The stack of the pass holds the visible blocks that are open

  ghost predicate OpenAt(ts: seq<Tok>, links: State, k: nat, p: nat) {
    Visible(ts, p) && p < k && p in links.endOf && k <= links.endOf[p]
  }

  ghost predicate Holds(stack: seq<Nest>, p: nat) {
    exists d :: 0 <= d < |stack| && stack[d].start == p
  }

  ghost predicate StackIs(ts: seq<Tok>, links: State, k: nat, stack: seq<Nest>) {
    && (forall d :: 0 <= d < |stack| ==> OpenAt(ts, links, k, stack[d].start))
    && (forall d, e :: 0 <= d < e < |stack| ==> stack[d].start < stack[e].start)
    && (forall p: nat :: OpenAt(ts, links, k, p) ==> Holds(stack, p))
  }

  lemma SettledIs(ts: seq<Tok>, links: State, k: nat, a: Adjusting, indent: Option<string>)
    requires StackIs(ts, links, k, a.stack) && |a.out| == |ts|
    ensures forall d :: 0 <= d < |a.stack| ==> a.stack[d].start < |ts|
    ensures StackIs(ts, links, k, SettleStack(ts, a, indent))
  {
    hide Skipped, TagFlavor, Settle;
    var r := SettleStack(ts, a, indent);
    forall p: nat | OpenAt(ts, links, k, p)
      ensures Holds(r, p)
    {
      var d :| 0 <= d < |a.stack| && a.stack[d].start == p;
      assert r[d].start == p;
    }
  }

  /** Over a token that neither opens nor closes a visible block, the same blocks stay open. */
  lemma SameOpenBlocks(ts: seq<Tok>, links: State, k: nat, stack: seq<Nest>)
    requires BlockFacts(ts, links) && StackIs(ts, links, k, stack) && k < |ts|
    requires !Visible(ts, k) && (IsEnd(ts, k) ==> IsElse(ts, k) || Skipped(ts[k]))
    ensures StackIs(ts, links, k + 1, stack)
  {
    hide Skipped, TagFlavor;
    forall p: nat
      ensures OpenAt(ts, links, k, p) <==> OpenAt(ts, links, k + 1, p)
    {
      assert StartFact(ts, links, p);
    }
  }

  lemma OneMoreOpenBlock(ts: seq<Tok>, links: State, k: nat, stack: seq<Nest>, nest: Nest)
    requires BlockFacts(ts, links) && StackIs(ts, links, k, stack) && Visible(ts, k) && nest.start == k
    ensures StackIs(ts, links, k + 1, stack + [nest])
  {
    hide Skipped, TagFlavor;
    var r := stack + [nest];
    assert r[|stack|].start == k;
    assert StartFact(ts, links, k);
    forall d | 0 <= d < |stack|
      ensures OpenAt(ts, links, k + 1, stack[d].start)
    {
      assert OpenAt(ts, links, k, stack[d].start) && StartFact(ts, links, stack[d].start);
    }
    forall p: nat | OpenAt(ts, links, k + 1, p)
      ensures Holds(r, p)
    {
      if p != k {
        assert OpenAt(ts, links, k, p);
        var d :| 0 <= d < |stack| && stack[d].start == p;
        assert r[d].start == p;
      }
    }
  }

  /** At a visible end tag the innermost open block is the one it ends. */
  lemma EndMeetsItsStart(ts: seq<Tok>, links: State, k: nat, stack: seq<Nest>)
    requires BlockFacts(ts, links) && StackIs(ts, links, k, stack) && IsEnd(ts, k) && !IsElse(ts, k) && !Skipped(ts[k])
    ensures k in links.startOf && stack != [] && Innermost(stack).start == links.startOf[k]
    ensures StackIs(ts, links, k + 1, stack[..|stack| - 1])
  {
    hide Skipped, TagFlavor, BlockFacts;
    EndFacts(ts, links, k);
    var p := links.startOf[k];
    TopIsStart(ts, links, k, stack, p);
    forall d | 0 <= d < |stack| - 1
      ensures OpenAt(ts, links, k + 1, stack[d].start)
    {
      var q := stack[d].start;
      assert OpenAt(ts, links, k, q);
      EndsDiffer(ts, links, k, q);
    }
    var r := stack[..|stack| - 1];
    forall o: nat | OpenAt(ts, links, k + 1, o)
      ensures Holds(r, o)
    {
      assert OpenAt(ts, links, k, o);
      var e :| 0 <= e < |stack| && stack[e].start == o;
      assert r[e].start == o;
    }
  }

  lemma EndFacts(ts: seq<Tok>, links: State, k: nat)
    requires BlockFacts(ts, links) && IsEnd(ts, k)
    ensures k in links.startOf && k !in links.endOf
    ensures var p := links.startOf[k];
            p < k && IsStart(ts, p) && p in links.endOf
            && (!IsElse(ts, k) ==> links.endOf[p] == k && Skipped(ts[p]) == Skipped(ts[k]))
  {
    assert EndFact(ts, links, k) && StartFact(ts, links, links.startOf[k]);
    hide Skipped, TagFlavor;
  }

  /** A start tag other than its own does not end at an end tag. */
  lemma EndsDiffer(ts: seq<Tok>, links: State, k: nat, q: nat)
    requires BlockFacts(ts, links) && OpenAt(ts, links, k, q) && IsEnd(ts, k) && k in links.startOf
    requires q < links.startOf[k]
    ensures links.endOf[q] != k
  {
    hide Skipped, TagFlavor;
    assert StartFact(ts, links, q);
  }

  lemma TopIsStart(ts: seq<Tok>, links: State, k: nat, stack: seq<Nest>, p: nat)
    requires BlockFacts(ts, links) && StackIs(ts, links, k, stack)
    requires IsEnd(ts, k) && k in links.startOf && links.startOf[k] == p && OpenAt(ts, links, k, p)
    ensures stack != [] && Innermost(stack).start == p
  {
    hide Skipped, TagFlavor;
    var d :| 0 <= d < |stack| && stack[d].start == p;
    var q := Innermost(stack).start;
    assert OpenAt(ts, links, k, q);
    assert NestFact(ts, links, k, q);
  }

  lemma LinkKinds(ts: seq<Tok>, links: State, k: nat)
    requires BlockFacts(ts, links) && k < |ts|
    ensures k in links.endOf <==> IsStart(ts, k)
    ensures k in links.startOf <==> IsEnd(ts, k)
    ensures IsStart(ts, k) ==> ts[k].tag != "else"
  {
    hide Skipped, TagFlavor;
    assert StartFact(ts, links, k) && EndFact(ts, links, k) && LeafFact(ts, links, k);
  }

  /** A turn keeps the stack what it should be, and never meets an unexpected end tag. */
  lemma TurnStack(ts: seq<Tok>, links: State, k: nat, a: Adjusting)
    requires BlockFacts(ts, links) && Sized(ts, links, a) && k < |ts| && StackIs(ts, links, k, a.stack)
    ensures var r := AdjustToken(ts, links, k, a);
            if r.Ok? then StackIs(ts, links, k + 1, r.value.stack) else r.error != Unexpected
  {
    hide Skipped, TagFlavor, BlockFacts, StackIs, AdjustLeaf, SettleStack;
    LinkKinds(ts, links, k);
    if Skipped(ts[k]) || ts[k].tag == "else" {
      SameOpenBlocks(ts, links, k, a.stack);
    } else {
      SettledIs(ts, links, k, a, a.out[k]);
      var stack := SettleStack(ts, a, a.out[k]);
      if k in links.endOf {
        var r := AdjustStart(k, stack, a.out);
        if r.Ok? {
          OneMoreOpenBlock(ts, links, k, stack, Innermost(r.value.stack));
        }
      } else if k in links.startOf {
        EndMeetsItsStart(ts, links, k, stack);
      } else {
        SameOpenBlocks(ts, links, k, stack);
      }
    }
  }

  lemma {:induction false} PassStack(ts: seq<Tok>, links: State, indents: Indents, k: nat)
    requires BlockFacts(ts, links) && Sized(ts, links, Adjusting([], indents)) && k <= |ts|
    ensures var r := AdjustedUpTo(ts, links, indents, k);
            if r.Ok? then StackIs(ts, links, k, r.value.stack) else r.error != Unexpected
  {
    hide AdjustToken, BlockFacts, StackIs;
    if k == 0 {
      NoneOpen(ts, links);
    } else {
      PassStack(ts, links, indents, k - 1);
      if AdjustedUpTo(ts, links, indents, k - 1).Ok? {
        TurnStack(ts, links, k - 1, AdjustedUpTo(ts, links, indents, k - 1).value);
      }
    }
  }

  lemma NoneOpen(ts: seq<Tok>, links: State)
    ensures StackIs(ts, links, 0, [])
  {
  }

  /** After validation, the "was unexpected" error cannot occur where the pass sees whole blocks, although it skips
      code and pre tags. */
  lemma UnexpectedIsUnreachable(ts: seq<Tok>, links: State, indents: Indents)
    requires Validated(ts, links) && |indents| == |ts|
    ensures Sized(ts, links, Adjusting([], indents))
    ensures Adjusted(ts, links, indents) != Raise(Unexpected)
  {
    hide Validated, AdjustedUpTo, BlockFacts;
    LinksSized(ts, links, indents);
    ValidatedBlocks(ts, links);
    PassStack(ts, links, indents, |ts|);
  }

  lemma LinksSized(ts: seq<Tok>, links: State, indents: Indents)
    requires Validated(ts, links) && |indents| == |ts|
    ensures Sized(ts, links, Adjusting([], indents)) && EarlierStarts(links)
  {
    LinksAreSized(ts, links, indents);
  }

  // What the pass computes, told by the block structure

  /** Block `p` is the innermost visible block around token `k`. */
  ghost predicate Directly(ts: seq<Tok>, links: State, p: nat, k: nat) {
    && Visible(ts, p) && p in links.endOf && p < k < links.endOf[p]
    && forall q: nat :: Visible(ts, q) && p < q < k ==> q in links.endOf && links.endOf[q] < k
  }

  /** Token `k` leads its line and is one that can settle how its block is indented. */
  predicate Leads(ts: seq<Tok>, indents: Indents, k: nat) {
    && k < |ts| && k < |indents| && indents[k].Some?
    && !Skipped(ts[k]) && ts[k].tag != "else" && !IsEnd(ts, k)
  }

  ghost predicate Child(ts: seq<Tok>, links: State, indents: Indents, p: nat, k: nat) {
    Directly(ts, links, p, k) && Leads(ts, indents, k)
  }

  ghost predicate FirstChild(ts: seq<Tok>, links: State, indents: Indents, p: nat, k: nat) {
    Child(ts, links, indents, p, k) && forall j: nat :: j < k ==> !Child(ts, links, indents, p, j)
  }

  ghost predicate ChildBefore(ts: seq<Tok>, links: State, indents: Indents, p: nat, k: nat) {
    exists j: nat :: j < k && Child(ts, links, indents, p, j)
  }

  /** A block leaves its children at its own indent when it may, and its first line-leading child stood at
      the block's own indent to begin with. */
  ghost predicate SkipsIndent(ts: seq<Tok>, links: State, indents: Indents, p: nat)
    requires p < |ts| == |indents|
  {
    && ts[p].tag != "each" && (ts[p].kind == DjangoStart || ts[p].kind == HandlebarsStart || ts[p].tag == "a")
    && exists j: nat :: FirstChild(ts, links, indents, p, j) && indents[j] == indents[p]
  }

  ghost function Gap(ts: seq<Tok>, links: State, indents: Indents, p: nat): string
    requires p < |ts| == |indents|
  {
    if SkipsIndent(ts, links, indents, p) then "" else "    "
  }

  ghost predicate NestIs(ts: seq<Tok>, links: State, indents: Indents, out: Indents, k: nat, n: Nest) {
    && n.start < |ts| == |indents| == |out|
    && n.orig == indents[n.start]
    && (out[n.start].Some? <==> indents[n.start].Some?)
    && (n.isFinal <==> ChildBefore(ts, links, indents, n.start, k))
    && n.child == (if out[n.start].None? then None
                   else Some(out[n.start].value + if n.isFinal then Gap(ts, links, indents, n.start) else STEP))
  }

  lemma NestUnmoved(ts: seq<Tok>, links: State, indents: Indents, out: Indents, out': Indents, k: nat, n: Nest)
    requires NestIs(ts, links, indents, out, k, n) && !Child(ts, links, indents, n.start, k)
    requires |out'| == |out| && out'[n.start] == out[n.start]
    ensures NestIs(ts, links, indents, out', k + 1, n)
  {
    hide Child, SkipsIndent;
    if ChildBefore(ts, links, indents, n.start, k + 1) {
      var j: nat :| j < k + 1 && Child(ts, links, indents, n.start, j);
      assert j != k;
    }
  }

  lemma NestSettled(ts: seq<Tok>, links: State, indents: Indents, out: Indents, k: nat, n: Nest)
    requires NestIs(ts, links, indents, out, k, n) && Child(ts, links, indents, n.start, k)
    ensures NestIs(ts, links, indents, out, k + 1, Settle(ts[n.start], n, out[n.start], indents[k]))
  {
    var p := n.start;
    if !n.isFinal {
      assert FirstChild(ts, links, indents, p, k);
      assert SkipsIndent(ts, links, indents, p) <==> AllowsChildrenToSkipIndents(ts[p]) && indents[k] == indents[p] by {
        hide Child, AllowsChildrenToSkipIndents;
        forall j: nat | FirstChild(ts, links, indents, p, j)
          ensures j == k
        {
        }
      }
    }
    hide Child, AllowsChildrenToSkipIndents, SkipsIndent;
    assert out[p].Some? ==> out[p].value + "" == out[p].value;
  }

  ghost predicate NestsAre(ts: seq<Tok>, links: State, indents: Indents, out: Indents, k: nat, stack: seq<Nest>) {
    forall d :: 0 <= d < |stack| ==> NestIs(ts, links, indents, out, k, stack[d])
  }

  /** The innermost open block is the one that directly encloses the token. */
  lemma TopEncloses(ts: seq<Tok>, links: State, k: nat, stack: seq<Nest>)
    requires BlockFacts(ts, links) && StackIs(ts, links, k, stack) && k < |ts| && !IsEnd(ts, k) && stack != []
    ensures Directly(ts, links, Innermost(stack).start, k)
  {
    hide Skipped, TagFlavor;
    var p := Innermost(stack).start;
    assert OpenAt(ts, links, k, p) && StartFact(ts, links, p);
    forall q: nat | Visible(ts, q) && p < q < k
      ensures q in links.endOf && links.endOf[q] < k
    {
      assert StartFact(ts, links, q);
      OpenBlocksUnderTop(ts, links, k, stack, q);
    }
  }

  lemma OpenBlocksUnderTop(ts: seq<Tok>, links: State, k: nat, stack: seq<Nest>, q: nat)
    requires StackIs(ts, links, k, stack)
    ensures OpenAt(ts, links, k, q) ==> stack != [] && q <= Innermost(stack).start
  {
    hide Visible;
  }

  lemma OnlyTopEncloses(ts: seq<Tok>, links: State, k: nat, stack: seq<Nest>, p: nat)
    requires BlockFacts(ts, links) && StackIs(ts, links, k, stack) && Directly(ts, links, p, k)
    ensures stack != [] && p == Innermost(stack).start
  {
    hide Skipped, TagFlavor;
    assert OpenAt(ts, links, k, p);
    var d :| 0 <= d < |stack| && stack[d].start == p;
    var top := Innermost(stack).start;
    assert OpenAt(ts, links, k, top);
  }

  /** A token that leads nothing leaves every block as it was. */
  lemma NestsUnmoved(ts: seq<Tok>, links: State, indents: Indents, out: Indents, out': Indents, k: nat, stack: seq<Nest>)
    requires NestsAre(ts, links, indents, out, k, stack) && !Leads(ts, indents, k) && |out'| == |out|
    requires forall d :: 0 <= d < |stack| ==> out'[stack[d].start] == out[stack[d].start]
    ensures NestsAre(ts, links, indents, out', k + 1, stack)
  {
    hide NestIs, Directly;
    forall d | 0 <= d < |stack|
      ensures NestIs(ts, links, indents, out', k + 1, stack[d])
    {
      StartsIn(ts, links, indents, out, k, stack[d]);
      NestUnmoved(ts, links, indents, out, out', k, stack[d]);
    }
  }

  lemma StartsIn(ts: seq<Tok>, links: State, indents: Indents, out: Indents, k: nat, n: Nest)
    requires NestIs(ts, links, indents, out, k, n)
    ensures n.start < |ts| == |indents| == |out|
  {
  }

  /** A line-leading token settles the innermost block and no other. */
  lemma NestsSettled(ts: seq<Tok>, links: State, indents: Indents, k: nat, a: Adjusting)
    requires BlockFacts(ts, links) && StackIs(ts, links, k, a.stack) && k < |ts| == |a.out| == |indents|
    requires NestsAre(ts, links, indents, a.out, k, a.stack) && Leads(ts, indents, k)
    requires forall d :: 0 <= d < |a.stack| ==> a.stack[d].start < |ts|
    ensures NestsAre(ts, links, indents, a.out, k + 1, SettleStack(ts, a, indents[k]))
  {
    hide NestIs, Directly, Leads, Settle, BlockFacts, OpenAt;
    assert !IsEnd(ts, k) by { LeadersDoNotEnd(ts, indents, k); }
    if a.stack != [] {
      var r := SettleStack(ts, a, indents[k]);
      var top := Innermost(a.stack);
      TopEncloses(ts, links, k, a.stack);
      NestSettled(ts, links, indents, a.out, k, top);
      forall d | 0 <= d < |a.stack| - 1
        ensures NestIs(ts, links, indents, a.out, k + 1, r[d])
      {
        if Directly(ts, links, a.stack[d].start, k) {
          OnlyTopEncloses(ts, links, k, a.stack, a.stack[d].start);
        }
        StartsIn(ts, links, indents, a.out, k, a.stack[d]);
        NestUnmoved(ts, links, indents, a.out, a.out, k, a.stack[d]);
      }
    }
  }

  lemma LeadersDoNotEnd(ts: seq<Tok>, indents: Indents, k: nat)
    requires Leads(ts, indents, k)
    ensures !IsEnd(ts, k)
  {
  }

  /** The indent of token `k` in a laid-out list. Skipped tokens and tokens inside a line keep what they had;
      end and else tags stand under their start; a token with no block around it stands at the margin; and
      any other stands at the indent its block gives, or keeps its own when the block leads no line. */
  ghost predicate LaidAt(ts: seq<Tok>, links: State, indents: Indents, out: Indents, k: nat)
    requires k < |ts| == |indents| == |out|
  {
    if Skipped(ts[k]) || indents[k].None? then out[k] == indents[k]
    else if IsEnd(ts, k) then
      k in links.startOf && links.startOf[k] < k && out[k] == out[links.startOf[k]]
    else
      && ((forall p: nat :: !Directly(ts, links, p, k)) ==> out[k] == Some(""))
      && (forall p: nat :: p < k && Directly(ts, links, p, k) ==>
            out[k] == if out[p].Some? then Some(out[p].value + Gap(ts, links, indents, p)) else indents[k])
  }

  ghost predicate Underway(ts: seq<Tok>, links: State, indents: Indents, k: nat, a: Adjusting) {
    && BlockFacts(ts, links) && Sized(ts, links, a) && |ts| == |indents| && k <= |ts|
    && StackIs(ts, links, k, a.stack)
    && NestsAre(ts, links, indents, a.out, k, a.stack)
    && forall j :: k <= j < |ts| ==> a.out[j] == indents[j]
  }

  ghost predicate TurnLays(ts: seq<Tok>, links: State, indents: Indents, k: nat, stack: seq<Nest>, out: Indents) {
    && k < |ts| == |indents| == |out|
    && NestsAre(ts, links, indents, out, k + 1, stack)
    && LaidAt(ts, links, indents, out, k)
  }

  lemma QuietTurn(ts: seq<Tok>, links: State, indents: Indents, k: nat, a: Adjusting)
    requires Underway(ts, links, indents, k, a) && k < |ts| && (Skipped(ts[k]) || ts[k].tag == "else")
    requires AdjustToken(ts, links, k, a).Ok?
    ensures var b := AdjustToken(ts, links, k, a).value; TurnLays(ts, links, indents, k, b.stack, b.out)
  {
    hide Skipped, TagFlavor, NestIs, StackIs, BlockFacts;
    var b := AdjustToken(ts, links, k, a).value;
    LinkKinds(ts, links, k);
    if !Skipped(ts[k]) {
      EndFacts(ts, links, k);
    }
    StacksBefore(ts, links, k, a.stack);
    NestsUnmoved(ts, links, indents, a.out, b.out, k, a.stack);
  }

  lemma StacksBefore(ts: seq<Tok>, links: State, k: nat, stack: seq<Nest>)
    requires StackIs(ts, links, k, stack)
    ensures forall d :: 0 <= d < |stack| ==> stack[d].start < k
  {
    hide Visible;
  }

  lemma EndTurn(ts: seq<Tok>, links: State, indents: Indents, k: nat, a: Adjusting)
    requires Underway(ts, links, indents, k, a) && k < |ts| && !Skipped(ts[k]) && ts[k].tag != "else" && IsEnd(ts, k)
    requires AdjustToken(ts, links, k, a).Ok?
    ensures var b := AdjustToken(ts, links, k, a).value; TurnLays(ts, links, indents, k, b.stack, b.out)
  {
    hide Skipped, TagFlavor, NestIs, StackIs, BlockFacts, Settle;
    var b := AdjustToken(ts, links, k, a).value;
    LinkKinds(ts, links, k);
    EndFacts(ts, links, k);
    StacksBefore(ts, links, k, a.stack);
    NestsUnmoved(ts, links, indents, a.out, b.out, k, a.stack[..|a.stack| - 1]);
    assert b.stack == a.stack[..|a.stack| - 1];
  }

  /** After the settling step of a start or leaf token, every block holds what the next turn expects. */
  lemma SettleTurn(ts: seq<Tok>, links: State, indents: Indents, k: nat, a: Adjusting)
    requires Underway(ts, links, indents, k, a) && k < |ts| && !Skipped(ts[k]) && ts[k].tag != "else" && !IsEnd(ts, k)
    ensures forall d :: 0 <= d < |a.stack| ==> a.stack[d].start < |ts|
    ensures NestsAre(ts, links, indents, a.out, k + 1, SettleStack(ts, a, indents[k]))
  {
    hide Skipped, TagFlavor, NestIs, StackIs, BlockFacts, Settle;
    StacksBefore(ts, links, k, a.stack);
    if indents[k].Some? {
      NestsSettled(ts, links, indents, k, a);
    } else {
      NestsUnmoved(ts, links, indents, a.out, a.out, k, a.stack);
      SettleNothing(ts, a);
    }
  }

  lemma SettleNothing(ts: seq<Tok>, a: Adjusting)
    requires |a.out| == |ts| && forall d :: 0 <= d < |a.stack| ==> a.stack[d].start < |ts|
    ensures SettleStack(ts, a, None) == a.stack
  {
  }

  lemma NestsElsewhere(ts: seq<Tok>, links: State, indents: Indents, out: Indents, out': Indents, k: nat, stack: seq<Nest>)
    requires NestsAre(ts, links, indents, out, k, stack) && |out'| == |out|
    requires forall d :: 0 <= d < |stack| ==> stack[d].start < |out| && out'[stack[d].start] == out[stack[d].start]
    ensures NestsAre(ts, links, indents, out', k, stack)
  {
    hide ChildBefore, Gap;
  }

  /** A new block has no child yet. */
  lemma NewNest(ts: seq<Tok>, links: State, indents: Indents, out: Indents, k: nat, n: Nest)
    requires n.start == k < |ts| == |indents| == |out| && n.orig == indents[k] && !n.isFinal
    requires out[k].Some? <==> indents[k].Some?
    requires n.child == if out[k].Some? then Some(out[k].value + STEP) else None
    ensures NestIs(ts, links, indents, out, k + 1, n)
  {
    hide Visible, Leads;
  }

  lemma TopGives(ts: seq<Tok>, links: State, indents: Indents, k: nat, stack: seq<Nest>, out: Indents)
    requires BlockFacts(ts, links) && StackIs(ts, links, k, stack) && k < |ts| == |indents| == |out| && !IsEnd(ts, k)
    requires NestsAre(ts, links, indents, out, k + 1, stack) && Leads(ts, indents, k)
    ensures stack == [] ==> forall p: nat :: !Directly(ts, links, p, k)
    ensures stack != [] ==>
              var top := Innermost(stack);
              && top.start < k && Directly(ts, links, top.start, k)
              && (forall p: nat :: Directly(ts, links, p, k) ==> p == top.start)
              && top.child == if out[top.start].Some? then Some(out[top.start].value + Gap(ts, links, indents, top.start))
                              else None
  {
    forall p: nat | Directly(ts, links, p, k)
      ensures stack != [] && p == Innermost(stack).start
    {
      OnlyTopEncloses(ts, links, k, stack, p);
    }
    if stack != [] {
      TopEncloses(ts, links, k, stack);
      hide Directly, Leads, Gap, StackIs, BlockFacts;
      var top := Innermost(stack);
      assert NestIs(ts, links, indents, out, k + 1, top);
      assert Child(ts, links, indents, top.start, k);
    }
  }

  lemma LeafTurn(ts: seq<Tok>, links: State, indents: Indents, k: nat, a: Adjusting)
    requires Underway(ts, links, indents, k, a) && k < |ts| && !Skipped(ts[k]) && ts[k].tag != "else"
    requires !IsEnd(ts, k) && !IsStart(ts, k)
    requires AdjustToken(ts, links, k, a).Ok?
    ensures var b := AdjustToken(ts, links, k, a).value; TurnLays(ts, links, indents, k, b.stack, b.out)
  {
    hide Skipped, TagFlavor, NestIs, StackIs, BlockFacts, Directly, SettleStack, NestsAre;
    LinkKinds(ts, links, k);
    SettleTurn(ts, links, indents, k, a);
    SettledIs(ts, links, k, a, indents[k]);
    var stack := SettleStack(ts, a, indents[k]);
    var b := AdjustToken(ts, links, k, a).value;
    StacksBefore(ts, links, k, stack);
    NestsElsewhere(ts, links, indents, a.out, b.out, k + 1, stack);
    if indents[k].Some? {
      TopGives(ts, links, indents, k, stack, a.out);
    }
  }

  lemma StartTurn(ts: seq<Tok>, links: State, indents: Indents, k: nat, a: Adjusting)
    requires Underway(ts, links, indents, k, a) && k < |ts| && !Skipped(ts[k]) && ts[k].tag != "else" && IsStart(ts, k)
    requires AdjustToken(ts, links, k, a).Ok?
    ensures var b := AdjustToken(ts, links, k, a).value; TurnLays(ts, links, indents, k, b.stack, b.out)
  {
    hide Skipped, TagFlavor, NestIs, StackIs, BlockFacts, Directly, SettleStack, NestsAre;
    LinkKinds(ts, links, k);
    SettleTurn(ts, links, indents, k, a);
    SettledIs(ts, links, k, a, indents[k]);
    var stack := SettleStack(ts, a, indents[k]);
    var b := AdjustToken(ts, links, k, a).value;
    StacksBefore(ts, links, k, stack);
    NestsElsewhere(ts, links, indents, a.out, b.out, k + 1, stack);
    NewNest(ts, links, indents, b.out, k, Innermost(b.stack));
    NestAdded(ts, links, indents, b.out, k + 1, stack, Innermost(b.stack));
    if indents[k].Some? {
      TopGives(ts, links, indents, k, stack, a.out);
    }
  }

  lemma NestAdded(ts: seq<Tok>, links: State, indents: Indents, out: Indents, k: nat, stack: seq<Nest>, n: Nest)
    requires NestsAre(ts, links, indents, out, k, stack) && NestIs(ts, links, indents, out, k, n)
    ensures NestsAre(ts, links, indents, out, k, stack + [n])
  {
    hide NestIs;
  }

  lemma TurnLaysOut(ts: seq<Tok>, links: State, indents: Indents, k: nat, a: Adjusting)
    requires Underway(ts, links, indents, k, a) && k < |ts| && AdjustToken(ts, links, k, a).Ok?
    ensures var b := AdjustToken(ts, links, k, a).value;
            Underway(ts, links, indents, k + 1, b) && LaidAt(ts, links, indents, b.out, k)
  {
    hide Skipped, TagFlavor, NestsAre, StackIs, BlockFacts, AdjustToken, LaidAt;
    TurnStack(ts, links, k, a);
    TurnWritesOne(ts, links, k, a);
    if Skipped(ts[k]) || ts[k].tag == "else" {
      QuietTurn(ts, links, indents, k, a);
    } else if IsEnd(ts, k) {
      EndTurn(ts, links, indents, k, a);
    } else if IsStart(ts, k) {
      StartTurn(ts, links, indents, k, a);
    } else {
      LeafTurn(ts, links, indents, k, a);
    }
  }

  ghost predicate Laid(ts: seq<Tok>, links: State, indents: Indents, out: Indents) {
    |out| == |indents| == |ts| && forall k :: 0 <= k < |ts| ==> LaidAt(ts, links, indents, out, k)
  }

  /** Later turns do not disturb the layout of a token: it depends on earlier indents only. */
  lemma LaidStays(ts: seq<Tok>, links: State, indents: Indents, out: Indents, out': Indents, k: nat)
    requires k < |ts| == |indents| == |out| == |out'| && LaidAt(ts, links, indents, out, k)
    requires forall j :: 0 <= j <= k ==> out'[j] == out[j]
    ensures LaidAt(ts, links, indents, out', k)
  {
    hide Skipped, IsEnd, Directly, Gap;
  }

  lemma {:induction false} PassLaysOut(ts: seq<Tok>, links: State, indents: Indents, k: nat)
    requires BlockFacts(ts, links) && Sized(ts, links, Adjusting([], indents)) && k <= |ts|
    requires AdjustedUpTo(ts, links, indents, k).Ok?
    ensures var a := AdjustedUpTo(ts, links, indents, k).value;
            && Underway(ts, links, indents, k, a)
            && forall j :: 0 <= j < k ==> LaidAt(ts, links, indents, a.out, j)
  {
    hide AdjustToken, LaidAt, BlockFacts;
    if k == 0 {
      NoneOpen(ts, links);
    } else {
      hide Underway;
      PassLaysOut(ts, links, indents, k - 1);
      var a := AdjustedUpTo(ts, links, indents, k - 1).value;
      TurnLaysOut(ts, links, indents, k - 1, a);
      TurnWritesOne(ts, links, k - 1, a);
      var b := AdjustedUpTo(ts, links, indents, k).value;
      forall j | 0 <= j < k - 1
        ensures LaidAt(ts, links, indents, b.out, j)
      {
        LaidStays(ts, links, indents, a.out, b.out, j);
      }
    }
  }

  /** The block pass gives every token the indent that the block structure calls for. */
  lemma AdjustedIsLaid(ts: seq<Tok>, links: State, indents: Indents, out: Indents)
    requires Validated(ts, links) && |indents| == |ts| && Sized(ts, links, Adjusting([], indents))
    requires Adjusted(ts, links, indents) == Ok(out)
    ensures Laid(ts, links, indents, out)
  {
    hide Validated, LaidAt, BlockFacts;
    ValidatedBlocks(ts, links);
    PassLaysOut(ts, links, indents, |ts|);
  }

  /** There is only one way to lay out a list. */
  lemma {:induction false} LayoutIsUnique(ts: seq<Tok>, links: State, indents: Indents, out: Indents, out': Indents, k: nat)
    requires Laid(ts, links, indents, out) && Laid(ts, links, indents, out') && k <= |ts|
    ensures forall j :: 0 <= j < k ==> out[j] == out'[j]
  {
    hide Skipped, IsEnd, Gap;
    if k > 0 {
      var m := k - 1;
      LayoutIsUnique(ts, links, indents, out, out', m);
      assert LaidAt(ts, links, indents, out, m) && LaidAt(ts, links, indents, out', m);
      if exists p: nat :: Directly(ts, links, p, m) {
        var p: nat :| Directly(ts, links, p, m);
        assert out[p] == out'[p];
      }
    }
  }

  // When the pass succeeds

  /** No comment, variable or other lone token carries the tag "else". */
  ghost predicate NoElseLeaf(ts: seq<Tok>) {
    forall k :: 0 <= k < |ts| && ts[k].tag == "else" && !Skipped(ts[k]) ==> IsEnd(ts, k)
  }

  /** A start tag that leads its line stands in blocks whose start tags lead theirs. */
  ghost predicate Ladder(ts: seq<Tok>, links: State, indents: Indents)
    requires |indents| == |ts|
  {
    forall p: nat, k: nat ::
      (Visible(ts, p) && Visible(ts, k) && p in links.endOf && p < k < links.endOf[p] && indents[k].Some?) ==>
        indents[p].Some?
  }

  /** Whether a turn succeeds, told by the blocks around its token. */
  lemma TurnSucceeds(ts: seq<Tok>, links: State, indents: Indents, k: nat, a: Adjusting)
    requires Underway(ts, links, indents, k, a) && k < |ts|
    ensures AdjustToken(ts, links, k, a).Ok? <==>
              && (ts[k].tag == "else" && !Skipped(ts[k]) ==> IsEnd(ts, k))
              && (Visible(ts, k) && indents[k].Some? ==>
                    forall p: nat :: p < k && Directly(ts, links, p, k) ==> indents[p].Some?)
  {
    hide Skipped, TagFlavor, NestIs, StackIs, BlockFacts, Directly, SettleStack, NestsAre;
    LinkKinds(ts, links, k);
    if !Skipped(ts[k]) && ts[k].tag != "else" {
      StacksBefore(ts, links, k, a.stack);
      SettledIs(ts, links, k, a, indents[k]);
      if IsEnd(ts, k) {
        EndMeetsItsStart(ts, links, k, SettleStack(ts, a, indents[k]));
      } else if IsStart(ts, k) {
        SettleTurn(ts, links, indents, k, a);
        StartSucceeds(ts, links, indents, k, SettleStack(ts, a, indents[k]), a.out);
      }
    }
  }

  lemma StartSucceeds(ts: seq<Tok>, links: State, indents: Indents, k: nat, stack: seq<Nest>, out: Indents)
    requires BlockFacts(ts, links) && StackIs(ts, links, k, stack) && k < |ts| == |indents| == |out|
    requires NestsAre(ts, links, indents, out, k + 1, stack) && out[k] == indents[k]
    requires Visible(ts, k) && ts[k].tag != "else" && !IsEnd(ts, k)
    ensures AdjustStart(k, stack, out).Ok? <==>
              (indents[k].Some? ==> forall p: nat :: p < k && Directly(ts, links, p, k) ==> indents[p].Some?)
  {
    hide Skipped, TagFlavor, StackIs, BlockFacts, Directly, Gap, ChildBefore;
    if indents[k].Some? {
      TopGives(ts, links, indents, k, stack, out);
      if stack != [] {
        assert NestIs(ts, links, indents, out, k + 1, Innermost(stack));
      }
    }
  }

  lemma {:induction false} SucceedsOnLadder(ts: seq<Tok>, links: State, indents: Indents, k: nat)
    requires BlockFacts(ts, links) && Sized(ts, links, Adjusting([], indents)) && k <= |ts|
    requires NoElseLeaf(ts) && Ladder(ts, links, indents)
    ensures AdjustedUpTo(ts, links, indents, k).Ok?
  {
    hide AdjustToken, BlockFacts, Underway, Skipped, TagFlavor;
    if k > 0 {
      SucceedsOnLadder(ts, links, indents, k - 1);
      PassLaysOut(ts, links, indents, k - 1);
      TurnSucceeds(ts, links, indents, k - 1, AdjustedUpTo(ts, links, indents, k - 1).value);
    }
  }

  /** In a successful run the innermost block around a line-leading start tag leads its line. */
  lemma SuccessAt(ts: seq<Tok>, links: State, indents: Indents, k: nat)
    requires BlockFacts(ts, links) && Sized(ts, links, Adjusting([], indents)) && k < |ts|
    requires AdjustedUpTo(ts, links, indents, |ts|).Ok?
    ensures ts[k].tag == "else" && !Skipped(ts[k]) ==> IsEnd(ts, k)
    ensures Visible(ts, k) && indents[k].Some? ==>
              forall p: nat :: p < k && Directly(ts, links, p, k) ==> indents[p].Some?
    ensures AdjustedUpTo(ts, links, indents, k).Ok?
    ensures StackIs(ts, links, k, AdjustedUpTo(ts, links, indents, k).value.stack)
  {
    hide AdjustToken, BlockFacts, Skipped, TagFlavor, StackIs, NestsAre, Directly;
    OutOfPrefix(ts, links, indents, k + 1, |ts|);
    OutOfPrefix(ts, links, indents, k, |ts|);
    PassLaysOut(ts, links, indents, k);
    TurnSucceeds(ts, links, indents, k, AdjustedUpTo(ts, links, indents, k).value);
  }

  lemma {:induction false} SuccessMakesLadder(ts: seq<Tok>, links: State, indents: Indents, p: nat, k: nat)
    requires BlockFacts(ts, links) && Sized(ts, links, Adjusting([], indents)) && k < |ts|
    requires AdjustedUpTo(ts, links, indents, |ts|).Ok?
    requires Visible(ts, p) && Visible(ts, k) && p in links.endOf && p < k < links.endOf[p] && indents[k].Some?
    ensures indents[p].Some?
    decreases k
  {
    hide AdjustedUpTo, Skipped, TagFlavor;
    SuccessAt(ts, links, indents, k);
    var stack := AdjustedUpTo(ts, links, indents, k).value.stack;
    OpenBlocksUnderTop(ts, links, k, stack, p);
    assert OpenAt(ts, links, k, p);
    LinkKinds(ts, links, k);
    StartsAreNotEnds(ts, k);
    TopEncloses(ts, links, k, stack);
    var q := Innermost(stack).start;
    if p < q {
      SuccessMakesLadder(ts, links, indents, p, q);
    }
  }

  lemma StartsAreNotEnds(ts: seq<Tok>, k: nat)
    requires Visible(ts, k)
    ensures !IsEnd(ts, k)
  {
  }

  /** The pass succeeds on validated tokens exactly when no lone token is tagged "else" and line-leading
      start tags stand only in blocks that lead their lines. */
  lemma AdjustSucceedsExactly(ts: seq<Tok>, links: State, indents: Indents)
    requires Validated(ts, links) && |indents| == |ts|
    ensures Sized(ts, links, Adjusting([], indents))
    ensures Adjusted(ts, links, indents).Ok? <==> NoElseLeaf(ts) && Ladder(ts, links, indents)
  {
    hide Validated, AdjustedUpTo, BlockFacts, Skipped, TagFlavor;
    LinksSized(ts, links, indents);
    ValidatedBlocks(ts, links);
    if NoElseLeaf(ts) && Ladder(ts, links, indents) {
      SucceedsOnLadder(ts, links, indents, |ts|);
    }
    if Adjusted(ts, links, indents).Ok? {
      forall k | 0 <= k < |ts| && ts[k].tag == "else" && !Skipped(ts[k])
        ensures IsEnd(ts, k)
      {
        SuccessAt(ts, links, indents, k);
      }
      forall p: nat, k: nat | Visible(ts, p) && Visible(ts, k) && p in links.endOf && p < k < links.endOf[p]
                              && indents[k].Some?
        ensures indents[p].Some?
      {
        SuccessMakesLadder(ts, links, indents, p, k);
      }
    }
  }

  // Why tags must carry no `~`

  function HtmlTok(kind: Kind, tag: string): Tok {
    Tok(kind, "<" + tag + ">", tag, 1, 1, 1)
  }

  const OPEN_B := HtmlTok(HtmlStart, "b")
  const OPEN_PRE := HtmlTok(HtmlStart, "pre~")
  const CLOSE_PRE := HtmlTok(HtmlEnd, "pre")
  const CLOSE_B := HtmlTok(HtmlEnd, "b")
  const IN_B := State([Frame(0, "b", 1, false)], 1, false, map[], map[])
  const IN_PRE := State([Frame(0, "b", 1, false), Frame(1, "pre", 1, false)], 2, false, map[], map[])
  const AFTER_PRE := State([Frame(0, "b", 1, false)], 1, false, map[2 := 1], map[1 := 2])
  const AFTER_B := State([], 0, false, map[2 := 1, 3 := 0], map[1 := 2, 0 := 3])

  /** The tokens of `<b><pre~></pre></b>`. */
  function TildeExample(): (ts: seq<Tok>)
    ensures |ts| == 4
  {
    [OPEN_B, OPEN_PRE, CLOSE_PRE, CLOSE_B]
  }

  lemma BareTilde(tag: string)
    requires tag != "" && '~' !in tag
    ensures Bare(tag + "~") == tag
  {
    var t := tag + "~";
    assert t[0] == tag[0];
    assert LTrim(t, {'~'}) == t;
    assert t[|t| - 1] == '~' && t[..|t| - 1] == tag;
    assert RTrim(tag, {'~'}) == tag;
    assert RTrim(t, {'~'}) == RTrim(tag, {'~'});
  }

  lemma TildeBare()
    ensures Bare("b") == "b" && Bare("pre") == "pre" && Bare("pre~") == "pre"
  {
    hide Bare;
    BareTag("b");
    BareTag("pre");
    BareTilde("pre");
    assert "pre" + "~" == "pre~";
  }

  lemma TildeFlavors()
    ensures FlavorOf(OPEN_B) == FlavorOf(OPEN_PRE) == Start
    ensures FlavorOf(CLOSE_PRE) == FlavorOf(CLOSE_B) == End
  {
  }

  lemma TildeRules()
    ensures SelfClosingRule(false, OPEN_B) && SelfClosingRule(false, OPEN_PRE)
    ensures SelfClosingRule(false, CLOSE_PRE) && SelfClosingRule(false, CLOSE_B)
  {
    hide Bare;
    assert "b" !in HTML_VOID_TAGS && "pre" !in HTML_VOID_TAGS && "pre~" !in HTML_VOID_TAGS;
  }

  lemma TildeOpens()
    ensures Step(OPEN_B, 0, INIT) == Ok(IN_B)
    ensures Step(OPEN_PRE, 1, IN_B) == Ok(IN_PRE)
  {
    TildeBare();
    TildeFlavors();
    TildeRules();
    hide Bare, SelfClosingRule, FlavorOf;
    assert "b" !in FOREIGN_TAGS && "pre" !in FOREIGN_TAGS;
    assert Push(OPEN_B, 0, INIT).stack == IN_B.stack;
    assert Push(OPEN_PRE, 1, IN_B).stack == IN_PRE.stack;
  }

  lemma TildeCloses()
    ensures Step(CLOSE_PRE, 2, IN_PRE) == Ok(AFTER_PRE)
    ensures Step(CLOSE_B, 3, AFTER_PRE) == Ok(AFTER_B)
  {
    TildeBare();
    TildeFlavors();
    TildeRules();
    hide Bare, SelfClosingRule, FlavorOf;
    assert "b" != "else" && "pre" != "else" && "pre" != "code" && "b" != "code";
    assert IN_PRE.stack[..1] == AFTER_PRE.stack;
    assert AFTER_PRE.stack[..0] == [];
  }

  lemma TildeMatches()
    ensures MatchTags(TildeExample()) == Ok(AFTER_B)
  {
    TildeOpens();
    TildeCloses();
    hide Step;
    var ts := TildeExample();
    assert After(ts, 0) == Ok(INIT);
    assert After(ts, 1) == Ok(IN_B);
    assert After(ts, 2) == Ok(IN_PRE);
    assert After(ts, 3) == Ok(AFTER_PRE);
    assert After(ts, 4) == Ok(AFTER_B);
  }

  lemma TildeSkips()
    ensures !Skipped(OPEN_B) && !Skipped(OPEN_PRE) && Skipped(CLOSE_PRE) && !Skipped(CLOSE_B)
  {
  }

  const NO_INDENTS: Indents := [None, None, None, None]
  const OPENED_B := Nest(0, None, None, false)
  const OPENED_PRE := Nest(1, None, None, false)

  lemma NoneSettlesNothing(ts: seq<Tok>, a: Adjusting)
    requires |a.out| == |ts| && forall d :: 0 <= d < |a.stack| ==> a.stack[d].start < |ts|
    ensures SettleStack(ts, a, None) == a.stack
  {
  }

  /** A start tag inside a line is pushed without an indent. */
  lemma OpensInline(ts: seq<Tok>, links: State, k: nat, a: Adjusting)
    requires Sized(ts, links, a) && k < |ts|
    requires !Skipped(ts[k]) && ts[k].tag != "else" && k in links.endOf && a.out[k].None?
    ensures AdjustToken(ts, links, k, a) == Ok(a.(stack := a.stack + [Nest(k, None, None, false)]))
  {
    hide Skipped, AllowsChildrenToSkipIndents;
    NoneSettlesNothing(ts, a);
  }

  /** An end tag meets a start tag that is not its own. */
  lemma MeetsAnother(ts: seq<Tok>, links: State, k: nat, a: Adjusting)
    requires Sized(ts, links, a) && k < |ts| && a.stack != []
    requires !Skipped(ts[k]) && ts[k].tag != "else" && k !in links.endOf && a.out[k].None?
    requires k in links.startOf && Innermost(a.stack).start != links.startOf[k]
    ensures AdjustToken(ts, links, k, a) == Raise(Unexpected)
  {
    hide Skipped, AllowsChildrenToSkipIndents;
    NoneSettlesNothing(ts, a);
  }

  lemma TildeSized(stack: seq<Nest>)
    requires stack in [[], [OPENED_B], [OPENED_B, OPENED_PRE]]
    ensures Sized(TildeExample(), AFTER_B, Adjusting(stack, NO_INDENTS))
  {
  }

  lemma TildeSteps()
    ensures var ts := TildeExample();
            && Sized(ts, AFTER_B, Adjusting([], NO_INDENTS))
            && Sized(ts, AFTER_B, Adjusting([OPENED_B], NO_INDENTS))
            && Sized(ts, AFTER_B, Adjusting([OPENED_B, OPENED_PRE], NO_INDENTS))
            && AdjustToken(ts, AFTER_B, 0, Adjusting([], NO_INDENTS)) == Ok(Adjusting([OPENED_B], NO_INDENTS))
            && AdjustToken(ts, AFTER_B, 1, Adjusting([OPENED_B], NO_INDENTS))
               == Ok(Adjusting([OPENED_B, OPENED_PRE], NO_INDENTS))
            && AdjustToken(ts, AFTER_B, 2, Adjusting([OPENED_B, OPENED_PRE], NO_INDENTS))
               == Ok(Adjusting([OPENED_B, OPENED_PRE], NO_INDENTS))
            && AdjustToken(ts, AFTER_B, 3, Adjusting([OPENED_B, OPENED_PRE], NO_INDENTS)) == Raise(Unexpected)
  {
    hide Skipped, AllowsChildrenToSkipIndents, Sized, SettleStack;
    TildeSkips();
    TildeSized([]);
    TildeSized([OPENED_B]);
    TildeSized([OPENED_B, OPENED_PRE]);
    var ts := TildeExample();
    assert OPEN_B.tag != "else" && OPEN_PRE.tag != "else" && CLOSE_B.tag != "else";
    assert [] + [OPENED_B] == [OPENED_B] && [OPENED_B] + [OPENED_PRE] == [OPENED_B, OPENED_PRE];
    assert ts[0] == OPEN_B && ts[1] == OPEN_PRE && ts[2] == CLOSE_PRE && ts[3] == CLOSE_B;
    OpensInline(ts, AFTER_B, 0, Adjusting([], NO_INDENTS));
    OpensInline(ts, AFTER_B, 1, Adjusting([OPENED_B], NO_INDENTS));
    MeetsAnother(ts, AFTER_B, 3, Adjusting([OPENED_B, OPENED_PRE], NO_INDENTS));
  }

  /** Validation matches `<pre~>` with `</pre>`, but the block pass skips only the end tag, and so does not
      expect the end tag after it. */
  lemma TildeMeetsUnexpected()
    ensures MatchTags(TildeExample()) == Ok(AFTER_B)
    ensures Sized(TildeExample(), AFTER_B, Adjusting([], NO_INDENTS))
    ensures Adjusted(TildeExample(), AFTER_B, NO_INDENTS) == Raise(Unexpected)
  {
    TildeMatches();
    TildeSteps();
    hide MatchTags, AdjustToken;
    var ts := TildeExample();
    assert AdjustedUpTo(ts, AFTER_B, NO_INDENTS, 1) == Ok(Adjusting([OPENED_B], NO_INDENTS));
    assert AdjustedUpTo(ts, AFTER_B, NO_INDENTS, 2) == Ok(Adjusting([OPENED_B, OPENED_PRE], NO_INDENTS));
    assert AdjustedUpTo(ts, AFTER_B, NO_INDENTS, 3) == Ok(Adjusting([OPENED_B, OPENED_PRE], NO_INDENTS));
    assert AdjustedUpTo(ts, AFTER_B, NO_INDENTS, 4) == Raise(Unexpected);
  }
}
