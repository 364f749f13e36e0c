/** When exactly the block pass succeeds, and when it meets an end tag that it does not expect, on any tokens that
    validation accepts. */
module UnexpectedEnds {
  import opened Text
  import opened Tokens
  import opened Matcher
  import opened Layout
  import opened LayoutMeaning

  /** An end tag at which the pass takes a block off its stack. */
  predicate Takes(ts: seq<Tok>, e: nat) {
    IsEnd(ts, e) && !IsElse(ts, e) && !Skipped(ts[e])
  }

  /** The block of `p` was put on the stack and has been taken off before token `k`. */
  predicate TakenBefore(ts: seq<Tok>, links: State, k: nat, p: nat) {
    p in links.endOf && links.endOf[p] < k && Takes(ts, links.endOf[p])
  }

  /** The end tag ends a block that the pass has put on its stack, and so it has every block inside that it has put
      there. */
  ghost predicate Expected(ts: seq<Tok>, links: State, e: nat) {
    && e in links.startOf && Visible(ts, links.startOf[e])
    && forall p: nat :: links.startOf[e] < p < e && Visible(ts, p) ==> TakenBefore(ts, links, e, p)
  }

  /** What validation alone promises. */
  ghost predicate LinkFacts(ts: seq<Tok>, links: State) {
    && (forall p: nat :: IsStart(ts, p) ==> p in links.endOf && p !in links.startOf && p < links.endOf[p] < |ts|)
    && (forall p: nat :: IsStart(ts, p) ==>
          links.endOf[p] in links.startOf && links.startOf[links.endOf[p]] == p && IsEnd(ts, links.endOf[p]))
    && (forall e: nat :: IsEnd(ts, e) ==> e in links.startOf && e !in links.endOf && IsStart(ts, links.startOf[e]))
    && (forall e: nat :: IsEnd(ts, e) && !IsElse(ts, e) ==> links.startOf[e] < e && links.endOf[links.startOf[e]] == e)
    && (forall k: nat :: k < |ts| && !IsStart(ts, k) && !IsEnd(ts, k) ==> k !in links.startOf && k !in links.endOf)
  }

  lemma LinksHold(ts: seq<Tok>, links: State)
    requires MatchTags(ts) == Ok(links)
    ensures LinkFacts(ts, links)
  {
    hide MatchTags, TagFlavor, Fits;
    LinksAreMutualAndNested(ts);
  }

  /** The stack holds the blocks that were put on it and not taken off, oldest first. */
  ghost predicate OnStackAt(ts: seq<Tok>, links: State, k: nat, p: nat) {
    p < k && Visible(ts, p) && !TakenBefore(ts, links, k, p)
  }

  ghost predicate StackLeft(ts: seq<Tok>, links: State, k: nat, stack: seq<Nest>) {
    && (forall d :: 0 <= d < |stack| ==> OnStackAt(ts, links, k, stack[d].start))
    && (forall d, e :: 0 <= d < e < |stack| ==> stack[d].start < stack[e].start)
    && (forall p: nat :: OnStackAt(ts, links, k, p) ==> Holds(stack, p))
  }

  lemma SettledLeft(ts: seq<Tok>, links: State, k: nat, a: Adjusting, indent: Option<string>)
    requires StackLeft(ts, links, k, a.stack) && |a.out| == |ts| && k <= |ts|
    ensures forall d :: 0 <= d < |a.stack| ==> a.stack[d].start < |ts|
    ensures StackLeft(ts, links, k, SettleStack(ts, a, indent))
  {
    hide Visible, TakenBefore, Settle;
    var r := SettleStack(ts, a, indent);
    forall p: nat | OnStackAt(ts, links, k, p)
      ensures Holds(r, p)
    {
      var d :| 0 <= d < |a.stack| && a.stack[d].start == p;
      assert r[d].start == p;
    }
  }

  /** A token that puts nothing on the stack and takes nothing off. */
  lemma SameLeft(ts: seq<Tok>, links: State, k: nat, stack: seq<Nest>)
    requires StackLeft(ts, links, k, stack) && !Visible(ts, k) && !Takes(ts, k)
    ensures StackLeft(ts, links, k + 1, stack)
  {
    hide Visible, Takes;
    forall p: nat
      ensures OnStackAt(ts, links, k, p) <==> OnStackAt(ts, links, k + 1, p)
    {
    }
  }

  lemma OneMoreLeft(ts: seq<Tok>, links: State, k: nat, stack: seq<Nest>, nest: Nest)
    requires LinkFacts(ts, links) && StackLeft(ts, links, k, stack) && Visible(ts, k) && nest.start == k
    ensures StackLeft(ts, links, k + 1, stack + [nest])
  {
    hide Skipped, TagFlavor;
    var r := stack + [nest];
    assert r[|stack|].start == k;
    assert !Takes(ts, k);
    forall d | 0 <= d < |stack|
      ensures OnStackAt(ts, links, k + 1, r[d].start)
    {
      assert OnStackAt(ts, links, k, stack[d].start);
    }
    forall p: nat | OnStackAt(ts, links, k + 1, p)
      ensures Holds(r, p)
    {
      if p != k {
        assert OnStackAt(ts, links, k, p);
        var d :| 0 <= d < |stack| && stack[d].start == p;
        assert r[d].start == p;
      }
    }
  }

  /** The innermost block on the stack is the one an expected end tag ends, and only then. */
  lemma TopIsExpected(ts: seq<Tok>, links: State, k: nat, stack: seq<Nest>)
    requires LinkFacts(ts, links) && StackLeft(ts, links, k, stack) && Takes(ts, k)
    ensures k in links.startOf
    ensures Expected(ts, links, k) <==> stack != [] && Innermost(stack).start == links.startOf[k]
  {
    hide Skipped, TagFlavor;
    var q := links.startOf[k];
    if Expected(ts, links, k) {
      assert OnStackAt(ts, links, k, q);
      var d :| 0 <= d < |stack| && stack[d].start == q;
      assert OnStackAt(ts, links, k, Innermost(stack).start);
    }
    if stack != [] && Innermost(stack).start == q {
      assert OnStackAt(ts, links, k, q);
      forall p: nat | q < p < k && Visible(ts, p)
        ensures TakenBefore(ts, links, k, p)
      {
        if OnStackAt(ts, links, k, p) {
          AboveTop(stack, p);
        }
      }
    }
  }

  lemma AboveTop(stack: seq<Nest>, p: nat)
    requires forall d, e :: 0 <= d < e < |stack| ==> stack[d].start < stack[e].start
    requires Holds(stack, p)
    ensures stack != [] && p <= Innermost(stack).start
  {
  }

  lemma OneLessLeft(ts: seq<Tok>, links: State, k: nat, stack: seq<Nest>)
    requires LinkFacts(ts, links) && StackLeft(ts, links, k, stack) && Takes(ts, k)
    requires stack != [] && Innermost(stack).start == links.startOf[k]
    ensures StackLeft(ts, links, k + 1, stack[..|stack| - 1])
  {
    hide Skipped, TagFlavor;
    var r := stack[..|stack| - 1];
    forall d | 0 <= d < |r|
      ensures OnStackAt(ts, links, k + 1, r[d].start)
    {
      assert OnStackAt(ts, links, k, stack[d].start) && stack[d].start < links.startOf[k];
    }
    forall p: nat | OnStackAt(ts, links, k + 1, p)
      ensures Holds(r, p)
    {
      assert p != k;
      assert OnStackAt(ts, links, k, p);
      var d :| 0 <= d < |stack| && stack[d].start == p;
      assert r[d].start == p;
    }
  }

  lemma KindsOf(ts: seq<Tok>, links: State, k: nat)
    requires LinkFacts(ts, links) && k < |ts|
    ensures k in links.endOf <==> IsStart(ts, k)
    ensures k in links.startOf <==> IsEnd(ts, k)
    ensures !(IsStart(ts, k) && IsEnd(ts, k))
  {
    hide Skipped;
  }

  // What stops the pass

  /** Block `p` is the innermost one on the stack. */
  ghost predicate NewestLeft(ts: seq<Tok>, links: State, k: nat, p: nat) {
    OnStackAt(ts, links, k, p) && forall q: nat :: OnStackAt(ts, links, k, q) ==> q <= p
  }

  /** A line-leading start tag whose innermost block does not lead its line. */
  ghost predicate OffTheLine(ts: seq<Tok>, links: State, indents: Indents, k: nat)
    requires |indents| == |ts| && k < |ts|
  {
    && ts[k].tag != "else" && IsStart(ts, k) && indents[k].Some?
    && exists p: nat :: NewestLeft(ts, links, k, p) && indents[p].None?
  }

  ghost predicate Unwanted(ts: seq<Tok>, links: State, k: nat) {
    Takes(ts, k) && !Expected(ts, links, k)
  }

  /** The pass cannot get past token `k`. */
  ghost predicate Bars(ts: seq<Tok>, links: State, indents: Indents, k: nat)
    requires |indents| == |ts| && k < |ts|
  {
    && !Skipped(ts[k])
    && (|| (ts[k].tag == "else" && !IsEnd(ts, k))
        || OffTheLine(ts, links, indents, k)
        || Unwanted(ts, links, k))
  }

  ghost predicate NoneBars(ts: seq<Tok>, links: State, indents: Indents, k: nat)
    requires |indents| == |ts| && k <= |ts|
  {
    forall j :: 0 <= j < k ==> !Bars(ts, links, indents, j)
  }

  /** Start tags and the tokens to come have an indent exactly if they had one at the beginning. */
  ghost predicate Present(ts: seq<Tok>, indents: Indents, k: nat, out: Indents) {
    && |out| == |indents| == |ts|
    && forall j: nat :: j < |ts| && (j >= k || IsStart(ts, j)) ==> (out[j].Some? <==> indents[j].Some?)
  }

  /** Blocks have an indent for their children exactly if they lead their line. */
  ghost predicate Leading(indents: Indents, stack: seq<Nest>) {
    forall d :: 0 <= d < |stack| ==>
      stack[d].start < |indents| && (stack[d].child.Some? <==> indents[stack[d].start].Some?)
  }

  /** Before turn `k`. */
  ghost predicate Underway(ts: seq<Tok>, links: State, indents: Indents, k: nat, a: Adjusting) {
    StackLeft(ts, links, k, a.stack) && Present(ts, indents, k, a.out) && Leading(indents, a.stack)
  }

  lemma SettledLeads(ts: seq<Tok>, indents: Indents, k: nat, a: Adjusting, indent: Option<string>)
    requires Leading(indents, a.stack) && Present(ts, indents, k, a.out)
    requires forall d :: 0 <= d < |a.stack| ==> IsStart(ts, a.stack[d].start)
    ensures Leading(indents, SettleStack(ts, a, indent))
  {
    hide IsStart, AllowsChildrenToSkipIndents;
  }

  lemma StackStarts(ts: seq<Tok>, links: State, k: nat, stack: seq<Nest>)
    requires StackLeft(ts, links, k, stack)
    ensures forall d :: 0 <= d < |stack| ==> IsStart(ts, stack[d].start)
  {
    hide TakenBefore, Skipped, TagFlavor;
  }

  /** The innermost block on the stack is the newest one left. */
  lemma TopIsNewestLeft(ts: seq<Tok>, links: State, k: nat, stack: seq<Nest>)
    requires StackLeft(ts, links, k, stack)
    ensures stack != [] ==> NewestLeft(ts, links, k, Innermost(stack).start)
    ensures stack == [] ==> forall p: nat :: !NewestLeft(ts, links, k, p)
  {
    hide OnStackAt;
    if stack != [] {
      forall q: nat | OnStackAt(ts, links, k, q)
        ensures q <= Innermost(stack).start
      {
        AboveTop(stack, q);
      }
    }
  }

  /** A start tag, after the block around it has been settled. */
  lemma StartTurn(ts: seq<Tok>, links: State, indents: Indents, k: nat, stack: seq<Nest>, out: Indents)
    requires LinkFacts(ts, links) && Underway(ts, links, indents, k, Adjusting(stack, out))
    requires Visible(ts, k) && ts[k].tag != "else"
    ensures var r := AdjustStart(k, stack, out);
            && (r.Ok? <==> !OffTheLine(ts, links, indents, k))
            && (r.Raise? ==> r.error == AssertionError)
            && (r.Ok? ==> Underway(ts, links, indents, k + 1, r.value))
  {
    OffTheLineMeans(ts, links, indents, k, stack);
    hide Visible, OffTheLine, StackLeft, LinkFacts;
    var r := AdjustStart(k, stack, out);
    if r.Ok? {
      OneMoreLeft(ts, links, k, stack, Innermost(r.value.stack));
      hide IsStart;
      StartKeeps(ts, indents, k, stack, out);
    }
  }

  lemma OffTheLineMeans(ts: seq<Tok>, links: State, indents: Indents, k: nat, stack: seq<Nest>)
    requires StackLeft(ts, links, k, stack) && Leading(indents, stack) && |indents| == |ts|
    requires Visible(ts, k) && ts[k].tag != "else"
    ensures OffTheLine(ts, links, indents, k) <==>
              indents[k].Some? && stack != [] && Innermost(stack).child.None?
  {
    TopIsNewestLeft(ts, links, k, stack);
    hide Skipped, TagFlavor, OnStackAt, StackLeft;
    if stack != [] {
      var top := Innermost(stack).start;
      assert forall p: nat :: NewestLeft(ts, links, k, p) ==> p == top;
    }
  }

  /** A start tag puts a block on the stack and at most changes its own indent. */
  lemma StartKeeps(ts: seq<Tok>, indents: Indents, k: nat, stack: seq<Nest>, out: Indents)
    requires k < |ts| && Present(ts, indents, k, out) && Leading(indents, stack) && AdjustStart(k, stack, out).Ok?
    ensures var r := AdjustStart(k, stack, out).value;
            Present(ts, indents, k + 1, r.out) && Leading(indents, r.stack)
  {
    hide IsStart;
  }

  /** An end tag that is no else. */
  lemma EndTurn(ts: seq<Tok>, links: State, indents: Indents, k: nat, stack: seq<Nest>, out: Indents)
    requires LinkFacts(ts, links) && Underway(ts, links, indents, k, Adjusting(stack, out)) && Takes(ts, k)
    requires k in links.startOf && links.startOf[k] < |out|
    ensures var r := AdjustEnd(k, links.startOf[k], stack, out);
            && (r.Ok? <==> Expected(ts, links, k))
            && (r.Raise? ==> r.error == Unexpected)
            && (r.Ok? ==> Underway(ts, links, indents, k + 1, r.value))
  {
    TopIsExpected(ts, links, k, stack);
    hide Takes, StackLeft, LinkFacts, Expected, Present, Leading;
    if Expected(ts, links, k) {
      OneLessLeft(ts, links, k, stack);
      EndKeeps(ts, indents, k, stack, out, out[links.startOf[k]]);
    }
  }

  /** An end tag takes a block off and at most changes its own indent. */
  lemma EndKeeps(ts: seq<Tok>, indents: Indents, k: nat, stack: seq<Nest>, out: Indents, indent: Option<string>)
    requires Takes(ts, k) && Present(ts, indents, k, out) && Leading(indents, stack) && stack != []
    ensures Present(ts, indents, k + 1, out) && Present(ts, indents, k + 1, out[k := indent])
    ensures Leading(indents, stack[..|stack| - 1])
  {
    assert !IsStart(ts, k);
    hide IsStart, IsEnd, IsElse, Skipped;
  }

  /** A token that leaves the stack alone, and of the indents at most its own, if it is no start tag. */
  lemma QuietTurn(ts: seq<Tok>, links: State, indents: Indents, k: nat, a: Adjusting, out: Indents)
    requires Underway(ts, links, indents, k, a) && k < |ts| && !Visible(ts, k) && !Takes(ts, k)
    requires |out| == |ts| && forall j :: 0 <= j < |ts| && (j != k || IsStart(ts, k)) ==> out[j] == a.out[j]
    ensures Underway(ts, links, indents, k + 1, Adjusting(a.stack, out))
  {
    SameLeft(ts, links, k, a.stack);
    hide Visible, Takes, StackLeft, IsStart;
  }

  /** What a turn has to show for itself. */
  ghost predicate Turns(ts: seq<Tok>, links: State, indents: Indents, k: nat, r: Result<Adjusting>)
    requires |indents| == |ts| && k < |ts|
  {
    && (r.Ok? <==> !Bars(ts, links, indents, k))
    && (r.Raise? ==> r.error == if Unwanted(ts, links, k) then Unexpected else AssertionError)
    && (r.Ok? ==> Underway(ts, links, indents, k + 1, r.value))
  }

  lemma SkippedTurn(ts: seq<Tok>, links: State, indents: Indents, k: nat, a: Adjusting)
    requires Sized(ts, links, a) && k < |ts| && Underway(ts, links, indents, k, a) && Skipped(ts[k])
    ensures Turns(ts, links, indents, k, AdjustToken(ts, links, k, a))
  {
    assert !Visible(ts, k) && !Takes(ts, k);
    hide Skipped, TagFlavor, Underway, OffTheLine, Unwanted, Visible, Takes;
    QuietTurn(ts, links, indents, k, a, a.out);
  }

  lemma ElseTurn(ts: seq<Tok>, links: State, indents: Indents, k: nat, a: Adjusting)
    requires LinkFacts(ts, links) && Sized(ts, links, a) && k < |ts| && Underway(ts, links, indents, k, a)
    requires !Skipped(ts[k]) && ts[k].tag == "else"
    ensures Turns(ts, links, indents, k, AdjustToken(ts, links, k, a))
  {
    KindsOf(ts, links, k);
    hide Skipped, TagFlavor, Underway, LinkFacts, Expected;
    if k in links.startOf {
      assert !IsStart(ts, k) && IsElse(ts, k);
      hide IsStart, IsEnd;
      QuietTurn(ts, links, indents, k, a, AdjustToken(ts, links, k, a).value.out);
    }
  }

  lemma NoStartIsOnTheLine(ts: seq<Tok>, links: State, indents: Indents, k: nat)
    requires |indents| == |ts| && k < |ts| && !IsStart(ts, k)
    ensures !OffTheLine(ts, links, indents, k)
  {
  }

  lemma TagTurn(ts: seq<Tok>, links: State, indents: Indents, k: nat, a: Adjusting)
    requires LinkFacts(ts, links) && Sized(ts, links, a) && k < |ts| && Underway(ts, links, indents, k, a)
    requires !Skipped(ts[k]) && ts[k].tag != "else"
    ensures Turns(ts, links, indents, k, AdjustToken(ts, links, k, a))
  {
    KindsOf(ts, links, k);
    StackStarts(ts, links, k, a.stack);
    SettledLeft(ts, links, k, a, a.out[k]);
    SettledLeads(ts, indents, k, a, a.out[k]);
    var stack := SettleStack(ts, a, a.out[k]);
    hide Skipped, TagFlavor, LinkFacts, StackLeft, SettleStack, Expected, Present, Leading, OffTheLine;
    if k in links.endOf {
      assert !Takes(ts, k);
      StartTurn(ts, links, indents, k, stack, a.out);
    } else if k in links.startOf {
      NoStartIsOnTheLine(ts, links, indents, k);
      EndTurn(ts, links, indents, k, stack, a.out);
    } else {
      QuietTurn(ts, links, indents, k, Adjusting(stack, a.out), AdjustLeaf(k, stack, a.out));
    }
  }

  lemma TurnLeaves(ts: seq<Tok>, links: State, indents: Indents, k: nat, a: Adjusting)
    requires LinkFacts(ts, links) && Sized(ts, links, a) && k < |ts| && Underway(ts, links, indents, k, a)
    ensures Turns(ts, links, indents, k, AdjustToken(ts, links, k, a))
  {
    hide Skipped, LinkFacts, Underway, AdjustToken, Turns;
    if Skipped(ts[k]) {
      SkippedTurn(ts, links, indents, k, a);
    } else if ts[k].tag == "else" {
      ElseTurn(ts, links, indents, k, a);
    } else {
      TagTurn(ts, links, indents, k, a);
    }
  }

  /** An end tag stops the pass, and nothing before it does. */
  ghost predicate StopsFirst(ts: seq<Tok>, links: State, indents: Indents, e: nat)
    requires |indents| == |ts| && e < |ts|
  {
    Unwanted(ts, links, e) && NoneBars(ts, links, indents, e)
  }

  lemma {:induction false} PassLeaves(ts: seq<Tok>, links: State, indents: Indents, k: nat)
    requires LinkFacts(ts, links) && Sized(ts, links, Adjusting([], indents)) && k <= |ts|
    ensures var r := AdjustedUpTo(ts, links, indents, k);
            && (r.Ok? ==> Underway(ts, links, indents, k, r.value))
            && (r.Ok? <==> NoneBars(ts, links, indents, k))
            && (r == Raise(Unexpected) <==> exists e :: 0 <= e < k && StopsFirst(ts, links, indents, e))
            && (r.Raise? ==> r.error in {Unexpected, AssertionError})
  {
    hide AdjustToken, LinkFacts, Underway, Unwanted, Bars, NoneBars, StopsFirst;
    if k == 0 {
      NothingLeft(ts, links, indents);
    } else {
      PassLeaves(ts, links, indents, k - 1);
      var before := AdjustedUpTo(ts, links, indents, k - 1);
      FirstStop(ts, links, indents, k - 1);
      if before.Ok? {
        TurnLeaves(ts, links, indents, k - 1, before.value);
      }
    }
  }

  /** The first token that stops the pass is an end tag before `k`, or `k` itself. */
  lemma FirstStop(ts: seq<Tok>, links: State, indents: Indents, k: nat)
    requires |indents| == |ts| && k < |ts|
    ensures NoneBars(ts, links, indents, k + 1) <==> NoneBars(ts, links, indents, k) && !Bars(ts, links, indents, k)
    ensures StopsFirst(ts, links, indents, k) <==> Unwanted(ts, links, k) && NoneBars(ts, links, indents, k)
    ensures NoneBars(ts, links, indents, k) ==> forall e :: 0 <= e < k ==> !StopsFirst(ts, links, indents, e)
    ensures Unwanted(ts, links, k) ==> Bars(ts, links, indents, k)
  {
    hide Bars, Unwanted;
    forall e: nat | e <= k && Unwanted(ts, links, e)
      ensures Bars(ts, links, indents, e)
    {
      UnwantedBars(ts, links, indents, e);
    }
  }

  lemma UnwantedBars(ts: seq<Tok>, links: State, indents: Indents, e: nat)
    requires |indents| == |ts| && e < |ts| && Unwanted(ts, links, e)
    ensures Bars(ts, links, indents, e)
  {
    hide Expected, Skipped, OffTheLine;
  }

  lemma NothingLeft(ts: seq<Tok>, links: State, indents: Indents)
    requires |indents| == |ts|
    ensures Underway(ts, links, indents, 0, Adjusting([], indents)) && NoneBars(ts, links, indents, 0)
  {
  }

  /** On all tokens that validation accepts, the pass succeeds exactly if no token bars it: a lone token tagged else,
      a line-leading start tag whose innermost block on the stack does not lead its line, or an end tag that is not
      expected. */
  lemma SucceedsExactly(ts: seq<Tok>, links: State, indents: Indents)
    requires MatchTags(ts) == Ok(links) && |indents| == |ts|
    ensures Sized(ts, links, Adjusting([], indents))
    ensures Adjusted(ts, links, indents).Ok? <==> NoneBars(ts, links, indents, |ts|)
  {
    hide MatchTags, AdjustedUpTo, LinkFacts, NoneBars;
    LinksAreSized(ts, links, indents);
    LinksHold(ts, links);
    PassLeaves(ts, links, indents, |ts|);
  }

  /** And it fails with "was unexpected" exactly if the first token that bars it is an end tag, not skipped and no
      else, whose start tag it skipped or inside whose block it took a start tag but skipped the end. */
  lemma UnexpectedExactly(ts: seq<Tok>, links: State, indents: Indents)
    requires MatchTags(ts) == Ok(links) && |indents| == |ts|
    ensures Sized(ts, links, Adjusting([], indents))
    ensures Adjusted(ts, links, indents) == Raise(Unexpected) <==>
              exists e :: 0 <= e < |ts| && StopsFirst(ts, links, indents, e)
    ensures Adjusted(ts, links, indents).Raise? ==>
              Adjusted(ts, links, indents).error in {Unexpected, AssertionError}
  {
    hide MatchTags, AdjustedUpTo, LinkFacts, StopsFirst, NoneBars;
    LinksAreSized(ts, links, indents);
    LinksHold(ts, links);
    PassLeaves(ts, links, indents, |ts|);
  }
}
