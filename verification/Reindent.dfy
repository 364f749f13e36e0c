/** Re-indentation is idempotent: the block pass leaves the indents of a successful run as they are. */
module Reindent {
  import opened Text
  import opened Tokens
  import opened Matcher
  import opened Layout

  /** A turn writes the indent of its own token only. */
  lemma TurnWritesOne(ts: seq<Tok>, links: State, k: nat, a: Adjusting)
    requires Sized(ts, links, a) && k < |ts| && AdjustToken(ts, links, k, a).Ok?
    ensures var out := AdjustToken(ts, links, k, a).value.out;
            |out| == |ts| && forall j :: 0 <= j < |ts| && j != k ==> out[j] == a.out[j]
  {
    hide Skipped, SettleStack;
  }

  lemma {:induction false} OutOfPrefix(ts: seq<Tok>, links: State, before: Indents, k: nat, m: nat)
    requires Sized(ts, links, Adjusting([], before)) && k <= m <= |ts| && AdjustedUpTo(ts, links, before, m).Ok?
    ensures AdjustedUpTo(ts, links, before, k).Ok?
    ensures var a, b := AdjustedUpTo(ts, links, before, k).value, AdjustedUpTo(ts, links, before, m).value;
            && (forall j :: 0 <= j < k ==> b.out[j] == a.out[j])
            && (forall j :: m <= j < |ts| ==> b.out[j] == before[j])
  {
    hide AdjustToken;
    if k < m {
      OutOfPrefix(ts, links, before, k, m - 1);
      TurnWritesOne(ts, links, m - 1, AdjustedUpTo(ts, links, before, m - 1).value);
    } else if k > 0 {
      OutOfPrefix(ts, links, before, k - 1, k - 1);
      TurnWritesOne(ts, links, k - 1, AdjustedUpTo(ts, links, before, k - 1).value);
    }
  }

  /** The same block in a run from `before` and in one from `after`, its outcome. Until a child settles the
      block, its children stand one step in. */
  ghost predicate SameNest(before: Indents, after: Indents, k: nat, p: Nest, q: Nest) {
    && p.start == q.start && p.start < k && p.start < |before| == |after|
    && p.child == q.child && p.isFinal == q.isFinal
    && p.orig == before[p.start] && q.orig == after[p.start]
    && (before[p.start].Some? <==> after[p.start].Some?)
    && (p.child.Some? <==> after[p.start].Some?)
    && (!p.isFinal && p.child.Some? ==> p.child == Some(after[p.start].value + STEP))
  }

  ghost predicate SameNests(before: Indents, after: Indents, k: nat, s: seq<Nest>, r: seq<Nest>) {
    |s| == |r| && forall d :: 0 <= d < |s| ==> SameNest(before, after, k, s[d], r[d])
  }

  /** The first run is at turn `k`, the second one too, and the second has changed nothing. */
  ghost predicate InStep(before: Indents, after: Indents, k: nat, a: Adjusting, b: Adjusting) {
    && |a.out| == |before| == |after| && k <= |before|
    && b.out == after
    && (forall j :: 0 <= j < k ==> a.out[j] == after[j])
    && (forall j :: k <= j < |before| ==> a.out[j] == before[j])
    && SameNests(before, after, k, a.stack, b.stack)
  }

  lemma NestsLater(before: Indents, after: Indents, k: nat, s: seq<Nest>, r: seq<Nest>)
    requires SameNests(before, after, k, s, r)
    ensures SameNests(before, after, k + 1, s, r)
  {
  }

  lemma NestsPopped(before: Indents, after: Indents, k: nat, s: seq<Nest>, r: seq<Nest>)
    requires SameNests(before, after, k, s, r) && s != []
    ensures r != [] && SameNests(before, after, k, s[..|s| - 1], r[..|r| - 1])
    ensures SameNest(before, after, k, Innermost(s), Innermost(r))
  {
  }

  lemma NestsPushed(before: Indents, after: Indents, k: nat, s: seq<Nest>, r: seq<Nest>, p: Nest, q: Nest)
    requires SameNests(before, after, k, s, r) && SameNest(before, after, k, p, q)
    ensures SameNests(before, after, k, s + [p], r + [q])
  {
  }

  /** A child that takes its block's child indent settles the block the same way in both runs. */
  lemma SettledTheSame(t: Tok, before: Indents, after: Indents, k: nat, p: Nest, q: Nest, m: nat)
    requires SameNest(before, after, k, p, q) && m < |before| && before[m].Some? && after[m].Some?
    requires var settled := Settle(t, p, after[p.start], before[m]);
             settled.child.Some? ==> after[m] == settled.child
    ensures SameNest(before, after, k, Settle(t, p, after[p.start], before[m]), Settle(t, q, after[q.start], after[m]))
  {
    hide AllowsChildrenToSkipIndents;
    if p.orig.Some? {
      assert |after[p.start].value + STEP| == |after[p.start].value| + 4;
    }
  }

  lemma StartsInRange(before: Indents, after: Indents, k: nat, a: Adjusting, b: Adjusting)
    requires InStep(before, after, k, a, b)
    ensures forall d :: 0 <= d < |a.stack| ==> a.stack[d].start < |before|
    ensures forall d :: 0 <= d < |b.stack| ==> b.stack[d].start < |before|
  {
  }

  lemma SettledStacks(ts: seq<Tok>, before: Indents, after: Indents, k: nat, a: Adjusting, b: Adjusting)
    requires InStep(before, after, k, a, b) && |ts| == |before| && k < |ts|
    requires after[k].Some? ==> before[k].Some?
    requires before[k].Some? && a.stack != [] ==>
               var child := Innermost(SettleStack(ts, a, before[k])).child;
               after[k].Some? && (child.Some? ==> after[k] == child)
    ensures SameNests(before, after, k, SettleStack(ts, a, before[k]), SettleStack(ts, b, after[k]))
  {
    hide AllowsChildrenToSkipIndents, SameNest;
    StartsInRange(before, after, k, a, b);
    if a.stack != [] {
      NestsPopped(before, after, k, a.stack, b.stack);
      SettleOne(ts, before, after, k, Innermost(a.stack), Innermost(b.stack), a, b);
      var n := |a.stack| - 1;
      var p, q := Innermost(SettleStack(ts, a, before[k])), Innermost(SettleStack(ts, b, after[k]));
      NestsPushed(before, after, k, a.stack[..n], b.stack[..n], p, q);
    }
  }

  lemma SettleOne(ts: seq<Tok>, before: Indents, after: Indents, k: nat, p: Nest, q: Nest, a: Adjusting, b: Adjusting)
    requires InStep(before, after, k, a, b) && |ts| == |before| && k < |ts| && SameNest(before, after, k, p, q)
    requires after[k].Some? ==> before[k].Some?
    requires before[k].Some? ==>
               var child := Settle(ts[p.start], p, a.out[p.start], before[k]).child;
               after[k].Some? && (child.Some? ==> after[k] == child)
    ensures SameNest(before, after, k, Settle(ts[p.start], p, a.out[p.start], before[k]),
                     Settle(ts[q.start], q, b.out[q.start], after[k]))
  {
    hide AllowsChildrenToSkipIndents;
    if before[k].Some? {
      SettledTheSame(ts[p.start], before, after, k, p, q, k);
    }
  }

  ghost predicate EarlierStarts(links: State) {
    forall e :: e in links.startOf ==> links.startOf[e] < e
  }

  lemma StartInStep(ts: seq<Tok>, before: Indents, after: Indents, k: nat, a: Adjusting, b: Adjusting)
    requires InStep(before, after, k, a, b) && |ts| == |before| && k < |ts|
    requires var r := AdjustStart(k, SettleStack(ts, a, before[k]), a.out);
             r.Ok? && r.value.out[k] == after[k]
    ensures var r := AdjustStart(k, SettleStack(ts, b, after[k]), b.out);
            r.Ok? && InStep(before, after, k + 1, AdjustStart(k, SettleStack(ts, a, before[k]), a.out).value, r.value)
  {
    hide SettleStack, SameNest;
    StartsInRange(before, after, k, a, b);
    SettledStacks(ts, before, after, k, a, b);
    var s, r := SettleStack(ts, a, before[k]), SettleStack(ts, b, after[k]);
    if s != [] {
      NestsPopped(before, after, k, s, r);
    }
    NestsLater(before, after, k, s, r);
    StartPushed(before, after, k, s, r, a.out, b.out);
  }

  lemma StartPushed(before: Indents, after: Indents, k: nat, s: seq<Nest>, r: seq<Nest>, out: Indents, out': Indents)
    requires SameNests(before, after, k, s, r) && SameNests(before, after, k + 1, s, r)
    requires |before| == |after| == |out| == |out'| && k < |before| && out[k] == before[k] && out' == after
    requires AdjustStart(k, s, out).Ok? && AdjustStart(k, s, out).value.out[k] == after[k]
    ensures AdjustStart(k, r, out').Ok? && AdjustStart(k, r, out').value.out == after
    ensures SameNests(before, after, k + 1, AdjustStart(k, s, out).value.stack, AdjustStart(k, r, out').value.stack)
  {
    if s != [] {
      NestsPopped(before, after, k, s, r);
    }
    var p, q := Innermost(AdjustStart(k, s, out).value.stack), Innermost(AdjustStart(k, r, out').value.stack);
    NestsPushed(before, after, k + 1, s, r, p, q);
  }

  lemma EndInStep(ts: seq<Tok>, start: nat, before: Indents, after: Indents, k: nat, a: Adjusting, b: Adjusting)
    requires InStep(before, after, k, a, b) && |ts| == |before| && start < k < |ts|
    requires var r := AdjustEnd(k, start, SettleStack(ts, a, before[k]), a.out);
             r.Ok? && r.value.out[k] == after[k]
    ensures var r := AdjustEnd(k, start, SettleStack(ts, b, after[k]), b.out);
            && r.Ok?
            && InStep(before, after, k + 1, AdjustEnd(k, start, SettleStack(ts, a, before[k]), a.out).value, r.value)
  {
    hide Settle, SameNest;
    NestsPopped(before, after, k, a.stack, b.stack);
    StartsAgree(before, after, k, Innermost(a.stack), Innermost(b.stack));
    NestsLater(before, after, k, a.stack[..|a.stack| - 1], b.stack[..|b.stack| - 1]);
  }

  lemma StartsAgree(before: Indents, after: Indents, k: nat, p: Nest, q: Nest)
    requires SameNest(before, after, k, p, q)
    ensures p.start == q.start
  {
  }

  lemma LeafInStep(ts: seq<Tok>, before: Indents, after: Indents, k: nat, a: Adjusting, b: Adjusting)
    requires InStep(before, after, k, a, b) && |ts| == |before| && k < |ts|
    requires AdjustLeaf(k, SettleStack(ts, a, before[k]), a.out)[k] == after[k]
    ensures InStep(before, after, k + 1,
                   Adjusting(SettleStack(ts, a, before[k]), AdjustLeaf(k, SettleStack(ts, a, before[k]), a.out)),
                   Adjusting(SettleStack(ts, b, after[k]), AdjustLeaf(k, SettleStack(ts, b, after[k]), b.out)))
  {
    hide SettleStack, SameNest;
    StartsInRange(before, after, k, a, b);
    SettledStacks(ts, before, after, k, a, b);
    var s, r := SettleStack(ts, a, before[k]), SettleStack(ts, b, after[k]);
    if s != [] {
      NestsPopped(before, after, k, s, r);
      ChildrenAgree(before, after, k, Innermost(s), Innermost(r));
    }
    NestsLater(before, after, k, s, r);
  }

  lemma ChildrenAgree(before: Indents, after: Indents, k: nat, p: Nest, q: Nest)
    requires SameNest(before, after, k, p, q)
    ensures p.child == q.child
  {
  }

  lemma TurnInStep(ts: seq<Tok>, links: State, before: Indents, after: Indents, k: nat, a: Adjusting, b: Adjusting)
    requires Sized(ts, links, a) && Sized(ts, links, b) && EarlierStarts(links)
    requires InStep(before, after, k, a, b) && |ts| == |before| && k < |ts|
    requires AdjustToken(ts, links, k, a).Ok? && AdjustToken(ts, links, k, a).value.out[k] == after[k]
    ensures AdjustToken(ts, links, k, b).Ok?
    ensures InStep(before, after, k + 1, AdjustToken(ts, links, k, a).value, AdjustToken(ts, links, k, b).value)
  {
    hide SettleStack, AdjustStart, AdjustEnd, AdjustLeaf, Skipped;
    assert a.out[k] == before[k] && b.out[k] == after[k];
    if Skipped(ts[k]) || ts[k].tag == "else" {
      NestsLater(before, after, k, a.stack, b.stack);
    } else if k in links.endOf {
      StartInStep(ts, before, after, k, a, b);
    } else if k in links.startOf {
      EndInStep(ts, links.startOf[k], before, after, k, a, b);
    } else {
      LeafInStep(ts, before, after, k, a, b);
    }
  }

  lemma {:induction false} RunsInStep(ts: seq<Tok>, links: State, before: Indents, after: Indents, k: nat)
    requires Sized(ts, links, Adjusting([], before)) && EarlierStarts(links) && k <= |ts|
    requires Adjusted(ts, links, before) == Ok(after)
    ensures var a, b := AdjustedUpTo(ts, links, before, k), AdjustedUpTo(ts, links, after, k);
            a.Ok? && b.Ok? && InStep(before, after, k, a.value, b.value)
  {
    hide AdjustToken, InStep;
    OutOfPrefix(ts, links, before, k, |ts|);
    if k == 0 {
      InStepAtFirst(before, after);
    } else {
      RunsInStep(ts, links, before, after, k - 1);
      TurnInStep(ts, links, before, after, k - 1,
                 AdjustedUpTo(ts, links, before, k - 1).value, AdjustedUpTo(ts, links, after, k - 1).value);
    }
  }

  lemma InStepAtFirst(before: Indents, after: Indents)
    requires |before| == |after|
    ensures InStep(before, after, 0, Adjusting([], before), Adjusting([], after))
  {
  }

  /** Running the block pass again on fresh tokens that carry the indents of a successful run succeeds and
      leaves every indent unchanged. */
  lemma ReindentingIsIdempotent(ts: seq<Tok>, links: State, before: Indents, after: Indents)
    requires Sized(ts, links, Adjusting([], before)) && EarlierStarts(links)
    requires Adjusted(ts, links, before) == Ok(after)
    ensures Adjusted(ts, links, after) == Ok(after)
  {
    hide AdjustedUpTo;
    RunsInStep(ts, links, before, after, |ts|);
  }
}
