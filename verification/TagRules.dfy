/** What validation does with a tag, told by kinds and names: which tags open and close, which must close
    themselves, and which end tags fit. */
module TagRules {
  import opened Text
  import opened Tokens
  import opened Matcher

  /** Tags that open a block. */
  predicate StartsBlock(t: Tok) {
    || t.kind in {HandlebarsStart, HandlebarsPartialBlock, HtmlStart}
    || (&& t.kind in {DjangoStart, Jinja2StrippedStart, Jinja2StrippedType2Start}
        && t.tag in {"autoescape", "block", "comment", "for", "if", "ifequal", "macro", "verbatim", "blocktrans",
                     "trans", "raw", "with"})
  }

  /** Tags that close a block, or go on with it. */
  predicate EndsBlock(t: Tok) {
    t.kind in {HandlebarsElse, HandlebarsEnd, DjangoElse, DjangoEnd, HtmlEnd, Jinja2StrippedEnd}
  }

  lemma Flavors(t: Tok)
    ensures FlavorOf(t) == Start <==> StartsBlock(t)
    ensures FlavorOf(t) == End <==> EndsBlock(t)
  {
  }

  predicate Void(name: string) {
    name in {"area", "base", "br", "col", "command", "embed", "hr", "img", "input", "keygen", "link", "meta", "param",
             "source", "track", "wbr"}
  }

  predicate SameName(a: string, b: string) {
    Trim(a, {'~'}) == Trim(b, {'~'})
  }

  predicate ForeignName(name: string) {
    Trim(name, {'~'}) in {"math", "svg"}
  }

  /** A math or svg tag has been met before token `k` and its end has not. */
  ghost predicate InForeign(ts: seq<Tok>, k: nat)
    requires k <= |ts| && After(ts, k).Ok?
  {
    exists j: nat :: j < k && OpenAt(ts, k, j) && ForeignName(ts[j].tag)
  }

  /** The start tag `j` has no end tag before token `k` that is no else. */
  ghost predicate OpenAt(ts: seq<Tok>, k: nat, j: nat)
    requires j < k <= |ts| && After(ts, k).Ok?
  {
    var st := After(ts, k).value;
    StartsBlock(ts[j]) && !(j in st.endOf && st.endOf[j] < k && ts[st.endOf[j]].tag != "else")
  }

  // Open tags are those on the stack

  lemma OpenIsOnStack(ts: seq<Tok>, k: nat, j: nat)
    requires j < k <= |ts| && After(ts, k).Ok?
    ensures OpenAt(ts, k, j) <==> OnStack(After(ts, k).value, j)
  {
    StateIsLinked(ts, k);
    Flavors(ts[j]);
    hide Bare, TagFlavor, Fits, StartsBlock, Nested;
    var st := After(ts, k).value;
    if OnStack(st, j) {
      var d :| 0 <= d < |st.stack| && st.stack[d].start == j;
      assert GoodFrame(ts, k, st.stack[d]);
    }
  }

  lemma FramesAreOpen(ts: seq<Tok>, k: nat)
    requires k <= |ts| && After(ts, k).Ok?
    ensures var st := After(ts, k).value;
            forall d :: 0 <= d < |st.stack| ==>
              && st.stack[d].start < k && OpenAt(ts, k, st.stack[d].start)
              && st.stack[d].tag == Trim(ts[st.stack[d].start].tag, {'~'})
              && st.stack[d].line == ts[st.stack[d].start].line
  {
    StateIsLinked(ts, k);
    var st := After(ts, k).value;
    forall d | 0 <= d < |st.stack|
      ensures st.stack[d].start < k && OpenAt(ts, k, st.stack[d].start)
    {
      assert GoodFrame(ts, k, st.stack[d]);
      OpenIsOnStack(ts, k, st.stack[d].start);
    }
    forall d | 0 <= d < |st.stack|
      ensures st.stack[d].tag == Trim(ts[st.stack[d].start].tag, {'~'})
      ensures st.stack[d].line == ts[st.stack[d].start].line
    {
      assert GoodFrame(ts, k, st.stack[d]);
    }
  }

  lemma ForeignFrames(ts: seq<Tok>, st: State)
    requires forall d :: 0 <= d < |st.stack| ==>
               st.stack[d].start < |ts| && st.stack[d].tag == Trim(ts[st.stack[d].start].tag, {'~'})
    ensures SomeForeign(st.stack) <==> exists d :: 0 <= d < |st.stack| && ForeignName(ts[st.stack[d].start].tag)
  {
    hide Trim;
  }

  lemma ForeignIsOpen(ts: seq<Tok>, k: nat)
    requires k <= |ts| && After(ts, k).Ok?
    ensures After(ts, k).value.foreign <==> InForeign(ts, k)
  {
    StateIsFaithful(ts, k);
    FramesAreOpen(ts, k);
    var st := After(ts, k).value;
    assert st.foreign <==> SomeForeign(st.stack);
    hide After, OpenAt, Faithful, Trim, SomeForeign;
    ForeignFrames(ts, st);
    if InForeign(ts, k) {
      var j: nat :| j < k && OpenAt(ts, k, j) && ForeignName(ts[j].tag);
      OpenIsOnStack(ts, k, j);
      var d :| 0 <= d < |st.stack| && st.stack[d].start == j;
    }
    if st.foreign {
      var d :| 0 <= d < |st.stack| && ForeignName(ts[st.stack[d].start].tag);
      assert OpenAt(ts, k, st.stack[d].start);
    }
  }

  lemma OneStep(ts: seq<Tok>, k: nat)
    requires k < |ts| && After(ts, k).Ok?
    ensures After(ts, k + 1) == Step(ts[k], k, After(ts, k).value)
  {
    hide Step;
  }

  // The rules

  /** Inside math or svg every element may close itself or not, whatever its name. */
  lemma AnyNameInForeign(ts: seq<Tok>, k: nat)
    requires k < |ts| && After(ts, k).Ok? && InForeign(ts, k) && ts[k].kind in {HtmlSingleton, HtmlStart}
    ensures After(ts, k + 1).Ok?
  {
    hide After, InForeign, Push, RunMatcher;
    ForeignIsOpen(ts, k);
    OneStep(ts, k);
  }

  /** Outside, void elements close themselves and no other element does. */
  lemma VoidClosesItself(ts: seq<Tok>, k: nat)
    requires k < |ts| && After(ts, k).Ok? && !InForeign(ts, k)
    ensures ts[k].kind == HtmlStart ==> (After(ts, k + 1).Ok? <==> !Void(ts[k].tag))
    ensures ts[k].kind == HtmlSingleton ==> (After(ts, k + 1).Ok? <==> Void(ts[k].tag))
  {
    hide After, InForeign, Push, RunMatcher;
    ForeignIsOpen(ts, k);
    OneStep(ts, k);
  }

  /** Whatever is neither an element nor an end is accepted. */
  lemma OthersAreAccepted(ts: seq<Tok>, k: nat)
    requires k < |ts| && After(ts, k).Ok? && ts[k].kind !in {HtmlStart, HtmlSingleton} && !EndsBlock(ts[k])
    ensures After(ts, k + 1).Ok?
  {
    hide Push, RunMatcher;
  }

  ghost predicate InnermostAt(ts: seq<Tok>, k: nat, j: nat)
    requires k <= |ts| && After(ts, k).Ok?
  {
    j < k && OpenAt(ts, k, j) && forall i: nat :: j < i < k ==> !OpenAt(ts, k, i)
  }

  /** The names agree up to `~`, or it is an else for an if; and the end of a code tag is not on the next line. */
  predicate EndFits(s: Tok, e: Tok) {
    && (if e.tag == "else" then Trim(s.tag, {'~'}) in {"if", "else", "unless"} else SameName(s.tag, e.tag))
    && !(Trim(s.tag, {'~'}) == "code" && e.line == s.line + 1)
  }

  lemma TopIsInnermost(ts: seq<Tok>, k: nat)
    requires k <= |ts| && After(ts, k).Ok?
    ensures After(ts, k).value.stack == [] ==> forall j: nat :: j < k ==> !OpenAt(ts, k, j)
    ensures After(ts, k).value.stack != [] ==>
              forall j: nat :: InnermostAt(ts, k, j) <==> j == Top(After(ts, k).value).start
  {
    FramesAreOpen(ts, k);
    StateIsLinked(ts, k);
    hide After, OpenAt;
    var st := After(ts, k).value;
    assert GoodFrames(ts, k, st);
    forall j: nat | j < k && OpenAt(ts, k, j)
      ensures st.stack != [] && j <= Top(st).start
    {
      OpenIsOnStack(ts, k, j);
    }
  }

  /** An end tag is accepted exactly if the innermost open tag is one that it fits. */
  lemma EndsFitTheInnermost(ts: seq<Tok>, k: nat)
    requires k < |ts| && After(ts, k).Ok? && EndsBlock(ts[k])
    ensures After(ts, k + 1).Ok? <==> exists j: nat :: InnermostAt(ts, k, j) && EndFits(ts[j], ts[k])
  {
    Flavors(ts[k]);
    EndStep(ts, k);
    FramesAreOpen(ts, k);
    TopIsInnermost(ts, k);
    var st := After(ts, k).value;
    if st.stack == [] {
      NoneInnermost(ts, k);
    } else {
      assert InnermostAt(ts, k, Top(st).start);
      FittingIsAccepted(ts[Top(st).start], Top(st), ts[k]);
    }
    hide After, OpenAt, TagFlavor, InnermostAt, Accepts, EndFits, Trim;
  }

  lemma FittingIsAccepted(s: Tok, top: Frame, e: Tok)
    requires top.tag == Trim(s.tag, {'~'}) && top.line == s.line
    ensures Accepts(top.tag, top.line, e) <==> EndFits(s, e)
  {
    hide Trim;
  }

  lemma NoneInnermost(ts: seq<Tok>, k: nat)
    requires k <= |ts| && After(ts, k).Ok? && forall j: nat :: j < k ==> !OpenAt(ts, k, j)
    ensures forall j: nat :: !InnermostAt(ts, k, j)
  {
    hide After, OpenAt;
  }

  /** A list is accepted exactly if every token is and no tag is left open. */
  lemma AcceptedExactly(ts: seq<Tok>)
    ensures MatchTags(ts).Ok? <==> After(ts, |ts|).Ok? && forall j: nat :: j < |ts| ==> !OpenAt(ts, |ts|, j)
  {
    if After(ts, |ts|).Ok? {
      StateIsFaithful(ts, |ts|);
      TopIsInnermost(ts, |ts|);
      FramesAreOpen(ts, |ts|);
      hide After, OpenAt;
      var st := After(ts, |ts|).value;
      if st.stack != [] {
        assert OpenAt(ts, |ts|, st.stack[0].start);
      }
    }
  }

  ghost predicate EndsAt(ts: seq<Tok>, k: nat, j: nat)
    requires k < |ts| && After(ts, k).Ok?
  {
    EndsBlock(ts[k]) && ts[k].tag != "else" && InnermostAt(ts, k, j)
  }

  /** What a token does to the open tags: it opens itself, or shuts the innermost one. */
  lemma OpenTagsChange(ts: seq<Tok>, k: nat, j: nat)
    requires k < |ts| && After(ts, k + 1).Ok? && j <= k
    ensures After(ts, k).Ok?
    ensures OpenAt(ts, k + 1, j) <==> if j == k then StartsBlock(ts[k]) else OpenAt(ts, k, j) && !EndsAt(ts, k, j)
  {
    AllowedStep(ts, k);
    OneStep(ts, k);
    Flavors(ts[k]);
    OpenIsOnStack(ts, k + 1, j);
    FramesAreOpen(ts, k);
    TopIsInnermost(ts, k);
    StateIsLinked(ts, k);
    assert GoodFrames(ts, k, After(ts, k).value);
    if j < k {
      OpenIsOnStack(ts, k, j);
    }
    hide After, OpenAt, InnermostAt, SelfClosingRule, TagFlavor, StartsBlock, EndsBlock, Accepts;
    StackChanges(ts[k], k, After(ts, k).value, j);
  }

  lemma StackChanges(t: Tok, k: nat, st: State, j: nat)
    requires Step(t, k, st).Ok? && j <= k
    requires forall d :: 0 <= d < |st.stack| ==> st.stack[d].start < k
    requires forall d, e :: 0 <= d < e < |st.stack| ==> st.stack[d].start < st.stack[e].start
    ensures var next := Step(t, k, st).value;
            OnStack(next, j) <==>
              if j == k then FlavorOf(t) == Start
              else OnStack(st, j) && !(FlavorOf(t) == End && t.tag != "else" && st.stack != [] && j == Top(st).start)
  {
    hide SelfClosingRule, TagFlavor, Accepts, Bare;
    var next := Step(t, k, st).value;
    if FlavorOf(t) == Start {
      PushedOn(st, next, k, j);
    } else if FlavorOf(t) == End {
      RanMatcher(t, k, st);
      if t.tag != "else" {
        PoppedOff(st, next, j);
      }
    }
  }

  lemma PushedOn(st: State, next: State, k: nat, j: nat)
    requires |next.stack| == |st.stack| + 1 && next.stack[..|st.stack|] == st.stack && next.stack[|st.stack|].start == k
    ensures OnStack(next, j) <==> OnStack(st, j) || j == k
  {
    var n := |st.stack|;
    assert forall d :: 0 <= d < n ==> next.stack[d] == st.stack[d];
    if OnStack(st, j) {
      var d :| 0 <= d < n && st.stack[d].start == j;
      assert next.stack[d].start == j;
    }
    if j == k {
      assert next.stack[n].start == j;
    }
  }

  lemma PoppedOff(st: State, next: State, j: nat)
    requires st.stack != [] && next.stack == st.stack[..|st.stack| - 1]
    requires forall d, e :: 0 <= d < e < |st.stack| ==> st.stack[d].start < st.stack[e].start
    ensures OnStack(next, j) <==> OnStack(st, j) && j != Top(st).start
  {
    var n := |next.stack|;
    assert forall d :: 0 <= d < n ==> next.stack[d] == st.stack[d];
    if OnStack(st, j) && j != Top(st).start {
      var d :| 0 <= d < |st.stack| && st.stack[d].start == j;
      assert next.stack[d].start == j;
    }
    if OnStack(next, j) {
      var d :| 0 <= d < n && next.stack[d].start == j;
      assert st.stack[d].start < st.stack[n].start;
    }
  }
}
