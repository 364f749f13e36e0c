/** Where a successful block pass puts every token, told by kinds and tags: loops and elements indent what they
    hold by four spaces, and template logic and links may leave it where they stand themselves. */
module Indentation {
  import opened Text
  import opened Tokens
  import opened Matcher
  import opened Layout
  import T = TagRules
  import L = LayoutMeaning

  /** White space, and the tags around code, stay where they are. */
  predicate Kept(t: Tok) {
    t.kind in {Indent, Whitespace, Newline} || t.tag in {"code", "pre"}
  }

  /** Block `p` is around token `k`. */
  ghost predicate Around(ts: seq<Tok>, links: State, p: nat, k: nat) {
    && p < |ts| && T.StartsBlock(ts[p]) && !Kept(ts[p])
    && p in links.endOf && p < k < links.endOf[p]
  }

  /** And no block inside it is. */
  ghost predicate Within(ts: seq<Tok>, links: State, p: nat, k: nat) {
    Around(ts, links, p, k) && forall q: nat :: Around(ts, links, q, k) ==> q <= p
  }

  /** A tag or text that leads its line, and is no end or else. */
  predicate LeadsLine(ts: seq<Tok>, was: Indents, k: nat) {
    k < |ts| == |was| && was[k].Some? && !Kept(ts[k]) && !T.EndsBlock(ts[k])
  }

  /** The first line-leading token directly inside block `p`. */
  ghost predicate FirstIn(ts: seq<Tok>, links: State, was: Indents, p: nat, k: nat) {
    && LeadsLine(ts, was, k) && Within(ts, links, p, k)
    && forall j: nat :: j < k && LeadsLine(ts, was, j) ==> !Within(ts, links, p, j)
  }

  /** Validation accepted the tokens, and the two tags of a block are kept or moved together. */
  ghost predicate Accepted(ts: seq<Tok>, links: State) {
    && MatchTags(ts) == Ok(links)
    && forall p :: p in links.endOf && p < |ts| && links.endOf[p] < |ts| ==>
         ts[p].tag != "else" && Kept(ts[links.endOf[p]]) == Kept(ts[p])
  }

  /** The block pass turns the indents `was` into `out`. */
  ghost predicate PassGives(ts: seq<Tok>, links: State, was: Indents, out: Indents) {
    && Accepted(ts, links) && |was| == |ts| == |out|
    && Sized(ts, links, Adjusting([], was)) && Adjusted(ts, links, was) == Ok(out)
  }

  // These are the notions of the layout

  lemma KeptIsSkipped(t: Tok)
    ensures Kept(t) <==> Skipped(t)
  {
  }

  lemma AcceptedIsValidated(ts: seq<Tok>, links: State)
    requires Accepted(ts, links)
    ensures L.Validated(ts, links) && L.BlockFacts(ts, links)
  {
    hide Kept, Skipped, MatchTags;
    forall t: Tok
      ensures Kept(t) <==> Skipped(t)
    {
      KeptIsSkipped(t);
    }
    L.ValidatedBlocks(ts, links);
  }

  lemma KindsAreLinked(ts: seq<Tok>, links: State, k: nat)
    requires L.BlockFacts(ts, links) && k < |ts|
    ensures T.StartsBlock(ts[k]) <==> IsStart(ts, k)
    ensures T.EndsBlock(ts[k]) <==> IsEnd(ts, k)
    ensures k in links.endOf <==> IsStart(ts, k)
    ensures T.EndsBlock(ts[k]) ==> !T.StartsBlock(ts[k])
  {
    T.Flavors(ts[k]);
    L.LinkKinds(ts, links, k);
    hide T.StartsBlock, T.EndsBlock, TagFlavor;
  }

  lemma OpensIsVisible(ts: seq<Tok>, links: State, q: nat, k: nat)
    requires L.BlockFacts(ts, links) && k < |ts| && !T.EndsBlock(ts[k])
    ensures L.Visible(ts, q) <==> q < |ts| && T.StartsBlock(ts[q]) && !Kept(ts[q])
    ensures L.Visible(ts, q) ==> q in links.endOf && links.endOf[q] != k
  {
    if q < |ts| {
      KindsAreLinked(ts, links, q);
      KindsAreLinked(ts, links, k);
      KeptIsSkipped(ts[q]);
      assert L.StartFact(ts, links, q);
    }
    hide T.StartsBlock, T.EndsBlock, Kept, TagFlavor, Skipped;
  }

  lemma WithinIsDirectly(ts: seq<Tok>, links: State, p: nat, k: nat)
    requires L.BlockFacts(ts, links) && k < |ts| && !T.EndsBlock(ts[k])
    ensures Within(ts, links, p, k) <==> L.Directly(ts, links, p, k)
  {
    hide T.StartsBlock, T.EndsBlock, Kept, L.Visible, L.BlockFacts;
    OpensIsVisible(ts, links, p, k);
    if Within(ts, links, p, k) {
      forall q: nat | L.Visible(ts, q) && p < q < k
        ensures q in links.endOf && links.endOf[q] < k
      {
        OpensIsVisible(ts, links, q, k);
        assert !Around(ts, links, q, k);
      }
    }
    if L.Directly(ts, links, p, k) {
      forall q: nat | Around(ts, links, q, k)
        ensures q <= p
      {
        OpensIsVisible(ts, links, q, k);
      }
    }
  }

  lemma LeadsLineIsLeads(ts: seq<Tok>, links: State, was: Indents, k: nat)
    requires L.BlockFacts(ts, links) && L.NoElseLeaf(ts) && |was| == |ts|
    ensures LeadsLine(ts, was, k) <==> L.Leads(ts, was, k)
  {
    if k < |ts| {
      KindsAreLinked(ts, links, k);
      KeptIsSkipped(ts[k]);
      L.LinkKinds(ts, links, k);
    }
    hide T.StartsBlock, T.EndsBlock, Kept, Skipped, L.BlockFacts, TagFlavor;
  }

  lemma SuccessHasNoElseLeaf(ts: seq<Tok>, links: State, was: Indents, out: Indents)
    requires PassGives(ts, links, was, out)
    ensures L.Validated(ts, links) && L.BlockFacts(ts, links) && L.NoElseLeaf(ts) && L.Laid(ts, links, was, out)
  {
    AcceptedIsValidated(ts, links);
    hide Accepted, L.Validated, L.BlockFacts, L.NoElseLeaf, L.Laid, Adjusted;
    L.AdjustSucceedsExactly(ts, links, was);
    L.AdjustedIsLaid(ts, links, was, out);
  }

  lemma FirstInIsFirstChild(ts: seq<Tok>, links: State, was: Indents, p: nat, j: nat)
    requires L.BlockFacts(ts, links) && L.NoElseLeaf(ts) && |was| == |ts|
    ensures FirstIn(ts, links, was, p, j) <==> L.FirstChild(ts, links, was, p, j)
  {
    hide L.NoElseLeaf, L.BlockFacts, T.EndsBlock, Kept;
    forall i: nat
      ensures (LeadsLine(ts, was, i) && Within(ts, links, p, i)) <==> L.Child(ts, links, was, p, i)
    {
      LeadsLineIsLeads(ts, links, was, i);
      if LeadsLine(ts, was, i) {
        WithinIsDirectly(ts, links, p, i);
      }
    }
    hide LeadsLine, Within, L.Child;
  }

  /** The pass gives an indent to a start tag exactly if it had one. */
  lemma StartsKeepIndents(ts: seq<Tok>, links: State, was: Indents, out: Indents, p: nat)
    requires L.Laid(ts, links, was, out) && p < |ts| && !IsEnd(ts, p)
    ensures out[p].Some? <==> was[p].Some?
  {
    assert L.LaidAt(ts, links, was, out, p);
    hide L.Gap, Skipped, TagFlavor;
  }

  lemma ChildIsLaid(ts: seq<Tok>, links: State, was: Indents, out: Indents, p: nat, k: nat)
    requires PassGives(ts, links, was, out) && LeadsLine(ts, was, k) && Within(ts, links, p, k) && was[p].Some?
    ensures out[p].Some? && out[k] == Some(out[p].value + L.Gap(ts, links, was, p))
  {
    SuccessHasNoElseLeaf(ts, links, was, out);
    assert L.LaidAt(ts, links, was, out, k);
    KindsAreLinked(ts, links, k);
    KeptIsSkipped(ts[k]);
    WithinIsDirectly(ts, links, p, k);
    KindsAreLinked(ts, links, p);
    StartsKeepIndents(ts, links, was, out, p);
    hide L.BlockFacts, L.NoElseLeaf, L.Validated, T.EndsBlock, T.StartsBlock, Kept, Skipped, L.Gap;
  }

  lemma OneFirstChild(ts: seq<Tok>, links: State, was: Indents, p: nat, j: nat)
    requires L.FirstChild(ts, links, was, p, j)
    ensures forall i: nat :: L.FirstChild(ts, links, was, p, i) ==> i == j
  {
    hide L.Child;
  }

  // The laws

  /** Loops, elements other than links and everything else that is no template logic indent what they hold. */
  lemma BlocksIndent(ts: seq<Tok>, links: State, was: Indents, out: Indents, p: nat, k: nat)
    requires PassGives(ts, links, was, out) && LeadsLine(ts, was, k) && Within(ts, links, p, k) && was[p].Some?
    requires ts[p].tag == "each" || (ts[p].kind != DjangoStart && ts[p].kind != HandlebarsStart && ts[p].tag != "a")
    ensures out[p].Some? && out[k] == Some(out[p].value + "    ")
  {
    hide PassGives, LeadsLine, Within, L.FirstChild;
    ChildIsLaid(ts, links, was, out, p, k);
  }

  lemma GoesByFirst(ts: seq<Tok>, links: State, was: Indents, out: Indents, p: nat, j: nat, k: nat)
    requires PassGives(ts, links, was, out) && LeadsLine(ts, was, k) && Within(ts, links, p, k) && was[p].Some?
    requires ts[p].tag != "each" && (ts[p].kind == DjangoStart || ts[p].kind == HandlebarsStart || ts[p].tag == "a")
    requires FirstIn(ts, links, was, p, j)
    ensures out[p].Some? && out[k] == Some(out[p].value + if was[j] == was[p] then "" else "    ")
  {
    hide LeadsLine, Within, FirstIn, L.FirstChild, L.Validated, L.BlockFacts, L.NoElseLeaf, L.Laid, Accepted, Adjusted;
    ChildIsLaid(ts, links, was, out, p, k);
    SuccessHasNoElseLeaf(ts, links, was, out);
    FirstInIsFirstChild(ts, links, was, p, j);
    OneFirstChild(ts, links, was, p, j);
  }

  /** A block whose line-leading content is not empty has a first such token. */
  lemma FirstExists(ts: seq<Tok>, links: State, was: Indents, p: nat, k: nat) returns (j: nat)
    requires LeadsLine(ts, was, k) && Within(ts, links, p, k)
    ensures FirstIn(ts, links, was, p, j) && j <= k
  {
    hide LeadsLine, Within;
    j := 0;
    while !(LeadsLine(ts, was, j) && Within(ts, links, p, j))
      invariant j <= k
      invariant forall i: nat :: i < j && LeadsLine(ts, was, i) ==> !Within(ts, links, p, i)
      decreases k - j
    {
      j := j + 1;
    }
  }

  /** Template logic that is no loop, and links, go by the first line-leading token inside: if it stood where the
      block stood, what they hold stands where they do. */
  lemma LogicMayNotIndent(ts: seq<Tok>, links: State, was: Indents, out: Indents, p: nat, k: nat)
    requires PassGives(ts, links, was, out) && LeadsLine(ts, was, k) && Within(ts, links, p, k) && was[p].Some?
    requires ts[p].tag != "each" && (ts[p].kind == DjangoStart || ts[p].kind == HandlebarsStart || ts[p].tag == "a")
    ensures out[p].Some?
    ensures exists j: nat :: j <= k && FirstIn(ts, links, was, p, j)
    ensures forall j: nat :: FirstIn(ts, links, was, p, j) ==>
              out[k] == Some(out[p].value + if was[j] == was[p] then "" else "    ")
  {
    hide Accepted, Adjusted, Kept, T.EndsBlock, T.StartsBlock;
    var first := FirstExists(ts, links, was, p, k);
    GoesByFirst(ts, links, was, out, p, first, k);
    forall j: nat | FirstIn(ts, links, was, p, j)
      ensures out[k] == Some(out[p].value + if was[j] == was[p] then "" else "    ")
    {
      GoesByFirst(ts, links, was, out, p, j, k);
    }
  }

  /** What no block is around stands at the margin. */
  lemma TopStandsAtMargin(ts: seq<Tok>, links: State, was: Indents, out: Indents, k: nat)
    requires PassGives(ts, links, was, out) && LeadsLine(ts, was, k)
    requires forall p: nat :: !Around(ts, links, p, k)
    ensures out[k] == Some("")
  {
    SuccessHasNoElseLeaf(ts, links, was, out);
    assert L.LaidAt(ts, links, was, out, k);
    KindsAreLinked(ts, links, k);
    KeptIsSkipped(ts[k]);
    forall p: nat
      ensures !L.Directly(ts, links, p, k)
    {
      WithinIsDirectly(ts, links, p, k);
    }
    hide L.BlockFacts, L.NoElseLeaf, L.Validated, T.EndsBlock, T.StartsBlock, Kept, Skipped, L.Gap;
  }

  /** An end or else tag that leads its line stands where its start tag stands. */
  lemma EndsStandUnderStarts(ts: seq<Tok>, links: State, was: Indents, out: Indents, k: nat)
    requires PassGives(ts, links, was, out) && k < |ts| && was[k].Some? && !Kept(ts[k]) && T.EndsBlock(ts[k])
    ensures k in links.startOf && links.startOf[k] < k && out[k] == out[links.startOf[k]]
  {
    SuccessHasNoElseLeaf(ts, links, was, out);
    assert L.LaidAt(ts, links, was, out, k);
    KindsAreLinked(ts, links, k);
    KeptIsSkipped(ts[k]);
    hide L.BlockFacts, L.NoElseLeaf, L.Validated, T.EndsBlock, T.StartsBlock, Kept, Skipped, L.Gap;
  }

  /** White space, tags around code, what leads no line, and what a block inside a line holds are left alone. */
  lemma OthersStay(ts: seq<Tok>, links: State, was: Indents, out: Indents, p: nat, k: nat)
    requires PassGives(ts, links, was, out) && k < |ts|
    requires
      || Kept(ts[k]) || was[k].None?
      || (LeadsLine(ts, was, k) && Within(ts, links, p, k) && was[p].None?)
    ensures out[k] == was[k]
  {
    SuccessHasNoElseLeaf(ts, links, was, out);
    assert L.LaidAt(ts, links, was, out, k);
    KindsAreLinked(ts, links, k);
    KeptIsSkipped(ts[k]);
    if !Kept(ts[k]) && was[k].Some? {
      WithinIsDirectly(ts, links, p, k);
      KindsAreLinked(ts, links, p);
      StartsKeepIndents(ts, links, was, out, p);
    }
    hide L.BlockFacts, L.NoElseLeaf, L.Validated, T.EndsBlock, T.StartsBlock, Kept, Skipped, L.Gap;
  }
}
