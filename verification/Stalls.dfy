/** When exactly the tokenizer repeats for ever: told by the markup and the gaps between, without its way through a
    gap. */
module Stalls {
  import opened Text
  import opened Tokens
  import opened Scanners
  import opened Tokenizer

  /** White space that gets no token of its own. */
  predicate Odd(c: char) {
    c in PY_SPACE && c != ' ' && c != '\n'
  }

  predicate OddAt(s: string, k: nat)
    requires k < |s|
  {
    Odd(s[k]) && Over(s[k..], PY_SPACE)
  }

  /** Among the white space at the end there is a character that is neither a space nor a newline. */
  predicate OddTail(s: string) {
    exists k :: 0 <= k < |s| && OddAt(s, k)
  }

  /** Where the gap in which `i` lies ends: at the next markup, or with the text. */
  function GapEnd(text: string, i: nat): (e: nat)
    requires i <= |text|
    ensures i <= e <= |text|
  {
    i + |Until(text[i..], {'{', '<'})|
  }

  /** From the markup or gap at `i` on, there is a gap with an odd tail before the first markup that cannot be read. */
  ghost predicate Stalling(text: string, format: Format, i: nat, inCode: bool)
    requires i <= |text|
    decreases |text| - i, inCode
  {
    if i == |text| then false
    else if inCode then Stalling(text, format, i + |Until(text[i..], {'<'})|, false)
    else if text[i] in {'{', '<'} then
      match TakeMarkup(Classify(text, i, format), text, i)
      case Emit(s, mark) => Stalling(text, format, i + |s|, mark.opensCode)
      case _ => false
    else
      OddTail(text[i..GapEnd(text, i)]) || (i < GapEnd(text, i) && Stalling(text, format, GapEnd(text, i), false))
  }

  // Inside a gap

  lemma InsideGap(text: string, i: nat, j: nat)
    requires i <= j <= |text| && j <= GapEnd(text, i)
    ensures GapEnd(text, j) == GapEnd(text, i)
    ensures j < GapEnd(text, i) ==> text[j] !in {'{', '<'}
  {
    var e := GapEnd(text, i);
    assert forall k :: i <= k < e ==> text[k] == text[i..][k - i];
    assert forall k :: j <= k < GapEnd(text, j) ==> text[k] == text[j..][k - j];
    assert e < |text| ==> text[e] == text[i..][e - i];
    assert GapEnd(text, j) < |text| ==> text[GapEnd(text, j)] == text[j..][GapEnd(text, j) - j];
  }

  /** The tail does not change while nothing of it is passed. */
  lemma TailStays(s: string, n: nat)
    requires n <= |s| && forall k :: 0 <= k < n ==> !OddAt(s, k)
    ensures OddTail(s) <==> OddTail(s[n..])
  {
    forall k | n <= k < |s|
      ensures OddAt(s, k) <==> OddAt(s[n..], k - n)
    {
      assert s[k..] == s[n..][k - n..];
    }
    if OddTail(s) {
      var k :| 0 <= k < |s| && OddAt(s, k);
      assert OddAt(s[n..], k - n);
    }
    if OddTail(s[n..]) {
      var k :| 0 <= k < |s[n..]| && OddAt(s[n..], k);
      assert OddAt(s, k + n);
    }
  }

  /** A stripped run: nothing is left exactly if all of it is white space, and the tail is not passed. */
  lemma StrippedRun(run: string)
    requires run != "" && run[0] != ' ' && run[0] != '\n'
    ensures var n := |Trim(run, PY_SPACE)|;
            && (n == 0 ==> OddTail(run))
            && (n > 0 ==> forall k :: 0 <= k < n <= |run| ==> !OddAt(run, k))
  {
    hide PY_SPACE;
    var l := LTrim(run, PY_SPACE);
    var s := RTrim(l, PY_SPACE);
    var a := |run| - |l|;
    if l == "" {
      assert run[..a] == run && run[0..] == run;
      assert OddAt(run, 0);
    } else {
      RTrimKeeps(l, PY_SPACE);
      var m := a + |s| - 1;
      assert run[m] == l[|s| - 1] == s[|s| - 1];
      forall k | 0 <= k < |s|
        ensures !OddAt(run, k)
      {
        assert run[k..][m - k] == run[m];
      }
    }
  }

  /** One turn of the loop in a gap. */
  lemma GapTurn(text: string, format: Format, i: nat, prev: Option<Kind>)
    requires i <= |text| && i < GapEnd(text, i)
    ensures var turn, gap := TakeTurn(text, format, i, false, prev), text[i..GapEnd(text, i)];
            if turn.Emit? then
              && 0 < |turn.s| <= |gap| && !turn.mark.opensCode
              && (OddTail(gap) <==> OddTail(gap[|turn.s|..]))
            else turn.Stuck? && OddTail(gap)
  {
    var e := GapEnd(text, i);
    var gap := text[i..e];
    InsideGap(text, i, i);
    assert gap[0] == text[i];
    assert gap == Until(text[i..], {'{', '<'});
    hide PY_SPACE, GapEnd, OddTail, OddAt, TakeMarkup;
    var turn := TakeTurn(text, format, i, false, prev);
    if text[i] == '\n' {
      BreakIsNotOdd(gap);
      TailStays(gap, 1);
    } else if text[i] == ' ' {
      SpacesStayInGap(text, i);
      assert forall k :: 0 <= k < |turn.s| ==> gap[k] == text[i + k];
      SpacesAreNotOdd(gap, |turn.s|);
      TailStays(gap, |turn.s|);
    } else {
      StrippedRun(gap);
      if turn.Emit? {
        TailStays(gap, |turn.s|);
      }
    }
  }

  lemma BreakIsNotOdd(s: string)
    requires s != "" && s[0] == '\n'
    ensures !OddAt(s, 0)
  {
  }

  lemma SpacesAreNotOdd(s: string, n: nat)
    requires n <= |s| && forall k :: 0 <= k < n ==> s[k] == ' '
    ensures forall k :: 0 <= k < n ==> !OddAt(s, k)
  {
  }

  lemma EndOfGap(text: string, i: nat)
    requires i <= |text| && GapEnd(text, i) < |text|
    ensures text[GapEnd(text, i)] in {'{', '<'}
  {
    assert text[GapEnd(text, i)] == text[i..][GapEnd(text, i) - i];
  }

  lemma SpacesStayInGap(text: string, i: nat)
    requires i < |text|
    ensures i + |Spaces(text, i)| <= GapEnd(text, i)
    ensures forall k :: i <= k < i + |Spaces(text, i)| ==> text[k] == ' '
    ensures text[i] == ' ' ==> Spaces(text, i) != ""
  {
    var n, e := |Spaces(text, i)|, GapEnd(text, i);
    forall k | i <= k < i + n
      ensures text[k] == ' '
    {
      assert text[k] == Spaces(text, i)[k - i];
    }
    if e < i + n {
      EndOfGap(text, i);
    }
  }

  /** What is left at `j` of the gap from `i` to `e`. */
  lemma GapGoesOn(text: string, format: Format, i: nat, j: nat, e: nat)
    requires i <= j <= e <= |text| && e == GapEnd(text, j) && (j < e ==> text[j] !in {'{', '<'})
    ensures Stalling(text, format, j, false) <==> OddTail(text[i..e][j - i..]) || Stalling(text, format, e, false)
  {
    hide OddTail, GapEnd, Stalling;
    assert text[i..e][j - i..] == text[j..e];
    if j < e {
      GapStalls(text, format, j);
    } else {
      NoTail();
    }
  }

  lemma NoTail()
    ensures !OddTail("")
  {
  }

  /** The rest of the loop repeats for ever exactly if a gap with an odd tail lies ahead. */
  lemma {:induction false} RestStallsExactly(text: string, format: Format, i: nat, inCode: bool, prev: Option<Kind>)
    requires i <= |text|
    ensures TokensFrom(text, format, i, inCode, prev).Diverges? <==> Stalling(text, format, i, inCode)
    decreases |text| - i, inCode
  {
    hide TakeTurn, MakeTok, Stalling, TokensFrom, OddTail, GapEnd, Until;
    if i == |text| {
      AtTextEnd(text, format, inCode, prev);
      return;
    }
    var turn := TakeTurn(text, format, i, inCode, prev);
    if turn.Emit? {
      TurnTokens(text, format, i, inCode, prev);
    } else if turn.Stuck? {
      StuckDiverges(text, format, i, inCode, prev);
    } else {
      OtherTurns(text, format, i, inCode, prev);
    }
    if inCode {
      CodeTurn(text, format, i, prev);
      var n := |Until(text[i..], {'<'})|;
      if n == 0 {
        RestStallsExactly(text, format, i, false, prev);
      } else {
        RestStallsExactly(text, format, i + n, false, Some(Code));
      }
    } else if text[i] in {'{', '<'} {
      MarkupTurn(text, format, i, prev);
      if turn.Emit? {
        RestStallsExactly(text, format, i + |turn.s|, turn.mark.opensCode, Some(turn.mark.kind));
      }
    } else {
      GapStarts(text, i);
      GapTurn(text, format, i, prev);
      GapStalls(text, format, i);
      if turn.Emit? {
        InsideGap(text, i, i + |turn.s|);
        GapGoesOn(text, format, i, i + |turn.s|, GapEnd(text, i));
        RestStallsExactly(text, format, i + |turn.s|, false, Some(turn.mark.kind));
      }
    }
  }

  lemma StuckDiverges(text: string, format: Format, i: nat, inCode: bool, prev: Option<Kind>)
    requires i < |text| && TakeTurn(text, format, i, inCode, prev).Stuck?
    ensures TokensFrom(text, format, i, inCode, prev).Diverges?
  {
    hide TakeTurn, MakeTok;
  }

  lemma AtTextEnd(text: string, format: Format, inCode: bool, prev: Option<Kind>)
    ensures TokensFrom(text, format, |text|, inCode, prev) == Tokens([])
    ensures !Stalling(text, format, |text|, inCode)
  {
  }

  lemma CodeTurn(text: string, format: Format, i: nat, prev: Option<Kind>)
    requires i < |text|
    ensures var turn, s := TakeTurn(text, format, i, true, prev), Until(text[i..], {'<'});
            && turn == (if s == "" then EndCode else Emit(s, Label(Code, "", false)))
            && (Stalling(text, format, i, true) <==> Stalling(text, format, i + |s|, false))
  {
    CodeStalls(text, format, i);
    hide Stalling, Classify, TakeMarkup;
  }

  lemma CodeStalls(text: string, format: Format, i: nat)
    requires i < |text|
    ensures Stalling(text, format, i, true) <==> Stalling(text, format, i + |Until(text[i..], {'<'})|, false)
  {
    hide Classify, TakeMarkup, OddTail, Until, GapEnd;
  }

  lemma MarkupTurn(text: string, format: Format, i: nat, prev: Option<Kind>)
    requires i < |text| && text[i] in {'{', '<'}
    ensures var turn := TakeTurn(text, format, i, false, prev);
            && !turn.Stuck? && !turn.EndCode?
            && (Stalling(text, format, i, false) <==>
                  turn.Emit? && Stalling(text, format, i + |turn.s|, turn.mark.opensCode))
  {
    hide TakeMarkup;
  }

  lemma GapStarts(text: string, i: nat)
    requires i < |text| && text[i] !in {'{', '<'}
    ensures i < GapEnd(text, i)
  {
    assert text[i..][0] == text[i];
  }

  lemma GapStalls(text: string, format: Format, i: nat)
    requires i < |text| && i < GapEnd(text, i) && text[i] !in {'{', '<'}
    ensures Stalling(text, format, i, false) <==>
              OddTail(text[i..GapEnd(text, i)]) || Stalling(text, format, GapEnd(text, i), false)
  {
    hide GapEnd, OddTail;
  }

  /** Tokenizing repeats for ever exactly if, before the first markup that cannot be read, the text between two pieces
      of markup, or after the last one, has white space at its end that is neither a space nor a newline. */
  lemma HangsExactly(text: string, format: Format)
    ensures Tokenize(text, format).Diverges? <==> Stalling(text, format, 0, false)
  {
    RestStallsExactly(text, format, 0, false, None);
  }
}
