/** The scanners of the tokenizer: each returns the piece of `text` that a token starting at `i` covers. */
module Scanners {
  import opened Text
  import opened Tokens

  // Tags that stop at a fixed character

  /** The first index from `e` that holds `stop` or reaches `limit`. */
  function Seek(text: string, e: nat, limit: int, stop: char): (r: nat)
    requires limit <= |text|
    ensures e <= r && (r == e || r <= limit)
    ensures forall k :: e <= k < r ==> text[k] != stop
    ensures r >= limit || text[r] == stop
    decreases limit - e
  {
    if e < limit && text[e] != stop then Seek(text, e + 1, limit, stop) else e
  }

  /** A tag that runs to the first `stop` from `e`, which must be followed by a closing brace. */
  function StopTag(text: string, i: nat, e: nat, slack: nat, stop: char): (r: Result<string>)
    requires i < e && i < |text|
    ensures r.Ok? ==> 0 < |r.value| <= |text| - i && r.value == text[i..i + |r.value|]
    ensures r.Ok? ==> r.value[|r.value| - 1] == '}'
  {
    var f := Seek(text, e, |text| - slack, stop);
    if f >= |text| then Raise(IndexError)
    else if text[f] != stop then Raise(Tokenization)
    else if f + 1 >= |text| then Raise(IndexError)
    else if text[f + 1] != '}' then Raise(Tokenization)
    else Ok(text[i..f + 2])
  }

  /** A stop tag is found exactly when the first `stop` after the opening is directly closed. */
  lemma StopTagMeaning(text: string, i: nat, e: nat, slack: nat, stop: char, f: nat)
    requires i < e <= f && f + 1 < |text| && 1 <= slack <= 2
    requires stop == '}' || slack == 1
    ensures StopTag(text, i, e, slack, stop) == Ok(text[i..f + 2])
       <==> text[f] == stop && text[f + 1] == '}' && stop !in text[e..f]
  {
    var g := Seek(text, e, |text| - slack, stop);
    if g <= f {
      assert forall k :: e <= k < f ==> text[e..f][k - e] == text[k];
    }
    if StopTag(text, i, e, slack, stop) == Ok(text[i..f + 2]) {
      assert |text[i..g + 2]| == |text[i..f + 2]|;
    }
  }

  method GetHandlebarsTag(text: string, i: nat) returns (r: Result<string>)
    requires i < |text|
    ensures r == StopTag(text, i, i + 2, 2, '}')
  {
    var end := i + 2;
    while end < |text| - 2 && text[end] != '}'
      invariant Seek(text, end, |text| - 2, '}') == Seek(text, i + 2, |text| - 2, '}')
    {
      end := end + 1;
    }
    if end >= |text| {
      return Raise(IndexError);
    }
    if text[end] != '}' {
      return Raise(Tokenization);
    }
    if end + 1 >= |text| {
      return Raise(IndexError);
    }
    if text[end + 1] != '}' {
      return Raise(Tokenization);
    }
    return Ok(text[i..end + 2]);
  }

  method GetDjangoTag(text: string, i: nat, stripped: bool) returns (r: Result<string>)
    requires i < |text|
    ensures r == StopTag(text, i, if stripped then i + 3 else i + 2, 1, '%')
  {
    var end := i + 2;
    if stripped {
      end := end + 1;
    }
    ghost var from := end;
    while end < |text| - 1 && text[end] != '%'
      invariant end >= i + 2
      invariant Seek(text, end, |text| - 1, '%') == Seek(text, from, |text| - 1, '%')
    {
      end := end + 1;
    }
    if end >= |text| {
      return Raise(IndexError);
    }
    if text[end] != '%' {
      return Raise(Tokenization);
    }
    if end + 1 >= |text| {
      return Raise(IndexError);
    }
    if text[end + 1] != '}' {
      return Raise(Tokenization);
    }
    return Ok(text[i..end + 2]);
  }

  predicate LookingAt(text: string, i: nat, s: string) {
    i + |s| <= |text| && text[i..i + |s|] == s
  }

  function TripleStache(text: string, i: nat): (r: Result<string>)
    requires i < |text|
    ensures r.Ok? ==> 0 < |r.value| <= |text| - i && r.value == text[i..i + |r.value|]
    ensures r.Ok? ==> r.value[|r.value| - 1] == '}'
  {
    var f := Seek(text, i + 3, |text| - 3, '}');
    if LookingAt(text, f, "}}}") then
      assert text[f + 2] == text[f..f + 3][2];
      Ok(text[i..f + 3])
    else if LookingAt(text, f, "}~}}") then
      assert text[f + 3] == text[f..f + 4][3];
      Ok(text[i..f + 4])
    else Raise(Tokenization)
  }

  method GetHandlebarsTripleStacheTag(text: string, i: nat) returns (r: Result<string>)
    requires i < |text|
    ensures r == TripleStache(text, i)
  {
    var end := i + 3;
    while end < |text| - 3 && text[end] != '}'
      invariant end >= i + 3
      invariant Seek(text, end, |text| - 3, '}') == Seek(text, i + 3, |text| - 3, '}')
    {
      end := end + 1;
    }
    if LookingAt(text, end, "}}}") {
      r := Ok(text[i..end + 3]);
    } else if LookingAt(text, end, "}~}}") {
      r := Ok(text[i..end + 4]);
    } else {
      r := Raise(Tokenization);
    }
  }

  // Regions that run to a terminator: comments, partials and template variables

  predicate ClosesAt(text: string, e: nat, term: string) {
    |term| <= e <= |text| && text[e - |term|..e] == term
  }

  /** The least end, from `e` on, of a region closed by `term`. */
  function FindEnd(text: string, e: nat, term: string): (r: Option<nat>)
    requires |term| <= e
    ensures r.Some? ==> e <= r.value && ClosesAt(text, r.value, term)
    ensures forall k :: e <= k && (r.Some? ==> k < r.value) ==> !ClosesAt(text, k, term)
    decreases |text| - e
  {
    if e > |text| then None
    else if ClosesAt(text, e, term) then Some(e)
    else FindEnd(text, e + 1, term)
  }

  predicate AngleFrom(text: string, from: nat) {
    exists k :: from <= k < |text| && text[k] == '<'
  }

  /** A region of at least `skip` characters. When it is never closed, reading past the text raises an
      IndexError unless a `<` was met, which makes it a tokenization error. */
  function Closed(text: string, i: nat, skip: nat, term: string): (r: Result<string>)
    requires i < |text| && 1 <= |term| <= skip
    ensures r.Ok? ==> 0 < |r.value| <= |text| - i && r.value == text[i..i + |r.value|]
    ensures r.Ok? ==> r.value[|r.value| - 1] == term[|term| - 1]
  {
    match FindEnd(text, i + skip, term)
    case Some(e) =>
      assert text[e - |term|..e][|term| - 1] == text[e - 1];
      Ok(text[i..e])
    case None =>
      if i + skip > |text| || AngleFrom(text, i + skip) then Raise(Tokenization) else Raise(IndexError)
  }

  method GetClosed(text: string, i: nat, skip: nat, term: string) returns (r: Result<string>)
    requires i < |text| && 1 <= |term| <= skip
    ensures r == Closed(text, i, skip, term)
  {
    var end := i + skip;
    var unclosedEnd := 0;
    while end <= |text|
      invariant end >= i + skip
      invariant FindEnd(text, end, term) == FindEnd(text, i + skip, term)
      invariant i + skip <= |text| ==> end <= |text| || unclosedEnd != 0
      invariant unclosedEnd == 0 ==> forall k :: i + skip <= k < end && k < |text| ==> text[k] != '<'
      invariant unclosedEnd != 0 ==> i + skip <= unclosedEnd < |text| && text[unclosedEnd] == '<'
    {
      if ClosesAt(text, end, term) {
        return Ok(text[i..end]);
      }
      if unclosedEnd == 0 {
        if end == |text| {
          return Raise(IndexError);
        }
        if text[end] == '<' {
          unclosedEnd := end;
        }
      }
      end := end + 1;
    }
    r := Raise(Tokenization);
  }

  function Var(text: string, i: nat): (r: Result<string>)
    requires i < |text|
    ensures r.Ok? ==> 0 < |r.value| <= |text| - i && r.value == text[i..i + |r.value|]
    ensures r.Ok? ==> r.value[|r.value| - 1] == '}'
  {
    match Closed(text, i, 3, "}")
    case Ok(s) => if LookingAt(text, i + |s|, "}") then Ok(text[i..i + |s| + 1]) else Ok(s)
    case Raise(e) => Raise(e)
  }

  method GetTemplateVar(text: string, i: nat) returns (r: Result<string>)
    requires i < |text|
    ensures r == Var(text, i)
  {
    var region := GetClosed(text, i, 3, "}");
    match region
    case Raise(e) => return Raise(e);
    case Ok(s) =>
      var end := i + |s|;
      if end < |text| && text[end] == '}' {
        assert text[end..end + 1] == "}";
        end := end + 1;
      } else if end < |text| {
        assert text[end..end + 1][0] == text[end];
      }
      return Ok(text[i..end]);
  }

  // HTML tags, which may quote their closing character

  /** The number of double quotes in `s`. */
  function Quotes(s: string): nat {
    if s == "" then 0 else Quotes(s[..|s| - 1]) + if s[|s| - 1] == '"' then 1 else 0
  }

  /** The first `>` from `e` on that is not inside quotes, or the length of the text. */
  function HtmlStop(text: string, from: nat, e: nat): (r: nat)
    requires from <= e <= |text|
    ensures e <= r <= |text|
    ensures r < |text| ==> text[r] == '>' && Quotes(text[from..r]) % 2 == 0
    ensures forall k :: e <= k < r ==> text[k] != '>' || Quotes(text[from..k]) % 2 != 0
    decreases |text| - e
  {
    if e < |text| && (text[e] != '>' || Quotes(text[from..e]) % 2 != 0) then HtmlStop(text, from, e + 1) else e
  }

  function HtmlTag(text: string, i: nat): (r: Result<string>)
    requires i < |text|
    ensures r.Ok? ==> 0 < |r.value| <= |text| - i && r.value == text[i..i + |r.value|]
    ensures r.Ok? ==> r.value[|r.value| - 1] == '>'
  {
    var e := HtmlStop(text, i + 1, i + 1);
    if e == |text| then Raise(Tokenization) else Ok(text[i..e + 1])
  }

  method GetHtmlTag(text: string, i: nat) returns (r: Result<string>)
    requires i < |text|
    ensures r == HtmlTag(text, i)
  {
    var quoteCount := 0;
    var end := i + 1;
    while end < |text| && (text[end] != '>' || (quoteCount % 2 != 0 && text[end] != '<'))
      invariant i + 1 <= end <= |text|
      invariant quoteCount == Quotes(text[i + 1..end])
      invariant HtmlStop(text, i + 1, end) == HtmlStop(text, i + 1, i + 1)
    {
      assert text[i + 1..end + 1][..end - i - 1] == text[i + 1..end];
      if text[end] == '"' {
        quoteCount := quoteCount + 1;
      }
      end := end + 1;
    }
    if quoteCount % 2 != 0 {
      return Raise(Tokenization);
    }
    if end == |text| || text[end] != '>' {
      return Raise(Tokenization);
    }
    return Ok(text[i..end + 1]);
  }

  // Runs of characters

  method GetRun(text: string, i: nat, stops: set<char>) returns (s: string)
    requires i <= |text|
    ensures s == Until(text[i..], stops)
  {
    s := "";
    var end := i;
    while end < |text| && text[end] !in stops
      invariant i <= end <= |text|
      invariant s + Until(text[end..], stops) == Until(text[i..], stops)
    {
      assert text[end..][1..] == text[end + 1..];
      assert s + ([text[end]] + Until(text[end + 1..], stops)) == s + [text[end]] + Until(text[end + 1..], stops);
      s := s + [text[end]];
      end := end + 1;
    }
    assert Until(text[end..], stops) == "";
  }

  /** `get_text`: a run of plain characters, trimmed of every kind of white space. */
  method GetText(text: string, i: nat) returns (s: string)
    requires i <= |text|
    ensures s == Trim(Until(text[i..], {'{', '<'}), PY_SPACE)
  {
    var run := GetRun(text, i, {'{', '<'});
    s := Trim(run, PY_SPACE);
  }

  /** `get_spaces`. */
  function Spaces(text: string, i: nat): (s: string)
    requires i <= |text|
    ensures |s| <= |text| - i && s == text[i..i + |s|] && Over(s, BLANK)
    ensures i + |s| < |text| ==> text[i + |s|] != ' '
    decreases |text| - i
  {
    if i < |text| && text[i] == ' ' then " " + Spaces(text, i + 1) else ""
  }

  method GetSpaces(text: string, i: nat) returns (s: string)
    requires i <= |text|
    ensures s == Spaces(text, i)
  {
    s := "";
    var end := i;
    while end < |text| && text[end] == ' '
      invariant i <= end <= |text|
      invariant s + Spaces(text, end) == Spaces(text, i)
    {
      assert s + (" " + Spaces(text, end + 1)) == s + " " + Spaces(text, end + 1);
      s := s + [text[end]];
      end := end + 1;
    }
  }
}
