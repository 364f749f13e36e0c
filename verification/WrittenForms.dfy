/** How a template is written and what the tokenizer makes of it: every form of markup, wherever it stands outside a
    code block, is one token of its kind with its name. */
module WrittenForms {
  import opened Text
  import opened Tokens
  import opened Scanners
  import opened Tokenizer

  /** At `i` the loop takes `w` as one token of this kind and tag, whatever came before it, and goes on after it. */
  ghost predicate Reads(text: string, format: Format, i: nat, w: string, kind: Kind, tag: string, code: bool) {
    && w != "" && i + |w| <= |text|
    && forall prev: Option<Kind> ::
         TokensFrom(text, format, i, false, prev) ==
           Prepend([Tok(kind, w, tag, LineAt(text, i), ColAt(text, i), LineSpan(w))],
                   TokensFrom(text, format, i + |w|, code, Some(kind)))
  }

  lemma MarkupReads(text: string, format: Format, i: nat, b: Branch, w: string, mark: Label)
    requires i < |text| && Classify(text, i, format) == b && Markup(b)
    requires Scan(b, text, i) == Ok(w) && LabelOf(b, w) == Ok(mark)
    ensures Reads(text, format, i, w, mark.kind, Trim(mark.tag, PY_SPACE), mark.opensCode)
  {
    hide Classify, Scan, LabelOf, LineAt, ColAt, LineSpan, Trim, PY_SPACE, TokensFrom;
    assert TakeMarkup(b, text, i) == Emit(w, mark);
    forall prev: Option<Kind>
      ensures TokensFrom(text, format, i, false, prev) ==
                Prepend([Tok(mark.kind, w, Trim(mark.tag, PY_SPACE), LineAt(text, i), ColAt(text, i), LineSpan(w))],
                        TokensFrom(text, format, i + |w|, mark.opensCode, Some(mark.kind)))
    {
      TurnTokens(text, format, i, false, prev);
    }
  }

  // What stands at a position

  /** `p` and `w` agree as far as both go. */
  predicate Agree(p: string, w: string) {
    forall k :: 0 <= k < |p| && k < |w| ==> p[k] == w[k]
  }

  lemma Seen(text: string, i: nat, w: string)
    requires LookingAt(text, i, w)
    ensures i + |w| <= |text| && forall k :: 0 <= k < |w| ==> text[i + k] == w[k]
    ensures forall p: string :: LookingAt(text, i, p) ==> Agree(p, w)
    ensures forall p: string :: p <= w ==> LookingAt(text, i, p)
  {
    forall k | 0 <= k < |w|
      ensures text[i + k] == w[k]
    {
      assert text[i..i + |w|][k] == w[k];
    }
    forall p: string | LookingAt(text, i, p)
      ensures Agree(p, w)
    {
      forall k | 0 <= k < |p| && k < |w|
        ensures p[k] == w[k]
      {
        assert text[i..i + |p|][k] == p[k];
      }
    }
    forall p: string | p <= w
      ensures LookingAt(text, i, p)
    {
      assert text[i..i + |p|] == text[i..i + |w|][..|p|];
    }
  }

  /** A branch is taken if its own test holds and no earlier one does. */
  lemma Taken(text: string, i: nat, format: Format, b: Branch)
    requires i < |text| && LooksLike(b, text, i, format)
    requires forall other :: PlaceOf(other) < PlaceOf(b) ==> !LooksLike(other, text, i, format)
    ensures Classify(text, i, format) == b
  {
    FirstBranchIsTaken(text, i, format, b);
    SamePlace(Classify(text, i, format), b);
  }

  lemma SamePlace(a: Branch, b: Branch)
    requires PlaceOf(a) == PlaceOf(b)
    ensures a == b
  {
  }

  lemma SolidTrims(s: string, cs: set<char>)
    requires s != "" ==> s[0] !in cs && s[|s| - 1] !in cs
    ensures Trim(s, cs) == s
  {
  }

  // HTML tags

  /** Quotes come in pairs, and a `>` stands only between them. */
  predicate Quoted(u: string) {
    Quotes(u) % 2 == 0 && forall k :: 0 <= k < |u| && u[k] == '>' ==> Quotes(u[..k]) % 2 != 0
  }

  lemma {:induction false} HtmlStopIs(text: string, from: nat, e: nat, f: nat)
    requires from <= e <= f < |text| && text[f] == '>' && Quotes(text[from..f]) % 2 == 0
    requires forall k :: e <= k < f ==> text[k] != '>' || Quotes(text[from..k]) % 2 != 0
    ensures HtmlStop(text, from, e) == f
    decreases f - e
  {
    if e < f {
      HtmlStopIs(text, from, e + 1, f);
    }
  }

  lemma HtmlTagIs(text: string, i: nat, u: string)
    requires LookingAt(text, i, "<" + u + ">") && Quoted(u)
    ensures i < |text| && HtmlTag(text, i) == Ok("<" + u + ">")
  {
    var w := "<" + u + ">";
    Seen(text, i, w);
    var f := i + 1 + |u|;
    assert text[f] == w[|u| + 1];
    assert text[i + 1..f] == u by {
      assert forall k :: 0 <= k < |u| ==> text[i + (k + 1)] == w[k + 1] == u[k];
    }
    forall k | i + 1 <= k < f
      ensures text[k] != '>' || Quotes(text[i + 1..k]) % 2 != 0
    {
      assert text[k] == u[k - i - 1];
      assert text[i + 1..k] == u[..k - i - 1];
    }
    HtmlStopIs(text, i + 1, i + 1, f);
    assert text[i..f + 1] == w;
  }

  /** `</name>` is an end tag. */
  lemma EndTagReads(text: string, format: Format, i: nat, body: string)
    requires LookingAt(text, i, "</" + body + ">") && Quoted("/" + body)
    ensures Reads(text, format, i, "</" + body + ">", HtmlEnd, Trim(body, PY_SPACE), false)
  {
    var w := "</" + body + ">";
    assert w == "<" + ("/" + body) + ">";
    HtmlTagIs(text, i, "/" + body);
    Seen(text, i, w);
    assert "</" <= w && "<" <= w && w[0] == '<' && w[1] == '/';
    Taken(text, i, format, OnHtmlEnd);
    assert w[2..|w| - 1] == body;
    MarkupReads(text, format, i, OnHtmlEnd, w, Label(HtmlEnd, body, false));
  }

  /** A name followed by nothing, or by white space and anything. */
  predicate Named(name: string, rest: string) {
    && name != "" && (forall k :: 0 <= k < |name| ==> name[k] !in PY_SPACE)
    && (rest != "" ==> rest[0] in PY_SPACE)
  }

  lemma NameIsFirst(name: string, rest: string)
    requires Named(name, rest)
    ensures FirstWord(name + rest) == Some(name)
  {
    var body := name + rest;
    hide PY_SPACE;
    assert body[0] == name[0];
    UntilIs(name, rest);
  }

  lemma {:induction false} UntilIs(name: string, rest: string)
    requires forall k :: 0 <= k < |name| ==> name[k] !in PY_SPACE
    requires rest != "" ==> rest[0] in PY_SPACE
    ensures Until(name + rest, PY_SPACE) == name
  {
    hide PY_SPACE;
    if name == "" {
      assert name + rest == rest;
    } else {
      assert (name + rest)[1..] == name[1..] + rest;
      UntilIs(name[1..], rest);
    }
  }

  lemma NameTrims(name: string, rest: string)
    requires Named(name, rest)
    ensures Trim(name, PY_SPACE) == name
  {
    SolidTrims(name, PY_SPACE);
  }

  predicate Doctype(name: string) {
    name in {"!DOCTYPE", "!doctype"}
  }

  predicate OpensCode(name: string) {
    name in {"code", "pre", "script"}
  }

  lemma HtmlStartTaken(text: string, format: Format, i: nat, u: string)
    requires LookingAt(text, i, "<" + u + ">") && u != "" && u[0] != '/' && !StartsWith(u + ">", "!--")
    ensures i < |text| && Classify(text, i, format) == OnHtmlStart
  {
    var w := "<" + u + ">";
    Seen(text, i, w);
    assert "<" <= w && w[0] == '<' && w[1] == u[0];
    assert !LookingAt(text, i, "</") by {
      assert "</"[1] != w[1];
    }
    assert !LookingAt(text, i, "<!--") by {
      if LookingAt(text, i, "<!--") {
        OpenerOf(text, i, u);
      }
    }
    Taken(text, i, format, OnHtmlStart);
  }

  lemma OpenerOf(text: string, i: nat, u: string)
    requires LookingAt(text, i, "<" + u + ">") && LookingAt(text, i, "<!--")
    ensures StartsWith(u + ">", "!--")
  {
    var w := "<" + u + ">";
    Seen(text, i, w);
    Seen(text, i, "<!--");
    assert Agree("<!--", w);
    assert forall k :: 0 <= k < |u + ">"| ==> w[k + 1] == (u + ">")[k];
    assert forall k :: 0 <= k < 4 && k < |w| ==> "<!--"[k] == w[k];
    assert w[|u| + 1] == '>';
    assert |u| >= 3;
    assert (u + ">")[..3] == "!--";
  }

  /** `<name ...>` is a start tag, and the text after `<code>`, `<pre>` and `<script>` is code. */
  lemma StartTagReads(text: string, format: Format, i: nat, name: string, rest: string)
    requires Named(name, rest) && Quoted(name + rest) && name[0] != '/' && !StartsWith(name + rest + ">", "!--")
    requires (name + rest)[|name + rest| - 1] != '/'
    requires LookingAt(text, i, "<" + (name + rest) + ">")
    ensures Reads(text, format, i, "<" + (name + rest) + ">", if Doctype(name) then HtmlDoctype else HtmlStart, name,
                  OpensCode(name))
  {
    hide Named, PY_SPACE, FirstWord, Trim, Classify, HtmlTag, HtmlStartLabel, Doctype, OpensCode, Quoted, LookingAt,
         Reads;
    var u := name + rest;
    NameStarts(name, rest);
    HtmlTagIs(text, i, u);
    HtmlStartTaken(text, format, i, u);
    NameTrims(name, rest);
    StartLabel(name, rest);
    MarkupReads(text, format, i, OnHtmlStart, "<" + u + ">",
                Label(if Doctype(name) then HtmlDoctype else HtmlStart, name, OpensCode(name)));
  }

  lemma NameStarts(name: string, rest: string)
    requires Named(name, rest)
    ensures name + rest != "" && (name + rest)[0] == name[0]
  {
    hide PY_SPACE;
  }

  lemma StartLabel(name: string, rest: string)
    requires Named(name, rest) && (name + rest)[|name + rest| - 1] != '/'
    ensures HtmlStartLabel("<" + (name + rest) + ">")
         == Ok(Label(if Doctype(name) then HtmlDoctype else HtmlStart, name, OpensCode(name)))
  {
    hide Named, PY_SPACE, FirstWord, EndsWith, Mid;
    var u := name + rest;
    NameStarts(name, rest);
    NameIsFirst(name, rest);
    NotClosed(u, "<" + u + ">");
  }

  lemma NotClosed(u: string, w: string)
    requires w == "<" + u + ">" && u != "" && u[|u| - 1] != '/'
    ensures !EndsWith(w, "/>") && Mid(w, 1, 1) == u
  {
    assert w[|w| - 2] == u[|u| - 1];
  }

  /** `<name .../>` is a singleton. */
  lemma SingletonReads(text: string, format: Format, i: nat, name: string, rest: string)
    requires Named(name, rest) && Quoted(name + rest + "/") && name[0] != '/' && !StartsWith(name + rest + "/>", "!--")
    requires LookingAt(text, i, "<" + (name + rest + "/") + ">")
    ensures Reads(text, format, i, "<" + (name + rest + "/") + ">", if Doctype(name) then HtmlDoctype else HtmlSingleton,
                  name, OpensCode(name))
  {
    hide Named, PY_SPACE, FirstWord, Trim, Classify, HtmlTag, HtmlStartLabel, Doctype, OpensCode, Quoted, LookingAt, Reads,
         StartsWith;
    var u := name + rest + "/";
    NameStarts(name, rest);
    assert u + ">" == name + rest + "/>";
    assert u != "" && u[0] == (name + rest)[0];
    HtmlTagIs(text, i, u);
    HtmlStartTaken(text, format, i, u);
    NameTrims(name, rest);
    SingletonLabel(name, rest);
    MarkupReads(text, format, i, OnHtmlStart, "<" + u + ">",
                Label(if Doctype(name) then HtmlDoctype else HtmlSingleton, name, OpensCode(name)));
  }

  lemma SingletonLabel(name: string, rest: string)
    requires Named(name, rest)
    ensures HtmlStartLabel("<" + (name + rest + "/") + ">")
         == Ok(Label(if Doctype(name) then HtmlDoctype else HtmlSingleton, name, OpensCode(name)))
  {
    hide Named, PY_SPACE, FirstWord, EndsWith, Mid;
    NameIsFirst(name, rest);
    IsClosed(name + rest, "<" + (name + rest + "/") + ">");
  }

  lemma IsClosed(u: string, w: string)
    requires w == "<" + (u + "/") + ">"
    ensures EndsWith(w, "/>") && Mid(w, 1, 2) == u
  {
    EndsInSlash("<" + u, w);
  }

  lemma EndsInSlash(p: string, w: string)
    requires w == p + "/>"
    ensures EndsWith(w, "/>")
  {
  }

  // Comments and partials

  /** The first place, `skip` characters on or later, at which `w` is closed is its end. */
  predicate ClosedOnce(w: string, skip: nat, term: string) {
    |w| >= skip && EndsWith(w, term) && forall k :: skip <= k < |w| ==> !ClosesAt(w, k, term)
  }

  lemma PartOf(text: string, i: nat, w: string, a: nat, b: nat)
    requires LookingAt(text, i, w) && a <= b <= |w|
    ensures i + |w| <= |text| && w[a..b] == text[i + a..i + b]
  {
    Seen(text, i, w);
    var x, y := w[a..b], text[i + a..i + b];
    forall k | 0 <= k < b - a
      ensures x[k] == y[k]
    {
      assert text[i + (a + k)] == w[a + k];
    }
    assert x == y;
  }

  lemma ClosedIs(text: string, i: nat, w: string, skip: nat, term: string)
    requires LookingAt(text, i, w) && 1 <= |term| <= skip && ClosedOnce(w, skip, term)
    ensures i < |text| && Scanners.Closed(text, i, skip, term) == Ok(w)
  {
    var n := i + |w|;
    PartOf(text, i, w, |w| - |term|, |w|);
    assert ClosesAt(text, n, term);
    forall k | i + skip <= k < n
      ensures !ClosesAt(text, k, term)
    {
      PartOf(text, i, w, k - i - |term|, k - i);
      assert !ClosesAt(w, k - i, term);
    }
    var e := FindEnd(text, i + skip, term);
    assert e == Some(n);
    assert text[i..n] == w;
  }

  /** What stands between two ends. */
  lemma MidOf(a: string, name: string, b: string)
    ensures Mid(a + name + b, |a|, |b|) == name
  {
    var w := a + name + b;
    assert w[|a|..|w| - |b|] == name;
  }

  lemma HtmlCommentReads(text: string, format: Format, i: nat, body: string)
    requires LookingAt(text, i, "<!--" + body + "-->") && ClosedOnce("<!--" + body + "-->", 7, "-->")
    ensures Reads(text, format, i, "<!--" + body + "-->", HtmlComment, Trim(body, PY_SPACE), false)
  {
    hide PY_SPACE, Trim, Classify, Scanners.Closed, ClosedOnce, LookingAt, Reads, Mid;
    var w := "<!--" + body + "-->";
    ClosedIs(text, i, w, 7, "-->");
    HtmlCommentTaken(text, format, i, w, body + "-->");
    MidOf("<!--", body, "-->");
    MarkupReads(text, format, i, OnHtmlComment, w, Label(HtmlComment, body, false));
  }

  lemma HtmlCommentTaken(text: string, format: Format, i: nat, w: string, tail: string)
    requires LookingAt(text, i, w) && i < |text| && w == "<!--" + tail
    ensures Classify(text, i, format) == OnHtmlComment
  {
    Seen(text, i, w);
    assert "<!--" <= w;
    Taken(text, i, format, OnHtmlComment);
  }

  lemma HandlebarsCommentReads(text: string, format: Format, i: nat, body: string)
    requires LookingAt(text, i, "{{!" + body + "}}") && ClosedOnce("{{!" + body + "}}", 5, "}}")
    ensures Reads(text, format, i, "{{!" + body + "}}", HandlebarsComment, Trim(body, PY_SPACE), false)
  {
    hide PY_SPACE, Trim, Classify, Scanners.Closed, ClosedOnce, LookingAt, Reads, Mid;
    var w := "{{!" + body + "}}";
    ClosedIs(text, i, w, 5, "}}");
    HandlebarsCommentTaken(text, format, i, w, body + "}}");
    MidOf("{{!", body, "}}");
    MarkupReads(text, format, i, OnHandlebarsComment, w, Label(HandlebarsComment, body, false));
  }

  lemma HandlebarsCommentTaken(text: string, format: Format, i: nat, w: string, tail: string)
    requires LookingAt(text, i, w) && i < |text| && w == "{{!" + tail
    ensures Classify(text, i, format) == OnHandlebarsComment
  {
    Seen(text, i, w);
    assert "{{!" <= w && w[0] == '{';
    Taken(text, i, format, OnHandlebarsComment);
  }

  lemma DjangoCommentReads(text: string, i: nat, body: string)
    requires LookingAt(text, i, "{#" + body + "#}") && ClosedOnce("{#" + body + "#}", 4, "#}")
    ensures Reads(text, Django, i, "{#" + body + "#}", DjangoComment, Trim(body, PY_SPACE), false)
  {
    hide PY_SPACE, Trim, Classify, Scanners.Closed, ClosedOnce, LookingAt, Reads, Mid;
    var w := "{#" + body + "#}";
    ClosedIs(text, i, w, 4, "#}");
    DjangoCommentTaken(text, i, w, body + "#}");
    MidOf("{#", body, "#}");
    MarkupReads(text, Django, i, OnDjangoComment, w, Label(DjangoComment, body, false));
  }

  lemma DjangoCommentTaken(text: string, i: nat, w: string, tail: string)
    requires LookingAt(text, i, w) && i < |text| && w == "{#" + tail
    ensures Classify(text, i, Django) == OnDjangoComment
  {
    Seen(text, i, w);
    assert "{#" <= w && w[0] == '{' && w[1] == '#';
    Taken(text, i, Django, OnDjangoComment);
  }

  /** The name of a partial is what stands after nine characters. */
  lemma PartialReads(text: string, i: nat, head: string, body: string)
    requires |head| == 9 && StartsWith(head, "{{>")
    requires LookingAt(text, i, head + body + "}}") && ClosedOnce(head + body + "}}", 10, "}}")
    ensures Reads(text, Handlebars, i, head + body + "}}", HandlebarsPartial, Trim(body, PY_SPACE), false)
  {
    hide PY_SPACE, Trim, Classify, Scanners.Closed, ClosedOnce, LookingAt, Reads, Mid;
    var w := head + body + "}}";
    ClosedIs(text, i, w, 10, "}}");
    PartialTaken(text, i, w, head);
    MidOf(head, body, "}}");
    MarkupReads(text, Handlebars, i, OnPartial, w, Label(HandlebarsPartial, body, false));
  }

  lemma PartialTaken(text: string, i: nat, w: string, head: string)
    requires LookingAt(text, i, w) && i < |text| && head <= w && |head| >= 3 && StartsWith(head, "{{>")
    ensures Classify(text, i, Handlebars) == OnPartial
  {
    Seen(text, i, w);
    assert "{{>" <= w && w[0] == '{' && w[2] == '>' by {
      assert w[..3] == head[..3] == "{{>";
    }
    Taken(text, i, Handlebars, OnPartial);
  }

  /** A partial block, `{{#> name ...}}`. */
  lemma PartialBlockReads(text: string, i: nat, space: char, name: string, rest: string)
    requires Named(name, rest)
    requires LookingAt(text, i, "{{#>" + [space] + (name + rest) + "}}")
    requires ClosedOnce("{{#>" + [space] + (name + rest) + "}}", 10, "}}")
    ensures Reads(text, Handlebars, i, "{{#>" + [space] + (name + rest) + "}}", HandlebarsPartialBlock, name, false)
  {
    hide Named, PY_SPACE, Trim, FirstWord, Classify, Scanners.Closed, ClosedOnce, LookingAt, Reads, Mid;
    var w := "{{#>" + [space] + (name + rest) + "}}";
    ClosedIs(text, i, w, 10, "}}");
    PartialBlockTaken(text, i, w, [space] + (name + rest) + "}}");
    MidOfBlock(w, space, name + rest);
    NameIsFirst(name, rest);
    NameTrims(name, rest);
    MarkupReads(text, Handlebars, i, OnPartialBlock, w, Label(HandlebarsPartialBlock, name, false));
  }

  lemma PartialBlockTaken(text: string, i: nat, w: string, tail: string)
    requires LookingAt(text, i, w) && i < |text| && w == "{{#>" + tail
    ensures Classify(text, i, Handlebars) == OnPartialBlock
  {
    Seen(text, i, w);
    assert "{{#>" <= w && w[0] == '{' && w[2] == '#';
    Taken(text, i, Handlebars, OnPartialBlock);
  }

  lemma MidOfBlock(w: string, space: char, body: string)
    requires w == "{{#>" + [space] + body + "}}"
    ensures Mid(w, 5, 2) == body
  {
  }
}
