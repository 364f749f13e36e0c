/** How template logic is written: tags, ends, elses and variables of Handlebars and Django templates, each one token
    of its kind with its name. */
module WrittenLogic {
  import opened Text
  import opened Tokens
  import opened Scanners
  import opened Tokenizer
  import opened WrittenForms

  /** After its opening the tag has its first `stop` right before the closing brace. */
  predicate StopsOnce(w: string, off: nat, stop: char) {
    |w| >= off + 2 && w[|w| - 2] == stop && w[|w| - 1] == '}' && forall k :: off <= k < |w| - 2 ==> w[k] != stop
  }

  lemma StopTagIs(text: string, i: nat, w: string, off: nat, slack: nat, stop: char)
    requires LookingAt(text, i, w) && off >= 1 && StopsOnce(w, off, stop)
    requires 1 <= slack <= 2 && (stop == '}' || slack == 1)
    ensures i < |text| && StopTag(text, i, i + off, slack, stop) == Ok(w)
  {
    Seen(text, i, w);
    var f := i + |w| - 2;
    assert text[f] == w[|w| - 2] && text[f + 1] == w[|w| - 1];
    assert stop !in text[i + off..f] by {
      forall k | i + off <= k < f
        ensures text[k] != stop
      {
        assert text[i + (k - i)] == w[k - i];
      }
    }
    StopTagMeaning(text, i, i + off, slack, stop, f);
    assert text[i..f + 2] == w;
  }

  // Handlebars

  lemma HandlebarsElseTaken(text: string, i: nat, w: string)
    requires LookingAt(text, i, w) && "{{else" <= w
    ensures i < |text| && Classify(text, i, Handlebars) == OnHandlebarsElse
  {
    hide LookingAt;
    Seen(text, i, w);
    assert w[0] == '{' && w[1] == '{' && w[2] == 'e';
    Taken(text, i, Handlebars, OnHandlebarsElse);
  }

  /** `{{else}}`, with whatever follows the word. */
  lemma HandlebarsElseReads(text: string, i: nat, rest: string)
    requires LookingAt(text, i, "{{else" + rest + "}}") && '}' !in rest
    ensures Reads(text, Handlebars, i, "{{else" + rest + "}}", HandlebarsElse, "else", false)
  {
    hide PY_SPACE, Trim, Classify, StopTag, StopsOnce, LookingAt, Reads;
    var w := "{{else" + rest + "}}";
    HandlebarsElseStops(rest);
    StopTagIs(text, i, w, 2, 2, '}');
    HandlebarsElseTaken(text, i, w);
    var mark := LabelOf(OnHandlebarsElse, w).value;
    WordTrims(mark.tag);
    MarkupReads(text, Handlebars, i, OnHandlebarsElse, w, mark);
  }

  lemma HandlebarsElseStops(rest: string)
    requires '}' !in rest
    ensures var w := "{{else" + rest + "}}"; StopsOnce(w, 2, '}') && "{{else" <= w
  {
    var w := "{{else" + rest + "}}";
    forall k | 2 <= k < |w| - 2
      ensures w[k] != '}'
    {
      assert k >= 6 ==> w[k] == rest[k - 6];
    }
  }

  lemma WordTrims(s: string)
    requires s in {"else", "var"}
    ensures Trim(s, PY_SPACE) == s
  {
    assert 'e' !in PY_SPACE && 'v' !in PY_SPACE && 'r' !in PY_SPACE;
    hide PY_SPACE, Trim;
    SolidTrims(s, PY_SPACE);
  }

  /** The ways to open a block. */
  predicate BlockOpener(p: string, format: Format) {
    p in {"{{#", "{{^"}
  }

  /** A name without marks of its own. */
  predicate Unmarked(name: string) {
    name != "" && name[0] !in {'#', '*'} && name[|name| - 1] != '#'
  }

  lemma UnmarkedIs(name: string)
    requires Unmarked(name)
    ensures RemovePrefix(Trim(name, {'#'}), "*") == name
  {
    SolidTrims(name, {'#'});
    assert name[..1][0] == name[0];
  }

  lemma BlockTaken(text: string, format: Format, i: nat, p: string, w: string)
    requires BlockOpener(p, format) && LookingAt(text, i, w) && p <= w && |w| > 3
    requires format == Handlebars ==> w[3] != '>'
    ensures i < |text| && Classify(text, i, format) == OnHandlebarsStart
  {
    hide LookingAt;
    Seen(text, i, w);
    assert p[0] == w[0] && p[1] == w[1] && p[2] == w[2];
    assert w[0] == '{' && w[1] == '{' && w[2] in {'#', '^'};
    Taken(text, i, format, OnHandlebarsStart);
  }

  /** `{{#name ...}}` and `{{^name ...}}`. */
  lemma BlockStartReads(text: string, format: Format, i: nat, p: string, name: string, rest: string)
    requires BlockOpener(p, format) && Named(name, rest) && Unmarked(name) && '}' !in name + rest && name[0] != '>'
    requires LookingAt(text, i, p + (name + rest) + "}}")
    ensures Reads(text, format, i, p + (name + rest) + "}}", HandlebarsStart, name, false)
  {
    hide PY_SPACE, Trim, FirstWord, RemovePrefix, Classify, StopTag, StopsOnce, LookingAt, Named, Mid, Unmarked, Reads;
    var w := p + (name + rest) + "}}";
    NameStarts(name, rest);
    BlockStops(p, name + rest, format);
    StopTagIs(text, i, w, 2, 2, '}');
    assert w[3] == (name + rest)[0];
    BlockTaken(text, format, i, p, w);
    MidOf(p, name + rest, "}}");
    NameIsFirst(name, rest);
    UnmarkedIs(name);
    NameTrims(name, rest);
    MarkupReads(text, format, i, OnHandlebarsStart, w, Label(HandlebarsStart, name, false));
  }

  lemma BlockStops(p: string, body: string, format: Format)
    requires BlockOpener(p, format) && '}' !in body
    ensures |p| == 3 && StopsOnce(p + body + "}}", 2, '}')
  {
    var w := p + body + "}}";
    forall k | 2 <= k < |w| - 2
      ensures w[k] != '}'
    {
      assert k >= 3 ==> w[k] == body[k - 3];
    }
  }

  lemma BlockEndTaken(text: string, i: nat, w: string)
    requires LookingAt(text, i, w) && "{{/" <= w
    ensures i < |text| && Classify(text, i, Handlebars) == OnHandlebarsEnd
  {
    hide LookingAt;
    Seen(text, i, w);
    assert w[0] == '{' && w[1] == '{' && w[2] == '/';
    Taken(text, i, Handlebars, OnHandlebarsEnd);
  }

  /** `{{/name}}`. */
  lemma BlockEndReads(text: string, i: nat, name: string)
    requires LookingAt(text, i, "{{/" + name + "}}") && '}' !in name
    ensures Reads(text, Handlebars, i, "{{/" + name + "}}", HandlebarsEnd,
                  Trim(Trim(name, {'/', '#', '~'}), PY_SPACE), false)
  {
    hide PY_SPACE, Trim, Classify, StopTag, StopsOnce, LookingAt, Mid, Reads;
    var w := "{{/" + name + "}}";
    BlockEndStops(name);
    StopTagIs(text, i, w, 2, 2, '}');
    BlockEndTaken(text, i, w);
    MidOf("{{/", name, "}}");
    MarkupReads(text, Handlebars, i, OnHandlebarsEnd, w, Label(HandlebarsEnd, Trim(name, {'/', '#', '~'}), false));
  }

  lemma BlockEndStops(name: string)
    requires '}' !in name
    ensures var w := "{{/" + name + "}}"; StopsOnce(w, 2, '}') && "{{/" <= w
  {
    var w := "{{/" + name + "}}";
    forall k | 2 <= k < |w| - 2
      ensures w[k] != '}'
    {
      assert k >= 3 ==> w[k] == name[k - 3];
    }
  }

  // Django

  lemma DjangoElseTaken(text: string, i: nat, word: string, w: string)
    requires LookingAt(text, i, w) && word in {"{% else", "{% elif"} && word <= w
    ensures i < |text| && Classify(text, i, Django) == OnDjangoElse
  {
    hide LookingAt;
    Seen(text, i, w);
    assert w[0] == '{' && w[1] == '%';
    Taken(text, i, Django, OnDjangoElse);
  }

  /** `{% else %}` and `{% elif ... %}`. */
  lemma DjangoElseReads(text: string, i: nat, word: string, rest: string)
    requires word in {"{% else", "{% elif"} && LookingAt(text, i, word + rest + "%}") && '%' !in rest
    ensures Reads(text, Django, i, word + rest + "%}", DjangoElse, "else", false)
  {
    hide PY_SPACE, Trim, Classify, StopTag, StopsOnce, LookingAt, Reads;
    var w := word + rest + "%}";
    DjangoElseStops(word, rest);
    StopTagIs(text, i, w, 2, 1, '%');
    assert word <= w;
    DjangoElseTaken(text, i, word, w);
    var mark := LabelOf(OnDjangoElse, w).value;
    WordTrims(mark.tag);
    MarkupReads(text, Django, i, OnDjangoElse, w, mark);
  }

  lemma DjangoElseStops(word: string, rest: string)
    requires word in {"{% else", "{% elif"} && '%' !in rest
    ensures StopsOnce(word + rest + "%}", 2, '%')
  {
    var w := word + rest + "%}";
    assert |word| == 7 && forall k :: 2 <= k < 7 ==> word[k] != '%';
    forall k | 2 <= k < |w| - 2
      ensures w[k] != '%'
    {
      assert w[k] == if k < 7 then word[k] else rest[k - 7];
    }
  }

  lemma DjangoEndTaken(text: string, i: nat, w: string)
    requires LookingAt(text, i, w) && "{% end" <= w
    ensures i < |text| && Classify(text, i, Django) == OnDjangoEnd
  {
    hide LookingAt;
    Seen(text, i, w);
    assert w[0] == '{' && w[1] == '%' && w[2] == ' ' && w[4] == 'n';
    Taken(text, i, Django, OnDjangoEnd);
  }

  /** `{% endname %}`: one character stands between the name and the closing. */
  lemma DjangoEndReads(text: string, i: nat, name: string, c: char)
    requires LookingAt(text, i, "{% end" + name + [c] + "%}") && '%' !in name + [c]
    ensures Reads(text, Django, i, "{% end" + name + [c] + "%}", DjangoEnd, Trim(name, PY_SPACE), false)
  {
    hide PY_SPACE, Trim, Classify, StopTag, StopsOnce, LookingAt, Reads, Mid;
    var w := "{% end" + name + [c] + "%}";
    DjangoEndStops(name, c);
    StopTagIs(text, i, w, 2, 1, '%');
    DjangoEndTaken(text, i, w);
    MarkupReads(text, Django, i, OnDjangoEnd, w, Label(DjangoEnd, name, false));
  }

  lemma DjangoEndStops(name: string, c: char)
    requires '%' !in name + [c]
    ensures var w := "{% end" + name + [c] + "%}"; StopsOnce(w, 2, '%') && "{% end" <= w && Mid(w, 6, 3) == name
  {
    var w := "{% end" + name + [c] + "%}";
    forall k | 2 <= k < |w| - 2
      ensures w[k] != '%'
    {
      assert k >= 6 ==> w[k] == (name + [c])[k - 6];
    }
    assert w[6..|w| - 3] == name;
  }

  predicate Continues(body: string) {
    StartsWith(body, "end") || StartsWith(body, "else") || StartsWith(body, "elif")
  }

  lemma DjangoStartTaken(text: string, i: nat, body: string)
    requires LookingAt(text, i, "{% " + body + "%}") && !Continues(body + "%}")
    ensures i < |text| && Classify(text, i, Django) == OnDjangoStart
  {
    hide LookingAt, StartsWith, Continues;
    var w := "{% " + body + "%}";
    Seen(text, i, w);
    assert w[0] == '{' && w[1] == '%' && w[2] == ' ';
    assert "{% " <= w;
    DjangoGoesNotOn(text, i, body + "%}", w);
    Taken(text, i, Django, OnDjangoStart);
  }

  lemma DjangoGoesNotOn(text: string, i: nat, rest: string, w: string)
    requires LookingAt(text, i, w) && w == "{% " + rest && !Continues(rest) && rest != "" && rest[|rest| - 1] == '}'
    ensures !LookingAt(text, i, "{% end") && !LookingAt(text, i, "{% else") && !LookingAt(text, i, "{% elif")
  {
    hide LookingAt, StartsWith;
    LookPast(text, i, "{% ", rest, "end");
    LookPast(text, i, "{% ", rest, "else");
    LookPast(text, i, "{% ", rest, "elif");
    assert "{% " + "end" == "{% end" && "{% " + "else" == "{% else" && "{% " + "elif" == "{% elif";
  }

  /** What stands after a prefix is looked at as it stands there. A tag ends before any word could. */
  lemma LookPast(text: string, i: nat, p: string, rest: string, word: string)
    requires LookingAt(text, i, p + rest) && |rest| >= 1 && rest[|rest| - 1] == '}' && '}' !in word
    ensures LookingAt(text, i, p + word) ==> StartsWith(rest, word)
  {
    Seen(text, i, p + rest);
    if LookingAt(text, i, p + word) {
      assert Agree(p + word, p + rest);
      forall k | 0 <= k < |word| && k < |rest|
        ensures word[k] == rest[k]
      {
        assert (p + word)[|p| + k] == (p + rest)[|p| + k];
      }
      assert |word| < |rest|;
      assert rest[..|word|] == word;
    }
  }

  function StartKind(body: string): Kind {
    if body != "" && body[|body| - 1] == '-' then Jinja2StrippedStart else DjangoStart
  }

  /** `{% name ... %}`; a minus before the closing makes it the variant that strips white space. */
  lemma DjangoStartReads(text: string, i: nat, name: string, rest: string)
    requires Named(name, rest) && '%' !in name + rest && !Continues(name + rest + "%}")
    requires LookingAt(text, i, "{% " + (name + rest) + "%}")
    ensures Reads(text, Django, i, "{% " + (name + rest) + "%}",
                  StartKind(name + rest), name, false)
  {
    hide StartKind, PY_SPACE, Trim, FirstWord, LabelOf, Classify, StopTag, Named, StopsOnce, Continues, LookingAt;
    var body := name + rest;
    var w := "{% " + body + "%}";
    DjangoStartStops(body);
    StopTagIs(text, i, w, 2, 1, '%');
    DjangoStartTaken(text, i, body);
    DjangoLabel(name, rest);
    NameTrims(name, rest);
    MarkupReads(text, Django, i, OnDjangoStart, w, Label(StartKind(body), name, false));
  }

  lemma DjangoStartStops(body: string)
    requires '%' !in body
    ensures StopsOnce("{% " + body + "%}", 2, '%')
  {
    var w := "{% " + body + "%}";
    forall k | 2 <= k < |w| - 2
      ensures w[k] != '%'
    {
      assert k >= 3 ==> w[k] == body[k - 3];
    }
  }

  lemma DjangoLabel(name: string, rest: string)
    requires Named(name, rest)
    ensures LabelOf(OnDjangoStart, "{% " + (name + rest) + "%}")
         == Ok(Label(StartKind(name + rest), name, false))
  {
    hide FirstWord, PY_SPACE, Named, Mid, StartKind;
    var body := name + rest;
    var w := "{% " + body + "%}";
    NameStarts(name, rest);
    MidOf("{% ", body, "%}");
    NameIsFirst(name, rest);
    KindOfBody(body, w);
  }

  lemma KindOfBody(body: string, w: string)
    requires body != "" && w == "{% " + body + "%}"
    ensures StartKind(body) == if |w| >= 3 && w[|w| - 3] == '-' then Jinja2StrippedStart else DjangoStart
  {
    assert w[|w| - 3] == body[|body| - 1];
  }

  lemma JinjaLooks(text: string, i: nat, rest: string)
    requires LookingAt(text, i, "{%-" + rest) && |rest| >= 1 && rest[|rest| - 1] == '}'
    requires !StartsWith(rest, " else") && !StartsWith(rest, " elif")
    ensures i < |text| && LookingAt(text, i, "{%-")
    ensures !LookingAt(text, i, "{%- else") && !LookingAt(text, i, "{%- elif")
    ensures forall p: string :: LookingAt(text, i, p) ==> Agree(p, "{%-")
  {
    var w := "{%-" + rest;
    Seen(text, i, w);
    assert "{%-" <= w;
    Seen(text, i, "{%-");
    LookPast(text, i, "{%-", rest, " else");
    LookPast(text, i, "{%-", rest, " elif");
    assert "{%-" + " else" == "{%- else" && "{%-" + " elif" == "{%- elif";
  }

  lemma JinjaTaken(text: string, i: nat, rest: string)
    requires LookingAt(text, i, "{%-" + rest) && |rest| >= 1 && rest[|rest| - 1] == '}'
    requires !StartsWith(rest, " else") && !StartsWith(rest, " elif")
    ensures i < |text|
    ensures Classify(text, i, Django) == if LookingAt(text, i, "{%- end") then OnJinja2End else OnJinja2Start
  {
    hide LookingAt, StartsWith;
    JinjaLooks(text, i, rest);
    var p := "{%-";
    assert p[0] == '{' && p[1] == '%' && p[2] == '-';
    if LookingAt(text, i, "{%- end") {
      Taken(text, i, Django, OnJinja2End);
    } else {
      Taken(text, i, Django, OnJinja2Start);
    }
  }

  /** `{%- endname %}`. */
  lemma JinjaEndReads(text: string, i: nat, name: string, c: char)
    requires LookingAt(text, i, "{%-" + (" end" + name + [c] + "%}")) && '%' !in name + [c]
    ensures Reads(text, Django, i, "{%-" + (" end" + name + [c] + "%}"), Jinja2StrippedEnd, Trim(name, PY_SPACE), false)
  {
    hide PY_SPACE, Trim, Classify, StopTag, StopsOnce, LookingAt, StartsWith, Mid, Reads;
    var rest := " end" + name + [c] + "%}";
    var w := "{%-" + rest;
    JinjaEndStops(name, c);
    StopTagIs(text, i, w, 2, 1, '%');
    assert " end" + (name + [c] + "%}") == rest;
    JinjaEndTaken(text, i, name + [c] + "%}");
    MidOf("{%- end", name, [c] + "%}");
    assert w == "{%- end" + name + ([c] + "%}");
    MarkupReads(text, Django, i, OnJinja2End, w, Label(Jinja2StrippedEnd, name, false));
  }

  lemma JinjaEndStops(name: string, c: char)
    requires '%' !in name + [c]
    ensures StopsOnce("{%-" + (" end" + name + [c] + "%}"), 2, '%')
  {
    var w := "{%-" + (" end" + name + [c] + "%}");
    forall k | 2 <= k < |w| - 2
      ensures w[k] != '%'
    {
      assert k >= 7 ==> w[k] == (name + [c])[k - 7];
    }
  }

  lemma JinjaEndTaken(text: string, i: nat, tail: string)
    requires LookingAt(text, i, "{%-" + (" end" + tail)) && tail != "" && tail[|tail| - 1] == '}'
    ensures i < |text| && Classify(text, i, Django) == OnJinja2End
  {
    var rest := " end" + tail;
    assert !StartsWith(rest, " else") && !StartsWith(rest, " elif") by {
      assert rest[..5][2] == 'n';
    }
    Seen(text, i, "{%-" + rest);
    assert "{%- end" <= "{%-" + rest;
    hide Classify, LookingAt, StartsWith;
    JinjaTaken(text, i, rest);
  }

  /** `{%- name ... %}`; the character before the closing does not belong to the name. */
  lemma JinjaStartReads(text: string, i: nat, name: string, rest: string, c: char)
    requires Named(name, rest) && '%' !in name + rest + [c] && !Continues(name + rest + [c] + "%}")
    requires LookingAt(text, i, "{%-" + (" " + (name + rest) + [c] + "%}"))
    ensures Reads(text, Django, i, "{%-" + (" " + (name + rest) + [c] + "%}"), Jinja2StrippedType2Start, name, false)
  {
    hide PY_SPACE, Trim, FirstWord, LabelOf, Classify, StopTag, StopsOnce, StartsWith, Continues, LookingAt, Named, Reads;
    var tail := name + rest + [c] + "%}";
    var all := " " + (name + rest) + [c] + "%}";
    var w := "{%-" + all;
    assert all == " " + tail;
    JinjaStartTaken(text, i, tail);
    JinjaStartStops(name + rest, c);
    StopTagIs(text, i, w, 3, 1, '%');
    JinjaLabel(name, rest, c);
    NameTrims(name, rest);
    MarkupReads(text, Django, i, OnJinja2Start, w, Label(Jinja2StrippedType2Start, name, false));
  }

  lemma JinjaStartTaken(text: string, i: nat, tail: string)
    requires LookingAt(text, i, "{%-" + (" " + tail)) && tail != "" && tail[|tail| - 1] == '}' && !Continues(tail)
    ensures i < |text| && Classify(text, i, Django) == OnJinja2Start
  {
    hide Classify, LookingAt;
    var all := " " + tail;
    SpacedWords(tail);
    JinjaTaken(text, i, all);
    LookPast(text, i, "{%-", all, " end");
    assert "{%-" + " end" == "{%- end";
  }

  lemma JinjaStartStops(body: string, c: char)
    requires '%' !in body + [c]
    ensures StopsOnce("{%-" + (" " + body + [c] + "%}"), 3, '%')
  {
    var w := "{%-" + (" " + body + [c] + "%}");
    forall k | 3 <= k < |w| - 2
      ensures w[k] != '%'
    {
      assert k >= 4 ==> w[k] == (body + [c])[k - 4];
    }
  }

  lemma JinjaLabel(name: string, rest: string, c: char)
    requires Named(name, rest)
    ensures LabelOf(OnJinja2Start, "{%-" + (" " + (name + rest) + [c] + "%}"))
         == Ok(Label(Jinja2StrippedType2Start, name, false))
  {
    hide FirstWord, PY_SPACE, Named, Mid;
    var w := "{%-" + (" " + (name + rest) + [c] + "%}");
    MidOf("{%-", " " + (name + rest), [c] + "%}");
    assert w == "{%-" + (" " + (name + rest)) + ([c] + "%}");
    SpacedName(name, rest);
    assert LabelOf(OnJinja2Start, w) == WordLabel(Jinja2StrippedType2Start, Mid(w, 3, 3));
  }

  lemma SpacedWords(tail: string)
    requires !Continues(tail)
    ensures !StartsWith(" " + tail, " end") && !StartsWith(" " + tail, " else") && !StartsWith(" " + tail, " elif")
  {
    SpaceBefore(tail, "end");
    SpaceBefore(tail, "else");
    SpaceBefore(tail, "elif");
    assert " " + "end" == " end" && " " + "else" == " else" && " " + "elif" == " elif";
  }

  lemma SpaceBefore(tail: string, word: string)
    ensures StartsWith(" " + tail, " " + word) ==> StartsWith(tail, word)
  {
    var a, b := " " + tail, " " + word;
    if StartsWith(a, b) {
      assert tail[..|word|] == a[..|b|][1..] == b[1..] == word;
    }
  }

  lemma SpacedName(name: string, rest: string)
    requires Named(name, rest)
    ensures FirstWord(" " + (name + rest)) == Some(name)
  {
    NameIsFirst(name, rest);
    var s := " " + (name + rest);
    assert s[1..] == name + rest;
    assert ' ' in PY_SPACE;
    hide PY_SPACE;
    assert LTrim(s, PY_SPACE) == LTrim(s[1..], PY_SPACE);
  }

  // Variables

  /** No other branch than that of variables looks for what stands after the braces. */
  predicate OnlyVar(c: char) {
    c !in {'!', '>', '#', '^', '~', '/', '{', 'e'}
  }

  lemma VarTaken(text: string, format: Format, i: nat, w: string)
    requires LookingAt(text, i, w) && "{{" <= w && |w| >= 3 && OnlyVar(w[2])
    ensures i < |text| && Classify(text, i, format) == OnTemplateVar
  {
    hide LookingAt;
    Seen(text, i, w);
    assert w[0] == '{' && w[1] == '{';
    assert "{" <= w;
    Taken(text, i, format, OnTemplateVar);
  }

  /** `{{ name }}`, up to the second of its closing braces. */
  lemma VarReads(text: string, format: Format, i: nat, body: string)
    requires LookingAt(text, i, "{{" + body + "}}") && '}' !in body && body != "" && OnlyVar(body[0])
    ensures Reads(text, format, i, "{{" + body + "}}", TemplateVar, "var", false)
  {
    hide PY_SPACE, Trim, Classify, Var, LookingAt, Reads;
    var w := "{{" + body + "}}";
    assert "{{" <= w && w[2] == body[0];
    VarTaken(text, format, i, w);
    VarIs(text, i, body);
    var mark := LabelOf(OnTemplateVar, w).value;
    WordTrims(mark.tag);
    MarkupReads(text, format, i, OnTemplateVar, w, mark);
  }

  lemma VarIs(text: string, i: nat, body: string)
    requires LookingAt(text, i, "{{" + body + "}}") && '}' !in body && body != ""
    ensures i < |text| && Var(text, i) == Ok("{{" + body + "}}")
  {
    var w := "{{" + body + "}}";
    var v := "{{" + body + "}";
    Seen(text, i, w);
    assert v <= w;
    forall k | 3 <= k < |v|
      ensures !ClosesAt(v, k, "}")
    {
      assert v[k - 1..k][0] == v[k - 1] == body[k - 3];
    }
    assert v[|v| - 1..] == "}";
    ClosedIs(text, i, v, 3, "}");
    assert text[i + |v|] == w[|v|] == '}';
    assert text[i + |v|..i + |v| + 1] == "}";
    assert text[i..i + |v| + 1] == w;
  }

  lemma TripleTaken(text: string, i: nat, w: string)
    requires LookingAt(text, i, w) && "{{{" <= w
    ensures i < |text| && Classify(text, i, Handlebars) == OnTripleStache
  {
    hide LookingAt;
    Seen(text, i, w);
    assert w[0] == '{' && w[1] == '{' && w[2] == '{';
    Taken(text, i, Handlebars, OnTripleStache);
  }

  lemma {:induction false} SeekIs(text: string, e: nat, limit: int, stop: char, f: nat)
    requires e <= f <= limit <= |text| && f < |text| && text[f] == stop && forall k :: e <= k < f ==> text[k] != stop
    ensures Seek(text, e, limit, stop) == f
    decreases f - e
  {
    if e < f {
      SeekIs(text, e + 1, limit, stop, f);
    }
  }

  lemma TripleIs(text: string, i: nat, name: string)
    requires LookingAt(text, i, "{{{" + name + "}}}") && '}' !in name
    ensures i < |text| && TripleStache(text, i) == Ok("{{{" + name + "}}}")
  {
    var w := "{{{" + name + "}}}";
    Seen(text, i, w);
    var f := i + 3 + |name|;
    forall k | i + 3 <= k < f
      ensures text[k] != '}'
    {
      assert text[i + (k - i)] == w[k - i] == name[k - i - 3];
    }
    assert text[f] == w[3 + |name|];
    SeekIs(text, i + 3, |text| - 3, '}', f);
    assert text[f..f + 3] == text[i..i + |w|][3 + |name|..] == "}}}";
    assert text[i..f + 3] == w;
  }

  /** `{{{name_html}}}`; only such names may go in without being escaped. */
  lemma TripleReads(text: string, i: nat, name: string)
    requires LookingAt(text, i, "{{{" + name + "}}}") && '}' !in name
    requires EndsWith(Trim(name, PY_SPACE), "_html") && !StartsWith("{{{" + name + "}}}", "{{~{")
    ensures Reads(text, Handlebars, i, "{{{" + name + "}}}", HandlebarsTripleStache,
                  Trim(Trim(name, PY_SPACE), PY_SPACE), false)
  {
    hide PY_SPACE, Trim, EndsWith, StartsWith, LabelOf, Classify, TripleStache;
    var w := "{{{" + name + "}}}";
    assert "{{{" <= w;
    TripleTaken(text, i, w);
    TripleIs(text, i, name);
    TripleLabel(name);
    MarkupReads(text, Handlebars, i, OnTripleStache, w, Label(HandlebarsTripleStache, Trim(name, PY_SPACE), false));
  }

  lemma TripleLabel(name: string)
    requires EndsWith(Trim(name, PY_SPACE), "_html") && !StartsWith("{{{" + name + "}}}", "{{~{")
    ensures LabelOf(OnTripleStache, "{{{" + name + "}}}")
         == Ok(Label(HandlebarsTripleStache, Trim(name, PY_SPACE), false))
  {
    hide PY_SPACE, Trim, EndsWith, StartsWith, Mid;
    var w := "{{{" + name + "}}}";
    MidOf("{{{", name, "}}}");
    NoTildeAtEnd(w);
    assert LabelOf(OnTripleStache, w) == TripleStacheLabel(w);
  }

  lemma NoTildeAtEnd(w: string)
    requires |w| >= 3 && w[|w| - 3] == '}'
    ensures !EndsWith(w, "}~}}")
  {
    if |w| >= 4 {
      assert w[|w| - 4..][1] == '}';
    }
  }
}
