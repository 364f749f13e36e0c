/** The matching loop of `validate`: start tags push a matcher, end tags run the newest one. The chain of
    matcher closures is the stack here; each frame holds what its closure captured. */
module Matcher {
  import opened Text
  import opened Tokens

  datatype Frame = Frame(start: nat, tag: string, line: nat, oldForeign: bool)

  /** The loop state, and the links it has set: `startOf[k]` is the index that token `k` has as its
      start token, `endOf[k]` the one it has as its end token. */
  datatype State = State(stack: seq<Frame>, depth: int, foreign: bool, startOf: map<nat, nat>, endOf: map<nat, nat>)

  const INIT := State([], 0, false, map[], map[])
  const FOREIGN_TAGS: set<string> := {"math", "svg"}
  const ELSE_TAGS: set<string> := {"if", "else", "unless"}

  function Bare(tag: string): string {
    Trim(tag, {'~'})
  }

  function FlavorOf(t: Tok): Flavor {
    TagFlavor(t.kind, t.tag)
  }

  /** Outside math and svg, void elements close themselves and no other element does. */
  predicate SelfClosingRule(foreign: bool, t: Tok) {
    foreign || if t.tag in HTML_VOID_TAGS then t.kind != HtmlStart else t.kind != HtmlSingleton
  }

  /** `start_tag_matcher`. */
  function Push(t: Tok, k: nat, st: State): State {
    st.(depth := st.depth + 1,
        stack := st.stack + [Frame(k, Bare(t.tag), t.line, st.foreign)],
        foreign := st.foreign || Bare(t.tag) in FOREIGN_TAGS)
  }

  /** Whether the matcher made for a start tag accepts the end token `t`. */
  predicate Accepts(startTag: string, startLine: nat, t: Tok) {
    && !(startTag == "code" && t.line == startLine + 1)
    && if t.tag == "else" then startTag in ELSE_TAGS else startTag == Bare(t.tag)
  }

  /** `state.matcher(end_token)`. An else token leaves the matcher in place. */
  function RunMatcher(t: Tok, k: nat, st: State): Result<State> {
    if st.stack == [] then Raise(TemplateParser)
    else
      var top := st.stack[|st.stack| - 1];
      if !Accepts(top.tag, top.line, t) then Raise(TemplateParser)
      else
        var linked := st.(startOf := st.startOf[k := top.start], endOf := st.endOf[top.start := k]);
        Ok(if t.tag == "else" then linked
           else linked.(stack := st.stack[..|st.stack| - 1], foreign := top.oldForeign, depth := st.depth - 1))
  }

  function Step(t: Tok, k: nat, st: State): Result<State> {
    if !SelfClosingRule(st.foreign, t) then Raise(TemplateParser)
    else
      match FlavorOf(t)
      case Start => Ok(Push(t, k, st))
      case End => RunMatcher(t, k, st)
      case NoFlavor => Ok(st)
  }

  /** The loop state after the first `k` tokens. */
  function After(ts: seq<Tok>, k: nat): Result<State>
    requires k <= |ts|
  {
    if k == 0 then Ok(INIT)
    else
      match After(ts, k - 1)
      case Raise(e) => Raise(e)
      case Ok(st) => Step(ts[k - 1], k - 1, st)
  }

  /** The whole loop; a matcher left over reports a missing end tag. */
  function MatchTags(ts: seq<Tok>): Result<State> {
    match After(ts, |ts|)
    case Raise(e) => Raise(e)
    case Ok(st) => if st.depth != 0 then Raise(TemplateParser) else Ok(st)
  }

  lemma {:induction false} EarlierAfter(ts: seq<Tok>, j: nat, k: nat)
    requires j <= k <= |ts| && After(ts, k).Ok?
    ensures After(ts, j).Ok?
  {
    if j < k {
      EarlierAfter(ts, j, k - 1);
    }
  }

  lemma StopsAt(ts: seq<Tok>, k: nat)
    requires k < |ts| && !After(ts, k + 1).Ok?
    ensures !MatchTags(ts).Ok?
  {
    hide Step;
    if After(ts, |ts|).Ok? {
      EarlierAfter(ts, k + 1, |ts|);
    }
  }

  // What depth and foreign mean

  ghost predicate SomeForeign(stack: seq<Frame>) {
    exists d :: 0 <= d < |stack| && stack[d].tag in FOREIGN_TAGS
  }

  /** `depth` counts the open tags, `foreign` tells whether one of them is math or svg, and every matcher
      captured what `foreign` was outside its tag. */
  ghost predicate Faithful(st: State) {
    && st.depth == |st.stack|
    && (st.foreign <==> SomeForeign(st.stack))
    && forall d :: 0 <= d < |st.stack| ==> (st.stack[d].oldForeign <==> SomeForeign(st.stack[..d]))
  }

  lemma {:induction false} StateIsFaithful(ts: seq<Tok>, k: nat)
    requires k <= |ts| && After(ts, k).Ok?
    ensures Faithful(After(ts, k).value)
  {
    if k > 0 {
      StateIsFaithful(ts, k - 1);
      StepIsFaithful(ts[k - 1], k - 1, After(ts, k - 1).value);
    }
  }

  lemma StepIsFaithful(t: Tok, k: nat, st: State)
    requires Faithful(st) && Step(t, k, st).Ok?
    ensures Faithful(Step(t, k, st).value)
  {
    hide Bare, MayStand, SelfClosingRule, TagFlavor, Accepts;
    var next := Step(t, k, st).value;
    var n := |st.stack|;
    if FlavorOf(t) == Start {
      var frame := Frame(k, Bare(t.tag), t.line, st.foreign);
      assert next.stack[..n] == st.stack;
      assert forall d :: 0 <= d < n ==> next.stack[..d] == st.stack[..d];
      assert SomeForeign(next.stack) <==> SomeForeign(st.stack) || frame.tag in FOREIGN_TAGS by {
        assert next.stack[n] == frame;
        if SomeForeign(st.stack) {
          var d :| 0 <= d < n && st.stack[d].tag in FOREIGN_TAGS;
          assert next.stack[d].tag in FOREIGN_TAGS;
        }
      }
    } else if next.stack != st.stack {
      assert forall d :: 0 <= d < n ==> st.stack[..n - 1][..d] == st.stack[..d] || d == n - 1;
      assert next.stack[..n - 1] == next.stack;
    }
  }

  // The block grammar

  /** A run of tokens: leaves and blocks. A block is a start tag, bodies parted by else tags, and its end. */
  datatype Forest = Empty | Leaf(t: Tok, rest: Forest) | Block(start: Tok, body: Body, end: Tok, rest: Forest)
  datatype Body = Last(f: Forest) | Else(f: Forest, t: Tok, more: Body)

  function Yield(f: Forest): seq<Tok> {
    match f
    case Empty => []
    case Leaf(t, rest) => [t] + Yield(rest)
    case Block(s, b, e, rest) => [s] + BodyYield(b) + [e] + Yield(rest)
  }

  function BodyYield(b: Body): seq<Tok> {
    match b
    case Last(f) => Yield(f)
    case Else(f, t, more) => Yield(f) + [t] + BodyYield(more)
  }

  /** Inside math and svg any element may stand. Outside, void elements stand as singletons, and only they do. */
  predicate MayStand(foreign: bool, t: Tok) {
    || foreign
    || (&& (t.kind == HtmlStart ==> t.tag !in HTML_VOID_TAGS)
        && (t.kind == HtmlSingleton ==> t.tag in HTML_VOID_TAGS))
  }

  lemma MayStandByRule(foreign: bool, t: Tok)
    ensures MayStand(foreign, t) <==> SelfClosingRule(foreign, t)
  {
    hide HTML_VOID_TAGS;
  }

  predicate Grammatical(foreign: bool, f: Forest)
    decreases f
  {
    match f
    case Empty => true
    case Leaf(t, rest) =>
      FlavorOf(t) == NoFlavor && MayStand(foreign, t) && Grammatical(foreign, rest)
    case Block(s, b, e, rest) =>
      && FlavorOf(s) == Start && MayStand(foreign, s)
      && GrammaticalBody(foreign || Bare(s.tag) in FOREIGN_TAGS, Bare(s.tag) in ELSE_TAGS, b)
      && FlavorOf(e) == End && e.tag != "else" && Bare(e.tag) == Bare(s.tag)
      && !(Bare(s.tag) == "code" && e.line == s.line + 1)
      && Grammatical(foreign, rest)
  }

  predicate GrammaticalBody(foreign: bool, elseAllowed: bool, b: Body)
    decreases b
  {
    match b
    case Last(f) => Grammatical(foreign, f)
    case Else(f, t, more) =>
      && Grammatical(foreign, f)
      && FlavorOf(t) == End && t.tag == "else" && elseAllowed
      && GrammaticalBody(foreign, elseAllowed, more)
  }

  lemma StartStep(ts: seq<Tok>, k: nat)
    requires k < |ts| && After(ts, k).Ok? && FlavorOf(ts[k]) == Start
    requires SelfClosingRule(After(ts, k).value.foreign, ts[k])
    ensures After(ts, k + 1) == Ok(Push(ts[k], k, After(ts, k).value))
  {
    hide Push, SelfClosingRule, TagFlavor;
  }

  lemma EndStep(ts: seq<Tok>, k: nat)
    requires k < |ts| && After(ts, k).Ok? && FlavorOf(ts[k]) == End
    ensures After(ts, k + 1) == RunMatcher(ts[k], k, After(ts, k).value)
  {
    EndsCloseFreely(ts[k], After(ts, k).value.foreign);
    hide RunMatcher, SelfClosingRule, TagFlavor;
  }

  lemma LeafStep(ts: seq<Tok>, k: nat)
    requires k < |ts| && After(ts, k).Ok? && FlavorOf(ts[k]) == NoFlavor
    requires SelfClosingRule(After(ts, k).value.foreign, ts[k])
    ensures After(ts, k + 1) == After(ts, k)
  {
    hide Push, SelfClosingRule, TagFlavor;
  }

  /** Only start and singleton tags are under the self-closing rule. */
  lemma EndsCloseFreely(t: Tok, foreign: bool)
    requires FlavorOf(t) == End
    ensures SelfClosingRule(foreign, t)
  {
  }

  /** Two states that differ at most in the links set. */
  predicate SameControl(st: State, st': State) {
    st.stack == st'.stack && st.depth == st'.depth && st.foreign == st'.foreign
  }

  /** The loop gets from token `k` to token `m` with the same tags open. */
  ghost predicate Crosses(ts: seq<Tok>, k: nat, m: nat) {
    && k <= m <= |ts|
    && After(ts, k).Ok? && After(ts, m).Ok?
    && SameControl(After(ts, k).value, After(ts, m).value)
  }

  ghost predicate ReadsAt(ts: seq<Tok>, k: nat, part: seq<Tok>) {
    k + |part| <= |ts| && ts[k..k + |part|] == part
  }

  lemma ReadsSplit(ts: seq<Tok>, k: nat, a: seq<Tok>, b: seq<Tok>)
    requires ReadsAt(ts, k, a + b)
    ensures ReadsAt(ts, k, a) && ReadsAt(ts, k + |a|, b)
  {
    assert ts[k..k + |a|] == (a + b)[..|a|] == a;
    assert ts[k + |a|..k + |a| + |b|] == (a + b)[|a|..] == b;
  }

  lemma ReadsJoin(ts: seq<Tok>, k: nat, a: seq<Tok>, b: seq<Tok>)
    requires ReadsAt(ts, k, a) && ReadsAt(ts, k + |a|, b)
    ensures ReadsAt(ts, k, a + b)
  {
    assert ts[k..k + |a| + |b|] == ts[k..k + |a|] + ts[k + |a|..k + |a| + |b|];
  }

  lemma ReadsHead(ts: seq<Tok>, k: nat, t: Tok)
    requires ReadsAt(ts, k, [t])
    ensures k < |ts| && ts[k] == t
  {
    assert ts[k..k + 1][0] == ts[k];
  }

  /** The loop runs over a grammatical forest and ends in the control state it started from. */
  lemma {:induction false} ForestRuns(ts: seq<Tok>, k: nat, f: Forest)
    requires k <= |ts| && ReadsAt(ts, k, Yield(f)) && After(ts, k).Ok?
    requires Grammatical(After(ts, k).value.foreign, f)
    ensures Crosses(ts, k, k + |Yield(f)|)
    decreases f, 1
  {
    hide Bare, MayStand, SelfClosingRule, TagFlavor, ReadsAt, After;
    match f
    case Empty =>
    case Leaf(t, rest) =>
      ReadsSplit(ts, k, [t], Yield(rest));
      ReadsHead(ts, k, t);
      MayStandByRule(After(ts, k).value.foreign, t);
      LeafStep(ts, k);
      ForestRuns(ts, k + 1, rest);
    case Block(s, b, e, rest) =>
      ReadsSplit(ts, k, [s] + BodyYield(b) + [e], Yield(rest));
      BlockRuns(ts, k, f);
      ForestRuns(ts, k + 2 + |BodyYield(b)|, rest);
  }

  lemma {:induction false} BlockRuns(ts: seq<Tok>, k: nat, f: Forest)
    requires f.Block? && k <= |ts| && ReadsAt(ts, k, [f.start] + BodyYield(f.body) + [f.end]) && After(ts, k).Ok?
    requires Grammatical(After(ts, k).value.foreign, f)
    ensures Crosses(ts, k, k + 2 + |BodyYield(f.body)|)
    decreases f, 0
  {
    hide Bare, MayStand, TagFlavor, SelfClosingRule, ReadsAt, Yield, BodyYield, After;
    var body := BodyYield(f.body);
    var m := k + 1 + |body|;
    ReadsSplit(ts, k, [f.start] + body, [f.end]);
    ReadsSplit(ts, k, [f.start], body);
    ReadsHead(ts, k, f.start);
    ReadsHead(ts, m, f.end);
    var inner := Push(f.start, k, After(ts, k).value);
    MayStandByRule(After(ts, k).value.foreign, f.start);
    StartStep(ts, k);
    BodyRuns(ts, k + 1, f.body);
    EndStep(ts, m);
    assert inner.stack[..|inner.stack| - 1] == After(ts, k).value.stack;
  }

  lemma {:induction false} BodyRuns(ts: seq<Tok>, k: nat, b: Body)
    requires k <= |ts| && ReadsAt(ts, k, BodyYield(b)) && After(ts, k).Ok? && After(ts, k).value.stack != []
    requires var st := After(ts, k).value;
             GrammaticalBody(st.foreign, st.stack[|st.stack| - 1].tag in ELSE_TAGS, b)
    ensures Crosses(ts, k, k + |BodyYield(b)|)
    decreases b
  {
    hide Bare, MayStand, TagFlavor, SelfClosingRule, ReadsAt, Yield, After;
    match b
    case Last(f) =>
      ForestRuns(ts, k, f);
    case Else(f, t, more) =>
      ReadsSplit(ts, k, Yield(f) + [t], BodyYield(more));
      ReadsSplit(ts, k, Yield(f), [t]);
      ForestRuns(ts, k, f);
      var m := k + |Yield(f)|;
      ReadsHead(ts, m, t);
      EndStep(ts, m);
      BodyRuns(ts, m + 1, more);
  }

  // Every accepted run has a parse

  function AddLeaf(t: Tok, b: Body): Body {
    match b
    case Last(f) => Last(Leaf(t, f))
    case Else(f, e, more) => Else(Leaf(t, f), e, more)
  }

  function AddBlock(s: Tok, inner: Body, e: Tok, b: Body): Body {
    match b
    case Last(f) => Last(Block(s, inner, e, f))
    case Else(f, t, more) => Else(Block(s, inner, e, f), t, more)
  }

  lemma AddYields(t: Tok, inner: Body, e: Tok, b: Body)
    ensures BodyYield(AddLeaf(t, b)) == [t] + BodyYield(b)
    ensures BodyYield(AddBlock(t, inner, e, b)) == [t] + BodyYield(inner) + [e] + BodyYield(b)
  {
    if b.Else? {
      var rest := [b.t] + BodyYield(b.more);
      assert Yield(b.f) + [b.t] + BodyYield(b.more) == Yield(b.f) + rest;
      assert [t] + Yield(b.f) + [b.t] + BodyYield(b.more) == [t] + (Yield(b.f) + rest);
      var head := [t] + BodyYield(inner) + [e];
      assert head + Yield(b.f) + [b.t] + BodyYield(b.more) == head + (Yield(b.f) + rest);
    }
  }

  function Top(st: State): Frame
    requires st.stack != []
  {
    st.stack[|st.stack| - 1]
  }

  ghost predicate Open(ts: seq<Tok>, k: nat) {
    k <= |ts| && After(ts, k).Ok? && After(ts, k).value.stack != []
  }

  /** Token `m` ends the block that is innermost at token `k`, and `b` is what lies between. */
  ghost predicate Closes(ts: seq<Tok>, k: nat, b: Body, m: nat)
    requires Open(ts, k)
  {
    var st := After(ts, k).value;
    && k <= m < |ts| && m == k + |BodyYield(b)| && ReadsAt(ts, k, BodyYield(b))
    && GrammaticalBody(st.foreign, Top(st).tag in ELSE_TAGS, b)
    && FlavorOf(ts[m]) == End && ts[m].tag != "else" && Accepts(Top(st).tag, Top(st).line, ts[m])
    && After(ts, m + 1).Ok?
    && After(ts, m + 1).value.stack == st.stack[..|st.stack| - 1]
    && After(ts, m + 1).value.foreign == Top(st).oldForeign
  }

  ghost predicate Accepted(ts: seq<Tok>) {
    After(ts, |ts|).Ok? && After(ts, |ts|).value.stack == []
  }

  lemma {:induction false} Derive(ts: seq<Tok>, k: nat) returns (b: Body, m: nat)
    requires Accepted(ts) && Open(ts, k)
    ensures Closes(ts, k, b, m)
    decreases |ts| - k
  {
    hide Bare, MayStand, TagFlavor, SelfClosingRule, BodyYield, After, ReadsAt, Accepts;
    var t := ts[k];
    EarlierAfter(ts, k + 1, |ts|);
    AllowedStep(ts, k);
    match FlavorOf(t)
    case NoFlavor =>
      LeafStep(ts, k);
      b, m := Derive(ts, k + 1);
      DeriveLeaf(ts, k, b, m);
      b := AddLeaf(t, b);
    case Start =>
      StartStep(ts, k);
      var inner, i := Derive(ts, k + 1);
      assert (After(ts, k).value.stack + [Top(After(ts, k + 1).value)])[..|After(ts, k).value.stack|]
          == After(ts, k).value.stack;
      b, m := Derive(ts, i + 1);
      DeriveBlock(ts, k, inner, i, b, m);
      b := AddBlock(t, inner, ts[i], b);
    case End =>
      EndStep(ts, k);
      if t.tag == "else" {
        ElseIsAllowed(Top(After(ts, k).value), t);
        b, m := Derive(ts, k + 1);
        DeriveElse(ts, k, b, m);
        b := Else(Empty, t, b);
      } else {
        b, m := Last(Empty), k;
        ReadsNone(ts, k);
      }
  }

  lemma ElseIsAllowed(top: Frame, t: Tok)
    requires Accepts(top.tag, top.line, t) && t.tag == "else"
    ensures top.tag in ELSE_TAGS
  {
  }

  lemma AllowedStep(ts: seq<Tok>, k: nat)
    requires k < |ts| && After(ts, k + 1).Ok?
    ensures After(ts, k).Ok? && SelfClosingRule(After(ts, k).value.foreign, ts[k])
  {
    hide SelfClosingRule, RunMatcher, Push, TagFlavor;
  }

  lemma ReadsNone(ts: seq<Tok>, k: nat)
    requires k <= |ts|
    ensures ReadsAt(ts, k, BodyYield(Last(Empty))) && BodyYield(Last(Empty)) == []
  {
  }

  lemma ReadsCons(ts: seq<Tok>, k: nat, part: seq<Tok>)
    requires k < |ts| && ReadsAt(ts, k + 1, part)
    ensures ReadsAt(ts, k, [ts[k]] + part)
  {
    ReadsJoin(ts, k, [ts[k]], part);
  }

  lemma DeriveLeaf(ts: seq<Tok>, k: nat, b: Body, m: nat)
    requires Open(ts, k) && k < |ts| && Open(ts, k + 1) && Closes(ts, k + 1, b, m)
    requires After(ts, k + 1) == After(ts, k)
    requires FlavorOf(ts[k]) == NoFlavor && SelfClosingRule(After(ts, k).value.foreign, ts[k])
    ensures Closes(ts, k, AddLeaf(ts[k], b), m)
  {
    hide Bare, MayStand, TagFlavor, SelfClosingRule, BodyYield, After, ReadsAt, Accepts;
    AddYields(ts[k], b, ts[k], b);
    ReadsCons(ts, k, BodyYield(b));
    var st := After(ts, k).value;
    MayStandByRule(st.foreign, ts[k]);
    assert GrammaticalBody(st.foreign, Top(st).tag in ELSE_TAGS, AddLeaf(ts[k], b));
  }

  lemma DeriveElse(ts: seq<Tok>, k: nat, b: Body, m: nat)
    requires Open(ts, k) && k < |ts| && Open(ts, k + 1) && Closes(ts, k + 1, b, m)
    requires SameControl(After(ts, k).value, After(ts, k + 1).value)
    requires FlavorOf(ts[k]) == End && ts[k].tag == "else" && Top(After(ts, k).value).tag in ELSE_TAGS
    ensures Closes(ts, k, Else(Empty, ts[k], b), m)
  {
    hide Bare, MayStand, TagFlavor, SelfClosingRule, After, ReadsAt, Accepts;
    ReadsCons(ts, k, BodyYield(b));
    assert BodyYield(Else(Empty, ts[k], b)) == [ts[k]] + BodyYield(b);
    var st := After(ts, k).value;
    assert GrammaticalBody(st.foreign, Top(st).tag in ELSE_TAGS, Else(Empty, ts[k], b));
  }

  /** Token `k` is a start tag, allowed where it stands, that the loop has just opened. */
  ghost predicate Opens(ts: seq<Tok>, k: nat) {
    && k < |ts| && Open(ts, k)
    && FlavorOf(ts[k]) == Start && SelfClosingRule(After(ts, k).value.foreign, ts[k])
    && After(ts, k + 1) == Ok(Push(ts[k], k, After(ts, k).value))
  }

  ghost predicate SameOpen(ts: seq<Tok>, k: nat, m: nat) {
    && Open(ts, k) && Open(ts, m)
    && After(ts, m).value.stack == After(ts, k).value.stack
    && After(ts, m).value.foreign == After(ts, k).value.foreign
  }

  /** The block that opened at `k` closes at `i`, with `inner` in between. */
  ghost predicate ClosesBlock(ts: seq<Tok>, k: nat, inner: Body, i: nat) {
    Opens(ts, k) && Open(ts, k + 1) && Closes(ts, k + 1, inner, i) && i < |ts| && SameOpen(ts, k, i + 1)
  }

  ghost predicate ClosesLater(ts: seq<Tok>, i: nat, b: Body, m: nat) {
    Open(ts, i) && Closes(ts, i, b, m)
  }

  lemma DeriveBlock(ts: seq<Tok>, k: nat, inner: Body, i: nat, b: Body, m: nat)
    requires ClosesBlock(ts, k, inner, i) && ClosesLater(ts, i + 1, b, m)
    ensures Closes(ts, k, AddBlock(ts[k], inner, ts[i], b), m)
  {
    hide Bare, MayStand, TagFlavor, SelfClosingRule, BodyYield, After, ReadsAt, Accepts, Push, GrammaticalBody, AddBlock;
    BlockReads(ts, k, inner, i, b);
    BlockIsGrammatical(After(ts, k).value, ts[k], k, inner, ts[i], b);
  }

  lemma BlockReads(ts: seq<Tok>, k: nat, inner: Body, i: nat, b: Body)
    requires k < i < |ts| && i == k + 1 + |BodyYield(inner)|
    requires ReadsAt(ts, k + 1, BodyYield(inner)) && ReadsAt(ts, i + 1, BodyYield(b))
    ensures ReadsAt(ts, k, BodyYield(AddBlock(ts[k], inner, ts[i], b)))
    ensures |BodyYield(AddBlock(ts[k], inner, ts[i], b))| == i + 1 - k + |BodyYield(b)|
  {
    hide ReadsAt, BodyYield;
    AddYields(ts[k], inner, ts[i], b);
    ReadsCons(ts, k, BodyYield(inner));
    ReadsOne(ts, i);
    ReadsJoin(ts, k, [ts[k]] + BodyYield(inner), [ts[i]]);
    ReadsJoin(ts, k, [ts[k]] + BodyYield(inner) + [ts[i]], BodyYield(b));
  }

  lemma BlockIsGrammatical(st: State, s: Tok, k: nat, inner: Body, e: Tok, b: Body)
    requires st.stack != [] && FlavorOf(s) == Start && SelfClosingRule(st.foreign, s)
    requires var pushed := Push(s, k, st);
             && GrammaticalBody(pushed.foreign, Top(pushed).tag in ELSE_TAGS, inner)
             && Accepts(Top(pushed).tag, Top(pushed).line, e)
    requires FlavorOf(e) == End && e.tag != "else"
    requires GrammaticalBody(st.foreign, Top(st).tag in ELSE_TAGS, b)
    ensures GrammaticalBody(st.foreign, Top(st).tag in ELSE_TAGS, AddBlock(s, inner, e, b))
  {
    hide Bare, MayStand, TagFlavor, SelfClosingRule;
    MayStandByRule(st.foreign, s);
  }

  lemma ReadsOne(ts: seq<Tok>, i: nat)
    requires i < |ts|
    ensures ReadsAt(ts, i, [ts[i]])
  {
  }

  /** With no tag open, the rest of an accepted list is a grammatical forest. */
  lemma {:induction false} DeriveForest(ts: seq<Tok>, k: nat) returns (f: Forest)
    requires Accepted(ts) && k <= |ts| && After(ts, k).Ok? && After(ts, k).value.stack == []
    ensures Yield(f) == ts[k..] && Grammatical(After(ts, k).value.foreign, f)
    decreases |ts| - k
  {
    hide Bare, MayStand, TagFlavor, SelfClosingRule, After, BodyYield, ReadsAt;
    if k == |ts| {
      return Empty;
    }
    EarlierAfter(ts, k + 1, |ts|);
    AllowedStep(ts, k);
    MayStandByRule(After(ts, k).value.foreign, ts[k]);
    if FlavorOf(ts[k]) == Start {
      StartStep(ts, k);
      var inner, i := Derive(ts, k + 1);
      var rest := DeriveForest(ts, i + 1);
      f := Block(ts[k], inner, ts[i], rest);
      ReadsCons(ts, k, BodyYield(inner));
      ForestYield(ts, k, inner, i, rest);
    } else if FlavorOf(ts[k]) == NoFlavor {
      LeafStep(ts, k);
      var rest := DeriveForest(ts, k + 1);
      f := Leaf(ts[k], rest);
    } else {
      EndStep(ts, k);
    }
  }

  lemma ForestYield(ts: seq<Tok>, k: nat, inner: Body, i: nat, rest: Forest)
    requires k < i < |ts| && i == k + 1 + |BodyYield(inner)| && ReadsAt(ts, k, [ts[k]] + BodyYield(inner))
    requires Yield(rest) == ts[i + 1..]
    ensures Yield(Block(ts[k], inner, ts[i], rest)) == ts[k..]
  {
    assert ts[k..] == ts[k..i] + [ts[i]] + ts[i + 1..];
  }

  /** The matching loop accepts exactly the token lists of the block grammar. */
  lemma MatcherIsGrammar(ts: seq<Tok>)
    ensures MatchTags(ts).Ok? <==> exists f :: Yield(f) == ts && Grammatical(false, f)
  {
    hide Grammatical, Yield;
    if MatchTags(ts).Ok? {
      StateIsFaithful(ts, |ts|);
      var f := DeriveForest(ts, 0);
      assert ts[0..] == ts;
    }
    forall f | Yield(f) == ts && Grammatical(false, f)
      ensures MatchTags(ts).Ok?
    {
      assert ts[0..|ts|] == ts;
      ForestRuns(ts, 0, f);
      StateIsFaithful(ts, |ts|);
    }
  }

  // The links between start and end tokens

  predicate IsStart(ts: seq<Tok>, k: nat) {
    k < |ts| && FlavorOf(ts[k]) == Start
  }

  predicate IsEnd(ts: seq<Tok>, k: nat) {
    k < |ts| && FlavorOf(ts[k]) == End
  }

  predicate IsElse(ts: seq<Tok>, k: nat) {
    IsEnd(ts, k) && ts[k].tag == "else"
  }

  /** Token `j` is a start tag whose end tag, and not merely an else, has been met. */
  predicate Closed(ts: seq<Tok>, st: State, j: nat) {
    j in st.endOf && !IsElse(ts, st.endOf[j])
  }

  ghost predicate OnStack(st: State, j: nat) {
    exists d :: 0 <= d < |st.stack| && st.stack[d].start == j
  }

  predicate GoodFrame(ts: seq<Tok>, k: nat, f: Frame) {
    f.start < k && IsStart(ts, f.start) && f.tag == Bare(ts[f.start].tag) && f.line == ts[f.start].line
  }

  /** The open tags are start tags met so far, each with what its matcher captured, oldest first. */
  ghost predicate GoodFrames(ts: seq<Tok>, k: nat, st: State) {
    && (forall d :: 0 <= d < |st.stack| ==> GoodFrame(ts, k, st.stack[d]))
    && (forall d, e :: 0 <= d < e < |st.stack| ==> st.stack[d].start < st.stack[e].start)
  }

  ghost predicate OpenOrClosed(ts: seq<Tok>, k: nat, st: State) {
    forall j: nat :: j < k && IsStart(ts, j) ==> (OnStack(st, j) <==> !Closed(ts, st, j))
  }

  ghost predicate GoodStack(ts: seq<Tok>, k: nat, st: State) {
    GoodFrames(ts, k, st) && OpenOrClosed(ts, k, st)
  }

  /** The matcher's verdict on a start token and an end token, as a relation between the two. */
  predicate Fits(s: Tok, e: Tok) {
    Accepts(Bare(s.tag), s.line, e)
  }

  /** Links run between the start and end tags met so far, and an end tag is its start's last link. */
  ghost predicate GoodLinks(ts: seq<Tok>, k: nat, st: State) {
    (forall e: nat :: e in st.startOf <==> e < k && IsEnd(ts, e)) && SoundLinks(ts, st.startOf, st.endOf)
  }

  ghost predicate SoundLinks(ts: seq<Tok>, startOf: map<nat, nat>, endOf: map<nat, nat>) {
    && (forall e :: e in startOf ==> e < |ts|)
    && (forall e :: e in startOf ==>
          var a := startOf[e];
          && a < e && IsStart(ts, a) && Fits(ts[a], ts[e])
          && a in endOf && e <= endOf[a]
          && (!IsElse(ts, e) ==> endOf[a] == e))
    && (forall a :: a in endOf ==> endOf[a] in startOf && startOf[endOf[a]] == a)
  }

  /** Whatever starts between a start tag and one of its links has ended before that link. */
  ghost predicate Nested(ts: seq<Tok>, startOf: map<nat, nat>, endOf: map<nat, nat>) {
    forall e: nat, c: nat :: e in startOf && startOf[e] < c < e && IsStart(ts, c) ==>
      c in endOf && !IsElse(ts, endOf[c]) && endOf[c] < e
  }

  ghost predicate WellLinked(ts: seq<Tok>, k: nat, st: State) {
    GoodStack(ts, k, st) && GoodLinks(ts, k, st) && Nested(ts, st.startOf, st.endOf)
  }

  lemma PushFrames(ts: seq<Tok>, k: nat, st: State)
    requires GoodFrames(ts, k, st) && IsStart(ts, k)
    ensures GoodFrames(ts, k + 1, Push(ts[k], k, st))
  {
    hide Bare, IsStart;
  }

  lemma PushOpens(ts: seq<Tok>, k: nat, st: State)
    requires OpenOrClosed(ts, k, st) && GoodLinks(ts, k, st) && IsStart(ts, k)
    ensures OpenOrClosed(ts, k + 1, Push(ts[k], k, st))
  {
    hide Bare, TagFlavor, Fits;
    var next := Push(ts[k], k, st);
    var n := |st.stack|;
    assert next.stack[n].start == k;
    forall j: nat | j <= k && IsStart(ts, j)
      ensures OnStack(next, j) <==> !Closed(ts, next, j)
    {
      if j < k && OnStack(st, j) {
        var d :| 0 <= d < n && st.stack[d].start == j;
        assert next.stack[d].start == j;
      }
    }
  }

  lemma PushIsLinked(ts: seq<Tok>, k: nat, st: State)
    requires WellLinked(ts, k, st) && IsStart(ts, k)
    ensures WellLinked(ts, k + 1, Push(ts[k], k, st))
  {
    hide GoodFrames, OpenOrClosed, GoodLinks, Nested, Fits, Bare, TagFlavor;
    PushFrames(ts, k, st);
    PushOpens(ts, k, st);
    PushLinks(ts, k, st, Push(ts[k], k, st));
  }

  /** A start tag links nothing yet. */
  lemma PushLinks(ts: seq<Tok>, k: nat, st: State, next: State)
    requires GoodLinks(ts, k, st) && IsStart(ts, k)
    requires next.startOf == st.startOf && next.endOf == st.endOf
    ensures GoodLinks(ts, k + 1, next)
  {
    hide Fits, Bare, TagFlavor, SoundLinks;
  }

  lemma TopIsNewest(ts: seq<Tok>, k: nat, st: State, c: nat)
    requires GoodStack(ts, k, st) && st.stack != [] && Top(st).start < c < k && IsStart(ts, c)
    ensures Closed(ts, st, c)
  {
    hide IsStart, GoodFrame, Closed;
  }

  lemma RanMatcher(t: Tok, k: nat, st: State)
    requires RunMatcher(t, k, st).Ok?
    ensures st.stack != []
  {
  }

  /** What the matcher does to the links. */
  lemma MatcherSets(t: Tok, k: nat, st: State)
    requires st.stack != [] && RunMatcher(t, k, st).Ok?
    ensures var next := RunMatcher(t, k, st).value;
            && next.startOf == st.startOf[k := Top(st).start] && next.endOf == st.endOf[Top(st).start := k]
            && (next.stack == st.stack || next.stack == st.stack[..|st.stack| - 1])
  {
    hide Accepts;
  }

  /** Linking the newest open tag keeps the blocks apart. */
  lemma LinkNests(ts: seq<Tok>, k: nat, st: State, next: State, a: nat)
    requires Nested(ts, st.startOf, st.endOf) && !Closed(ts, st, a)
    requires forall e :: e in st.startOf ==> e < k
    requires forall j :: j in st.endOf ==> st.endOf[j] < k
    requires forall c: nat :: a < c < k && IsStart(ts, c) ==> Closed(ts, st, c)
    requires next.startOf == st.startOf[k := a] && next.endOf == st.endOf[a := k]
    ensures Nested(ts, next.startOf, next.endOf)
  {
    hide IsStart, IsElse;
  }

  lemma MatcherNests(ts: seq<Tok>, k: nat, st: State)
    requires WellLinked(ts, k, st) && IsEnd(ts, k) && RunMatcher(ts[k], k, st).Ok? && st.stack != []
    ensures var next := RunMatcher(ts[k], k, st).value; Nested(ts, next.startOf, next.endOf)
  {
    hide RunMatcher, FlavorOf, GoodStack, GoodLinks, Nested, IsStart, Closed;
    var a := Top(st).start;
    TopIsOpen(ts, k, st);
    MatcherSets(ts[k], k, st);
    LinkedBefore(ts, k, st);
    forall c: nat | a < c < k && IsStart(ts, c)
      ensures Closed(ts, st, c)
    {
      TopIsNewest(ts, k, st, c);
    }
    LinkNests(ts, k, st, RunMatcher(ts[k], k, st).value, a);
  }

  lemma LinkedBefore(ts: seq<Tok>, k: nat, st: State)
    requires GoodLinks(ts, k, st)
    ensures forall e: nat :: e in st.startOf ==> e < k
    ensures forall a :: a in st.endOf ==> st.endOf[a] < k
  {
    hide Fits, IsStart, IsElse;
  }

  lemma TopIsOpen(ts: seq<Tok>, k: nat, st: State)
    requires GoodStack(ts, k, st) && st.stack != []
    ensures IsStart(ts, Top(st).start) && Top(st).start < k && !Closed(ts, st, Top(st).start)
  {
    hide IsStart, Closed, Bare;
    assert GoodFrame(ts, k, Top(st));
    assert OnStack(st, Top(st).start);
  }

  lemma MatcherLinks(ts: seq<Tok>, k: nat, st: State)
    requires WellLinked(ts, k, st) && IsEnd(ts, k) && RunMatcher(ts[k], k, st).Ok?
    ensures GoodLinks(ts, k + 1, RunMatcher(ts[k], k, st).value)
  {
    hide Bare, TagFlavor;
    TopIsOpen(ts, k, st);
    assert GoodFrame(ts, k, Top(st));
    assert Fits(ts[Top(st).start], ts[k]);
    LinkTop(ts, k, st, Top(st).start);
  }

  lemma LinkTop(ts: seq<Tok>, k: nat, st: State, a: nat)
    requires GoodLinks(ts, k, st) && IsEnd(ts, k) && a < k && IsStart(ts, a) && !Closed(ts, st, a)
    requires Fits(ts[a], ts[k])
    ensures GoodLinks(ts, k + 1, st.(startOf := st.startOf[k := a], endOf := st.endOf[a := k]))
  {
    hide Bare, TagFlavor, Fits;
  }

  /** Popping the newest open tag `a` takes it, and nothing else, off the stack. */
  lemma PopStack(ts: seq<Tok>, k: nat, st: State, next: State, j: nat)
    requires GoodFrames(ts, k, st) && st.stack != [] && next.stack == st.stack[..|st.stack| - 1]
    ensures OnStack(next, j) <==> OnStack(st, j) && j != Top(st).start
  {
    hide GoodFrame;
    if OnStack(st, j) && j != Top(st).start {
      var d :| 0 <= d < |st.stack| && st.stack[d].start == j;
      assert next.stack[d].start == j;
    }
    if OnStack(next, j) {
      var d :| 0 <= d < |next.stack| && next.stack[d].start == j;
      assert st.stack[d].start == j;
    }
  }

  lemma MatcherOpens(ts: seq<Tok>, k: nat, st: State)
    requires GoodStack(ts, k, st) && GoodLinks(ts, k, st) && IsEnd(ts, k) && RunMatcher(ts[k], k, st).Ok?
    ensures OpenOrClosed(ts, k + 1, RunMatcher(ts[k], k, st).value)
  {
    hide Bare, TagFlavor, Accepts, Fits, GoodFrames, OnStack;
    var next := RunMatcher(ts[k], k, st).value;
    TopIsOpen(ts, k, st);
    var a := Top(st).start;
    assert OnStack(st, a);
    forall j: nat | j <= k && IsStart(ts, j)
      ensures OnStack(next, j) <==> !Closed(ts, next, j)
    {
      assert j < k;
      assert j != a ==> (Closed(ts, next, j) <==> Closed(ts, st, j));
      if IsElse(ts, k) {
        OnStackSame(st, next, j);
      } else {
        PopStack(ts, k, st, next, j);
      }
    }
  }

  lemma OnStackSame(st: State, next: State, j: nat)
    requires st.stack == next.stack
    ensures OnStack(st, j) <==> OnStack(next, j)
  {
  }

  lemma FramesShrink(ts: seq<Tok>, k: nat, st: State, next: State)
    requires GoodFrames(ts, k, st) && st.stack != []
    requires next.stack == st.stack || next.stack == st.stack[..|st.stack| - 1]
    ensures GoodFrames(ts, k + 1, next)
  {
    hide Bare, IsStart;
  }

  lemma MatcherStack(ts: seq<Tok>, k: nat, st: State)
    requires WellLinked(ts, k, st) && IsEnd(ts, k) && RunMatcher(ts[k], k, st).Ok?
    ensures GoodStack(ts, k + 1, RunMatcher(ts[k], k, st).value)
  {
    RanMatcher(ts[k], k, st);
    MatcherSets(ts[k], k, st);
    MatcherOpens(ts, k, st);
    hide RunMatcher, IsEnd, OpenOrClosed, GoodLinks, Nested, GoodFrames;
    FramesShrink(ts, k, st, RunMatcher(ts[k], k, st).value);
  }

  lemma {:induction false} StateIsLinked(ts: seq<Tok>, k: nat)
    requires k <= |ts| && After(ts, k).Ok?
    ensures WellLinked(ts, k, After(ts, k).value)
  {
    hide WellLinked, After, SelfClosingRule;
    if k == 0 {
      InitIsLinked(ts);
    } else {
      AllowedStep(ts, k - 1);
      StateIsLinked(ts, k - 1);
      LinkedStep(ts, k - 1);
    }
  }

  lemma InitIsLinked(ts: seq<Tok>)
    ensures After(ts, 0) == Ok(INIT) && WellLinked(ts, 0, INIT)
  {
    hide Bare, TagFlavor, Fits;
  }

  lemma LinkedStep(ts: seq<Tok>, k: nat)
    requires k < |ts| && After(ts, k).Ok? && WellLinked(ts, k, After(ts, k).value)
    requires After(ts, k + 1).Ok?
    ensures WellLinked(ts, k + 1, After(ts, k + 1).value)
  {
    hide WellLinked, Bare, SelfClosingRule, TagFlavor, RunMatcher, Push, After;
    AllowedStep(ts, k);
    var st := After(ts, k).value;
    if FlavorOf(ts[k]) == Start {
      StartStep(ts, k);
      PushIsLinked(ts, k, st);
    } else if FlavorOf(ts[k]) == End {
      EndStep(ts, k);
      MatcherLinks(ts, k, st);
      RanMatcher(ts[k], k, st);
      MatcherNests(ts, k, st);
      MatcherStack(ts, k, st);
      Gather(ts, k + 1, RunMatcher(ts[k], k, st).value);
    } else {
      LeafStep(ts, k);
      LeafIsLinked(ts, k, st);
    }
  }

  lemma Gather(ts: seq<Tok>, k: nat, st: State)
    requires GoodStack(ts, k, st) && GoodLinks(ts, k, st) && Nested(ts, st.startOf, st.endOf)
    ensures WellLinked(ts, k, st)
  {
  }

  lemma LeafIsLinked(ts: seq<Tok>, k: nat, st: State)
    requires WellLinked(ts, k, st) && k < |ts| && FlavorOf(ts[k]) == NoFlavor
    ensures WellLinked(ts, k + 1, st)
  {
    hide Bare, TagFlavor, Fits;
  }

  /** In an accepted list the links are mutual and never cross: every start tag has an end tag that fits
      and points back; every end tag is some start's end, and every else lies between its start and that
      start's end; and whatever starts between a start and one of its links ends before that link. */
  lemma LinksAreMutualAndNested(ts: seq<Tok>)
    requires MatchTags(ts).Ok?
    ensures var st := MatchTags(ts).value;
            && (forall a: nat :: a in st.endOf <==> IsStart(ts, a))
            && (forall e: nat :: e in st.startOf <==> IsEnd(ts, e))
            && (forall a: nat :: IsStart(ts, a) ==>
                  var e := st.endOf[a];
                  a < e && IsEnd(ts, e) && !IsElse(ts, e) && Fits(ts[a], ts[e]) && st.startOf[e] == a)
            && (forall e: nat :: IsEnd(ts, e) ==>
                  var a := st.startOf[e];
                  IsStart(ts, a) && if IsElse(ts, e) then a < e < st.endOf[a] else st.endOf[a] == e)
            && (forall e: nat, c: nat :: IsEnd(ts, e) && st.startOf[e] < c < e && IsStart(ts, c) ==> st.endOf[c] < e)
  {
    hide Bare, TagFlavor, Fits, Step, SelfClosingRule;
    StateIsFaithful(ts, |ts|);
    StateIsLinked(ts, |ts|);
    var st := MatchTags(ts).value;
    forall a: nat | IsStart(ts, a)
      ensures Closed(ts, st, a)
    {
      assert !OnStack(st, a);
    }
  }
}
