/** Remote issues, pull requests and runs as local rows: the last writer by `updated_at` wins. */
module GithubItems {
  import opened Text

  /** A text field of a payload; `Null` is an explicit null. */
  datatype Field = Missing | Null | Str(s: string)

  /** The account object of a payload; a missing, null or empty one is `Nobody`. */
  datatype Account = Nobody | Account(login: Field, bot: bool)

  /** `updated_at`: a time, text that is no time, or something that makes parsing raise. */
  datatype Stamp = At(time: int) | Unreadable | Broken

  /** The `head` object: absent, null, or with its `ref`. */
  datatype Head = NoHead | NullHead | Head(ref: Field)

  datatype Key = Key(repository: nat, kind: string, id: nat)

  datatype Payload = Payload(
    updatedAt: Stamp, number: Option<int>,
    title: Field, displayTitle: Field, name: Field, url: Field,
    user: Account, actor: Account, assignees: seq<string>, reviewers: seq<string>,
    status: Field, state: Field, merged: bool, conclusion: Field, headBranch: Field, head: Head)

  datatype Item = Item(
    updatedAt: int, number: Option<int>, title: string, url: string,
    author: string, isBot: bool, isDependabot: bool, assignees: seq<string>, reviewers: seq<string>,
    state: string, conclusion: string, branch: string)

  type Store = map<Key, Item>

  /** What one call leaves; an exception rolls it back. */
  datatype Result = Saved(store: Store) | Raised

  /** `data.get(name)` in a condition. */
  predicate Truthy(f: Field) {
    f.Str? && f.s != ""
  }

  /** `data.get(name, "")` where text is needed. */
  function Read(f: Field): Option<string> {
    match f
    case Missing => Some("")
    case Null => None
    case Str(s) => Some(s)
  }

  function OrEmpty(f: Field): string {
    if f.Str? then f.s else ""
  }

  function Lower(s: string): (r: string)
    ensures |r| == |s|
  {
    seq(|s|, k requires 0 <= k < |s| => if 'A' <= s[k] <= 'Z' then s[k] - 'A' + 'a' else s[k])
  }

  function LowerAll(logins: seq<string>): seq<string> {
    seq(|logins|, k requires 0 <= k < |logins| => Lower(logins[k]))
  }

  function Cut(s: string, n: nat): string {
    if |s| <= n then s else s[..n]
  }

  function TitleOf(p: Payload): Option<string> {
    if Truthy(p.title) then Some(p.title.s)
    else if Truthy(p.displayTitle) then Some(p.displayTitle.s)
    else Read(p.name)
  }

  function AuthorOf(p: Payload): Account {
    if p.user.Account? then p.user else p.actor
  }

  function LoginOf(p: Payload): Option<string> {
    if AuthorOf(p).Account? then Read(AuthorOf(p).login) else Some("")
  }

  /** `data.get("status") or data.get("state", "")`, and what a merge makes of it. A null would not be stored. */
  function StateOf(p: Payload, kind: string): Option<string> {
    if kind == "pull_request" && p.merged then Some("merged")
    else if Truthy(p.status) then Some(p.status.s)
    else Read(p.state)
  }

  function BranchOf(p: Payload): Option<string> {
    if Truthy(p.headBranch) then Some(p.headBranch.s)
    else
      match p.head
      case NoHead => Some("")
      case NullHead => None
      case Head(ref) => Read(ref)
  }

  /** The row a payload stands for; none where building it raises. */
  function Project(p: Payload, kind: string, updatedAt: int): Option<Item> {
    var title, login, url, state, branch := TitleOf(p), LoginOf(p), Read(p.url), StateOf(p, kind), BranchOf(p);
    if title.None? || login.None? || url.None? || state.None? || branch.None? then None
    else
      Some(Item(updatedAt, p.number, Cut(title.value, 500), url.value, login.value,
                (AuthorOf(p).Account? && AuthorOf(p).bot) || EndsWith(login.value, "[bot]"),
                login.value in {"dependabot[bot]", "dependabot"},
                LowerAll(p.assignees), LowerAll(p.reviewers),
                state.value, OrEmpty(p.conclusion), branch.value))
  }

  predicate HasUpper(s: string) {
    exists k :: 0 <= k < |s| && 'A' <= s[k] <= 'Z'
  }

  /** What a row says: merged exactly for a merged pull request, or where the payload itself says so; a title
      that fits its column; logins in lower case; and every Dependabot app a bot. */
  lemma RowMeaning(p: Payload, kind: string, updatedAt: int)
    requires Project(p, kind, updatedAt).Some?
    ensures var row := Project(p, kind, updatedAt).value;
            && row.updatedAt == updatedAt && |row.title| <= 500
            && (row.state == "merged" <==> (kind == "pull_request" && p.merged)
                                           || (if Truthy(p.status) then p.status.s else OrEmpty(p.state)) == "merged")
            && (forall k :: 0 <= k < |row.assignees| ==> !HasUpper(row.assignees[k]))
            && (forall k :: 0 <= k < |row.reviewers| ==> !HasUpper(row.reviewers[k]))
            && (row.isDependabot && !row.isBot ==> row.author == "dependabot")
  {
    forall s: string
      ensures !HasUpper(Lower(s))
    {
    }
    BotSuffix();
  }

  /** The field holds this text, and some. */
  predicate Says(f: Field, s: string) {
    f == Str(s) && s != ""
  }

  predicate SaysNothing(f: Field) {
    f == Missing || f == Null || f == Str("")
  }

  /** The title is the payload's title, or else its display title, or else its name; a short one is stored as it is, of
      a long one the first 500 characters. */
  lemma TitleIsStored(p: Payload, kind: string, updatedAt: int, title: string)
    requires Project(p, kind, updatedAt).Some?
    requires
      || Says(p.title, title)
      || (SaysNothing(p.title) && Says(p.displayTitle, title))
      || (SaysNothing(p.title) && SaysNothing(p.displayTitle) && p.name == Str(title))
    ensures var stored := Project(p, kind, updatedAt).value.title;
            && (|title| <= 500 ==> stored == title)
            && (|title| > 500 ==> |stored| == 500 && stored == title[..500])
  {
  }

  /** Who made it: the user, or the actor where there is no user. A login in the brackets of an app, or an account that
      says so, is a bot's. */
  lemma AuthorIsStored(p: Payload, kind: string, updatedAt: int, login: string, bot: bool)
    requires Project(p, kind, updatedAt).Some?
    requires p.user == Account(Str(login), bot) || (p.user == Nobody && p.actor == Account(Str(login), bot))
    ensures var row := Project(p, kind, updatedAt).value;
            && row.author == login
            && (row.isBot <==> bot || (|login| >= 5 && login[|login| - 5..] == "[bot]"))
            && (row.isDependabot <==> login == "dependabot" || login == "dependabot[bot]")
  {
  }

  /** The other fields are those of the payload. A status comes before a state and a branch of its own before that of
      the head; a pull request that was merged is "merged". */
  lemma FieldsAreStored(p: Payload, kind: string, updatedAt: int)
    requires Project(p, kind, updatedAt).Some?
    ensures var row := Project(p, kind, updatedAt).value;
            && row.number == p.number
            && (p.url == Str(row.url) || (p.url == Missing && row.url == ""))
            && (kind == "pull_request" && p.merged ==> row.state == "merged")
            && (!(kind == "pull_request" && p.merged) ==>
                  || Says(p.status, row.state)
                  || (SaysNothing(p.status) && (p.state == Str(row.state) || (p.state == Missing && row.state == ""))))
            && (Says(p.conclusion, row.conclusion) || (SaysNothing(p.conclusion) && row.conclusion == ""))
            && (|| Says(p.headBranch, row.branch)
                || (SaysNothing(p.headBranch)
                    && (|| p.head == Head(Str(row.branch))
                        || (p.head in {NoHead, Head(Missing)} && row.branch == ""))))
            && SameLogins(row.assignees, p.assignees) && SameLogins(row.reviewers, p.reviewers)
  {
  }

  /** The same logins in the same order, in lower case. */
  predicate SameLogins(stored: seq<string>, logins: seq<string>) {
    && |stored| == |logins|
    && forall k :: 0 <= k < |stored| ==>
         && |stored[k]| == |logins[k]|
         && forall i :: 0 <= i < |stored[k]| ==>
              stored[k][i] == if 'A' <= logins[k][i] <= 'Z' then logins[k][i] + ' ' else logins[k][i]
  }

  /** No row is made exactly where a field that must be text is null: the name that is the only title left, the login of
      the author, the address, the state that is the only one left, and the branch that is. */
  lemma RaisesExactly(p: Payload, kind: string, updatedAt: int)
    ensures Project(p, kind, updatedAt).None? <==>
              || (SaysNothing(p.title) && SaysNothing(p.displayTitle) && p.name == Null)
              || (p.user.Account? && p.user.login == Null)
              || (p.user == Nobody && p.actor.Account? && p.actor.login == Null)
              || p.url == Null
              || (!(kind == "pull_request" && p.merged) && SaysNothing(p.status) && p.state == Null)
              || (SaysNothing(p.headBranch) && p.head in {NullHead, Head(Null)})
  {
  }

  lemma BotSuffix()
    ensures EndsWith("dependabot[bot]", "[bot]")
  {
  }

  /** `save_item` at time `now`. */
  function Saving(store: Store, key: Key, p: Payload, now: int): Result {
    if p.updatedAt.Broken? then Raised
    else
      var updatedAt := if p.updatedAt.At? then p.updatedAt.time else now;
      if key in store && store[key].updatedAt > updatedAt then Saved(store)
      else
        var item := Project(p, key.kind, updatedAt);
        if item.None? then Raised else Saved(store[key := item.value])
  }

  class Items {
    var rows: Store

    constructor ()
      ensures rows == map[]
    {
      rows := map[];
    }

    method SaveItem(key: Key, p: Payload, now: int) returns (raised: bool)
      modifies this
      ensures raised <==> Saving(old(rows), key, p, now).Raised?
      ensures rows == if raised then old(rows) else Saving(old(rows), key, p, now).store
    {
      if p.updatedAt.Broken? {
        return true;
      }
      var updatedAt := if p.updatedAt.At? then p.updatedAt.time else now;
      if key in rows && rows[key].updatedAt > updatedAt {
        return false;
      }
      var item := Project(p, key.kind, updatedAt);
      if item.None? {
        return true;
      }
      rows := rows[key := item.value];
      return false;
    }
  }

  // Convergence

  /** One delivery of a payload; the time it comes in does not matter once it says when it was updated. */
  datatype Delivery = Delivery(key: Key, payload: Payload)

  /** It says when it was updated, and a row can be made of it. */
  predicate Readable(d: Delivery) {
    d.payload.updatedAt.At? && Project(d.payload, d.key.kind, d.payload.updatedAt.time).Some?
  }

  function TimeOf(d: Delivery): int
    requires Readable(d)
  {
    d.payload.updatedAt.time
  }

  function RowOf(d: Delivery): (item: Item)
    requires Readable(d)
    ensures item.updatedAt == TimeOf(d)
  {
    Project(d.payload, d.key.kind, TimeOf(d)).value
  }

  ghost predicate AllReadable(ds: seq<Delivery>) {
    forall d :: d in ds ==> Readable(d)
  }

  /** The store after the deliveries, each saved at any time. */
  function After(store: Store, ds: seq<Delivery>): Store {
    if ds == [] then store
    else
      var d := ds[|ds| - 1];
      var earlier := After(store, ds[..|ds| - 1]);
      var r := Saving(earlier, d.key, d.payload, 0);
      if r.Saved? then r.store else earlier
  }

  lemma TimeOfArrivalIsIrrelevant(store: Store, d: Delivery, now: int)
    requires Readable(d)
    ensures Saving(store, d.key, d.payload, now) == Saving(store, d.key, d.payload, 0)
    ensures Saving(store, d.key, d.payload, now).Saved?
  {
    hide Project;
  }

  /** The store after the deliveries, each saved at its time of arrival. */
  function AfterAt(store: Store, ds: seq<Delivery>, times: seq<int>): Store
    requires |times| == |ds|
  {
    if ds == [] then store
    else
      var n := |ds| - 1;
      var earlier := AfterAt(store, ds[..n], times[..n]);
      var r := Saving(earlier, ds[n].key, ds[n].payload, times[n]);
      if r.Saved? then r.store else earlier
  }

  /** When they come in makes no difference, so `After` saves them all at one time. */
  lemma {:induction false} ArrivalTimesAreIrrelevant(store: Store, ds: seq<Delivery>, times: seq<int>)
    requires AllReadable(ds) && |times| == |ds|
    ensures AfterAt(store, ds, times) == After(store, ds)
  {
    hide Saving, Readable;
    if ds != [] {
      var n := |ds| - 1;
      assert forall d :: d in ds[..n] ==> d in ds;
      ArrivalTimesAreIrrelevant(store, ds[..n], times[..n]);
      TimeOfArrivalIsIrrelevant(After(store, ds[..n]), ds[n], times[n]);
    }
  }

  predicate Delivers(d: Delivery, key: Key, item: Item) {
    d.key == key && Readable(d) && RowOf(d) == item
  }

  ghost predicate Delivered(ds: seq<Delivery>, key: Key, item: Item) {
    exists d :: d in ds && Delivers(d, key, item)
  }

  ghost predicate Addressed(ds: seq<Delivery>, key: Key) {
    exists d :: d in ds && d.key == key
  }

  ghost predicate NoneLater(ds: seq<Delivery>, key: Key, time: int) {
    forall d :: d in ds && d.key == key && Readable(d) ==> TimeOf(d) <= time
  }

  ghost predicate NoneAtOrLater(ds: seq<Delivery>, key: Key, time: int) {
    forall d :: d in ds && d.key == key && Readable(d) ==> TimeOf(d) < time
  }

  /** The row of a newest delivery for its key, or the row from before if it is newer than all of them. */
  ghost predicate IsNewest(store: Store, ds: seq<Delivery>, key: Key, item: Item) {
    && NoneLater(ds, key, item.updatedAt)
    && (key in store ==> store[key].updatedAt <= item.updatedAt)
    && (Delivered(ds, key, item) || (key in store && store[key] == item && NoneAtOrLater(ds, key, item.updatedAt)))
  }

  lemma LastIn(ds: seq<Delivery>)
    requires ds != []
    ensures forall d :: d in ds <==> d in ds[..|ds| - 1] || d == ds[|ds| - 1]
  {
    assert ds == ds[..|ds| - 1] + [ds[|ds| - 1]];
  }

  lemma SaveKeepsNewest(store: Store, ds: seq<Delivery>, earlier: Store, d: Delivery, key: Key)
    requires Readable(d) && ds != [] && ds[|ds| - 1] == d
    requires key in earlier <==> key in store || Addressed(ds[..|ds| - 1], key)
    requires key in earlier ==> IsNewest(store, ds[..|ds| - 1], key, earlier[key])
    ensures var r := Saving(earlier, d.key, d.payload, 0);
            && r.Saved?
            && (key in r.store <==> key in store || Addressed(ds, key))
            && (key in r.store ==> IsNewest(store, ds, key, r.store[key]))
  {
    hide Project;
    LastIn(ds);
    var front := ds[..|ds| - 1];
    var r := Saving(earlier, d.key, d.payload, 0);
    if key == d.key && !(key in earlier && earlier[key].updatedAt > TimeOf(d)) {
      assert r.store[key] == RowOf(d);
      assert Delivers(d, key, RowOf(d));
    } else if key in earlier {
      assert r.store[key] == earlier[key];
      if Delivered(front, key, earlier[key]) {
        var e :| e in front && Delivers(e, key, earlier[key]);
        assert e in ds;
      }
    }
  }

  /** Each row is the newest, whatever the order of the deliveries. */
  lemma {:induction false} NewestIsKept(store: Store, ds: seq<Delivery>, key: Key)
    requires AllReadable(ds)
    ensures key in After(store, ds) <==> key in store || Addressed(ds, key)
    ensures key in After(store, ds) ==> IsNewest(store, ds, key, After(store, ds)[key])
  {
    if ds != [] {
      hide IsNewest, Addressed, Saving;
      LastIn(ds);
      var front := ds[..|ds| - 1];
      NewestIsKept(store, front, key);
      SaveKeepsNewest(store, ds, After(store, front), ds[|ds| - 1], key);
    } else {
      assert !Addressed(ds, key);
    }
  }

  ghost predicate SameDeliveries(a: seq<Delivery>, b: seq<Delivery>) {
    forall d :: d in a <==> d in b
  }

  /** Of the newest deliveries for a key, unless the row from before is newer. */
  ghost predicate Wins(store: Store, ds: seq<Delivery>, d: Delivery) {
    d in ds && Readable(d) && NoneLater(ds, d.key, TimeOf(d)) && (d.key in store ==> store[d.key].updatedAt <= TimeOf(d))
  }

  ghost predicate TiesAgree(store: Store, ds: seq<Delivery>) {
    forall d, e :: Wins(store, ds, d) && Wins(store, ds, e) && d.key == e.key ==> RowOf(d) == RowOf(e)
  }

  ghost predicate Converges(store: Store, ds: seq<Delivery>) {
    forall other :: SameDeliveries(ds, other) ==> After(store, other) == After(store, ds)
  }

  lemma NewestIsUnique(store: Store, a: seq<Delivery>, b: seq<Delivery>, key: Key, x: Item, y: Item)
    requires SameDeliveries(a, b) && TiesAgree(store, a)
    requires IsNewest(store, a, key, x) && IsNewest(store, b, key, y)
    ensures x == y
  {
    hide Readable, RowOf;
    if Delivered(a, key, x) && Delivered(b, key, y) {
      var d :| d in a && Delivers(d, key, x);
      var e :| e in b && Delivers(e, key, y);
      assert Wins(store, a, d) && Wins(store, a, e);
    }
  }

  /** When the newest deliveries agree, any order and any repetition of them ends in the same store. */
  lemma OrderIsIrrelevant(store: Store, a: seq<Delivery>, b: seq<Delivery>)
    requires AllReadable(a) && SameDeliveries(a, b) && TiesAgree(store, a)
    ensures After(store, a) == After(store, b)
  {
    hide IsNewest, TiesAgree, After;
    assert AllReadable(b);
    forall key
      ensures key in After(store, a) <==> key in After(store, b)
      ensures key in After(store, a) ==> After(store, a)[key] == After(store, b)[key]
    {
      NewestIsKept(store, a, key);
      NewestIsKept(store, b, key);
      assert Addressed(a, key) <==> Addressed(b, key);
      if key in After(store, a) {
        NewestIsUnique(store, a, b, key, After(store, a)[key], After(store, b)[key]);
      }
    }
  }

  lemma LastWins(store: Store, ds: seq<Delivery>, d: Delivery)
    requires AllReadable(ds) && Wins(store, ds, d)
    ensures SameDeliveries(ds, ds + [d])
    ensures d.key in After(store, ds + [d]) && After(store, ds + [d])[d.key] == RowOf(d)
  {
    hide Project;
    NewestIsKept(store, ds, d.key);
    assert (ds + [d])[..|ds|] == ds;
    assert Addressed(ds, d.key);
    if Delivered(ds, d.key, After(store, ds)[d.key]) {
      var e :| e in ds && Delivers(e, d.key, After(store, ds)[d.key]);
      assert TimeOf(e) <= TimeOf(d);
    }
  }

  /** Deliveries end in the same store in every order exactly if the newest ones for a key make the same row. */
  lemma ConvergesExactly(store: Store, ds: seq<Delivery>)
    requires AllReadable(ds)
    ensures Converges(store, ds) <==> TiesAgree(store, ds)
  {
    hide After, RowOf;
    if TiesAgree(store, ds) {
      forall other | SameDeliveries(ds, other)
        ensures After(store, other) == After(store, ds)
      {
        OrderIsIrrelevant(store, ds, other);
      }
    }
    if Converges(store, ds) {
      forall d, e | Wins(store, ds, d) && Wins(store, ds, e) && d.key == e.key
        ensures RowOf(d) == RowOf(e)
      {
        LastWins(store, ds, d);
        LastWins(store, ds, e);
        assert After(store, ds + [d]) == After(store, ds) == After(store, ds + [e]);
      }
    }
  }

  /** Two deliveries for a key with the same time are the same delivery. */
  ghost predicate DistinctTimes(ds: seq<Delivery>) {
    forall d, e :: d in ds && e in ds && d.key == e.key && d.payload.updatedAt == e.payload.updatedAt ==> d == e
  }

  /** With distinct times per item, every order and repetition converges to the newest payloads' rows. */
  lemma DistinctTimesConverge(ds: seq<Delivery>, other: seq<Delivery>)
    requires AllReadable(ds) && DistinctTimes(ds) && SameDeliveries(ds, other)
    ensures After(map[], other) == After(map[], ds)
    ensures forall key :: key in After(map[], ds) <==> Addressed(ds, key)
    ensures forall d :: Wins(map[], ds, d) ==> Holds(After(map[], ds), d)
  {
    hide After, Project, RowOf;
    forall d, e | Wins(map[], ds, d) && Wins(map[], ds, e) && d.key == e.key
      ensures RowOf(d) == RowOf(e)
    {
      assert TimeOf(d) == TimeOf(e);
    }
    OrderIsIrrelevant(map[], ds, other);
    forall key
      ensures key in After(map[], ds) <==> Addressed(ds, key)
    {
      NewestIsKept(map[], ds, key);
    }
    forall d | Wins(map[], ds, d)
      ensures Holds(After(map[], ds), d)
    {
      LastWins(map[], ds, d);
      OrderIsIrrelevant(map[], ds, ds + [d]);
    }
  }

  predicate Holds(store: Store, d: Delivery) {
    d.key in store && Delivers(d, d.key, store[d.key])
  }
}
