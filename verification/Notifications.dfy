/** The alerts of one user, refreshed from freshly computed specs. */
module Notifications {
  import opened Text

  /** Everything an alert says; `sync_notification` compares all of it. */
  datatype Content = Content(
    category: string, severity: string, title: string, body: string, href: string,
    client: Option<nat>, resource: Option<nat>)

  datatype Spec = Spec(key: string, content: Content)

  datatype Alert = Alert(
    content: Content, read: Option<int>, dismissed: Option<int>, resolved: Option<int>, updated: int)

  type Alerts = map<string, Alert>

  /** One builder's specs, and the prefix of its keys. */
  datatype Source = Source(prefix: string, specs: seq<Spec>)

  const PREFIXES: seq<string> :=
    ["task:overdue:", "ticket:sla:", "credential:health:", "monitoring:incident:", "calendar:upcoming:"]

  // The operations

  /** `sync_notification`. */
  function Synced(alerts: Alerts, spec: Spec, now: int): Alerts {
    if spec.key !in alerts then alerts[spec.key := Alert(spec.content, None, None, None, now)]
    else
      var alert := alerts[spec.key];
      if alert.content != spec.content || alert.resolved.Some? then
        alerts[spec.key := Alert(spec.content, None, None, None, now)]
      else alerts
  }

  function AllSynced(alerts: Alerts, specs: seq<Spec>, now: int): Alerts {
    if specs == [] then alerts
    else Synced(AllSynced(alerts, specs[..|specs| - 1], now), specs[|specs| - 1], now)
  }

  predicate Fresh(specs: seq<Spec>, key: string) {
    exists k :: 0 <= k < |specs| && specs[k].key == key
  }

  predicate Missing(alerts: Alerts, prefix: string, specs: seq<Spec>, key: string) {
    key in alerts && StartsWith(key, prefix) && alerts[key].resolved.None? && !Fresh(specs, key)
  }

  /** `resolve_missing_notifications`; a bulk update leaves `updated_at` alone. */
  function MissingResolved(alerts: Alerts, prefix: string, specs: seq<Spec>, now: int): Alerts {
    map key | key in alerts ::
      if Missing(alerts, prefix, specs, key) then alerts[key].(resolved := Some(now)) else alerts[key]
  }

  function SourceRefreshed(alerts: Alerts, source: Source, now: int): Alerts {
    MissingResolved(AllSynced(alerts, source.specs, now), source.prefix, source.specs, now)
  }

  /** `refresh_notifications` on what the builders return. */
  function Refreshed(alerts: Alerts, sources: seq<Source>, now: int): Alerts {
    if sources == [] then alerts
    else SourceRefreshed(Refreshed(alerts, sources[..|sources| - 1], now), sources[|sources| - 1], now)
  }

  /** The store of one user's alerts. */
  class AlertStore {
    var alerts: Alerts

    constructor ()
      ensures alerts == map[]
    {
      alerts := map[];
    }

    method SyncNotification(spec: Spec, now: int)
      modifies this
      ensures alerts == Synced(old(alerts), spec, now)
    {
      if spec.key !in alerts {
        alerts := alerts[spec.key := Alert(spec.content, None, None, None, now)];
        return;
      }
      var alert := alerts[spec.key];
      if alert.content != spec.content {
        alert := alert.(content := spec.content, resolved := None, dismissed := None, read := None);
        alerts := alerts[spec.key := alert.(updated := now)];
      } else if alert.resolved.Some? {
        alert := alert.(resolved := None, dismissed := None, read := None);
        alerts := alerts[spec.key := alert.(updated := now)];
      }
    }

    method ResolveMissing(prefix: string, specs: seq<Spec>, now: int)
      modifies this
      ensures alerts == MissingResolved(old(alerts), prefix, specs, now)
    {
      var before := alerts;
      var todo := alerts.Keys;
      while todo != {}
        invariant todo <= before.Keys && alerts.Keys == before.Keys
        invariant forall key :: key in before ==>
                    alerts[key] == if key in todo then before[key] else MissingResolved(before, prefix, specs, now)[key]
      {
        var key :| key in todo;
        todo := todo - {key};
        if Missing(before, prefix, specs, key) {
          alerts := alerts[key := alerts[key].(resolved := Some(now))];
        }
      }
    }

    method RefreshNotifications(sources: seq<Source>, now: int)
      modifies this
      ensures alerts == Refreshed(old(alerts), sources, now)
    {
      ghost var before := alerts;
      for n := 0 to |sources|
        invariant alerts == Refreshed(before, sources[..n], now)
      {
        assert sources[..n + 1][..n] == sources[..n];
        ghost var start := alerts;
        var specs := sources[n].specs;
        for k := 0 to |specs|
          invariant alerts == AllSynced(start, specs[..k], now)
        {
          assert specs[..k + 1][..k] == specs[..k];
          SyncNotification(specs[k], now);
        }
        assert specs[..|specs|] == specs;
        ResolveMissing(sources[n].prefix, specs, now);
      }
      assert sources[..|sources|] == sources;
    }
  }

  // What the builders promise

  /** Each builder's keys start with its own prefix and with no other's. */
  predicate WellSourced(sources: seq<Source>) {
    && (forall i :: 0 <= i < |sources| ==> OwnKeys(sources[i]))
    && (forall i, j :: 0 <= i < |sources| && 0 <= j < |sources| && i != j ==>
          !StartsWith(sources[i].prefix, sources[j].prefix))
  }

  predicate OwnKeys(source: Source) {
    forall k :: 0 <= k < |source.specs| ==> StartsWith(source.specs[k].key, source.prefix)
  }

  /** The five builders' prefixes are apart. */
  lemma PrefixesAreApart(i: nat, j: nat)
    requires i < |PREFIXES| && j < |PREFIXES| && i != j
    ensures !StartsWith(PREFIXES[i], PREFIXES[j])
  {
    var p, q := PREFIXES[i], PREFIXES[j];
    assert p[0] != q[0] || p[1] != q[1];
  }

  /** So any specs of theirs are well sourced. */
  lemma BuildersAreWellSourced(sources: seq<Source>)
    requires |sources| == |PREFIXES| && forall i :: 0 <= i < |sources| ==> sources[i].prefix == PREFIXES[i]
    requires forall i :: 0 <= i < |sources| ==> OwnKeys(sources[i])
    ensures WellSourced(sources)
  {
    hide StartsWith;
    forall i, j | 0 <= i < |sources| && 0 <= j < |sources| && i != j
      ensures !StartsWith(sources[i].prefix, sources[j].prefix)
    {
      PrefixesAreApart(i, j);
    }
  }

  lemma OnePrefix(key: string, p: string, q: string)
    requires StartsWith(key, p) && StartsWith(key, q)
    ensures StartsWith(p, q) || StartsWith(q, p)
  {
  }

  lemma OneSourceEach(sources: seq<Source>, i: nat, j: nat, key: string)
    requires WellSourced(sources) && i < |sources| && j < |sources| && i != j && StartsWith(key, sources[i].prefix)
    ensures !StartsWith(key, sources[j].prefix)
  {
    if StartsWith(key, sources[j].prefix) {
      OnePrefix(key, sources[i].prefix, sources[j].prefix);
    }
  }

  // One key at a time

  /** What the alert of one key becomes, none when there is none. */
  function Look(alerts: Alerts, key: string): Option<Alert> {
    if key in alerts then Some(alerts[key]) else None
  }

  function SyncOne(alert: Option<Alert>, content: Content, now: int): Option<Alert> {
    if alert.None? || alert.value.content != content || alert.value.resolved.Some?
    then Some(Alert(content, None, None, None, now))
    else alert
  }

  lemma SyncedLooks(alerts: Alerts, spec: Spec, now: int, key: string)
    ensures Look(Synced(alerts, spec, now), key) ==
            if key == spec.key then SyncOne(Look(alerts, key), spec.content, now) else Look(alerts, key)
  {
  }

  lemma {:induction false} UntouchedKey(alerts: Alerts, specs: seq<Spec>, now: int, key: string)
    requires !Fresh(specs, key)
    ensures Look(AllSynced(alerts, specs, now), key) == Look(alerts, key)
  {
    if specs != [] {
      var front := specs[..|specs| - 1];
      assert forall k :: 0 <= k < |front| ==> front[k] == specs[k];
      UntouchedKey(alerts, front, now, key);
      SyncedLooks(AllSynced(alerts, front, now), specs[|specs| - 1], now, key);
    }
  }

  lemma {:induction false} FreshKey(alerts: Alerts, specs: seq<Spec>, now: int, key: string)
    requires Fresh(specs, key)
    ensures key in AllSynced(alerts, specs, now) && AllSynced(alerts, specs, now)[key].resolved.None?
  {
    var n := |specs| - 1;
    var front := specs[..n];
    SyncedLooks(AllSynced(alerts, front, now), specs[n], now, key);
    if specs[n].key != key {
      var k :| 0 <= k < |specs| && specs[k].key == key;
      assert front[k].key == key;
      FreshKey(alerts, front, now, key);
    }
  }

  /** The keys of a prefix after its source was refreshed. */
  lemma SourceLooks(alerts: Alerts, source: Source, now: int, key: string)
    requires OwnKeys(source)
    ensures StartsWith(key, source.prefix) ==>
              (Unresolved(SourceRefreshed(alerts, source, now), key) <==> Fresh(source.specs, key))
    ensures !StartsWith(key, source.prefix) ==>
              Look(SourceRefreshed(alerts, source, now), key) == Look(alerts, key)
  {
    if Fresh(source.specs, key) {
      FreshKey(alerts, source.specs, now, key);
    } else {
      UntouchedKey(alerts, source.specs, now, key);
    }
  }

  predicate Unresolved(alerts: Alerts, key: string) {
    key in alerts && alerts[key].resolved.None?
  }

  lemma WellSourcedFront(sources: seq<Source>)
    requires sources != [] && WellSourced(sources)
    ensures WellSourced(sources[..|sources| - 1])
  {
  }

  /** After a refresh the unresolved alerts under each prefix are exactly the fresh keys. */
  lemma {:induction false} UnresolvedAreFresh(alerts: Alerts, sources: seq<Source>, now: int, i: nat, key: string)
    requires WellSourced(sources) && i < |sources| && StartsWith(key, sources[i].prefix)
    ensures Unresolved(Refreshed(alerts, sources, now), key) <==> Fresh(sources[i].specs, key)
  {
    var n := |sources| - 1;
    var front := sources[..n];
    WellSourcedFront(sources);
    hide SourceRefreshed;
    SourceLooks(Refreshed(alerts, front, now), sources[n], now, key);
    if i < n {
      assert front[i] == sources[i];
      UnresolvedAreFresh(alerts, front, now, i, key);
      OneSourceEach(sources, i, n, key);
    }
  }

  // A second refresh

  /** Specs with one key say the same. */
  predicate Agreeing(specs: seq<Spec>) {
    forall i, j :: 0 <= i < |specs| && 0 <= j < |specs| && specs[i].key == specs[j].key ==>
      specs[i].content == specs[j].content
  }

  predicate AllAgreeing(sources: seq<Source>) {
    forall i :: 0 <= i < |sources| ==> Agreeing(sources[i].specs)
  }

  predicate Says(alerts: Alerts, spec: Spec) {
    Unresolved(alerts, spec.key) && alerts[spec.key].content == spec.content
  }

  /** The alerts already are what the source asks for. */
  predicate Settled(alerts: Alerts, source: Source) {
    && (forall k :: 0 <= k < |source.specs| ==> Says(alerts, source.specs[k]))
    && (forall key :: key in alerts ==> !Missing(alerts, source.prefix, source.specs, key))
  }

  lemma {:induction false} SaidIsKept(alerts: Alerts, specs: seq<Spec>, now: int)
    requires forall k :: 0 <= k < |specs| ==> Says(alerts, specs[k])
    ensures AllSynced(alerts, specs, now) == alerts
  {
    if specs != [] {
      SaidIsKept(alerts, specs[..|specs| - 1], now);
      assert Says(alerts, specs[|specs| - 1]);
    }
  }

  lemma SettledIsKept(alerts: Alerts, source: Source, now: int)
    requires Settled(alerts, source)
    ensures SourceRefreshed(alerts, source, now) == alerts
  {
    hide Missing, Says;
    SaidIsKept(alerts, source.specs, now);
  }

  lemma {:induction false} SyncedSay(alerts: Alerts, specs: seq<Spec>, now: int, k: nat)
    requires Agreeing(specs) && k < |specs|
    ensures Says(AllSynced(alerts, specs, now), specs[k])
  {
    var n := |specs| - 1;
    var front := specs[..n];
    SyncedLooks(AllSynced(alerts, front, now), specs[n], now, specs[k].key);
    if k < n {
      assert front[k] == specs[k];
      SyncedSay(alerts, front, now, k);
    }
  }

  lemma SourceSettles(alerts: Alerts, source: Source, now: int)
    requires OwnKeys(source) && Agreeing(source.specs)
    ensures Settled(SourceRefreshed(alerts, source, now), source)
  {
    var t := SourceRefreshed(alerts, source, now);
    forall k | 0 <= k < |source.specs|
      ensures Says(t, source.specs[k])
    {
      SyncedSay(alerts, source.specs, now, k);
    }
    forall key | key in t
      ensures !Missing(t, source.prefix, source.specs, key)
    {
      SourceLooks(alerts, source, now, key);
    }
  }

  /** A source leaves what another one asks for. */
  lemma OthersKeepSettled(alerts: Alerts, sources: seq<Source>, i: nat, j: nat, now: int)
    requires WellSourced(sources) && i < |sources| && j < |sources| && i != j && Settled(alerts, sources[i])
    ensures Settled(SourceRefreshed(alerts, sources[j], now), sources[i])
  {
    hide SourceRefreshed, WellSourced;
    var t := SourceRefreshed(alerts, sources[j], now);
    forall k | 0 <= k < |sources[i].specs|
      ensures Says(t, sources[i].specs[k])
    {
      SourceKeys(sources, i, k);
      OneSourceEach(sources, i, j, sources[i].specs[k].key);
      SourceKeys(sources, j, 0);
      SourceLooks(alerts, sources[j], now, sources[i].specs[k].key);
      assert Says(alerts, sources[i].specs[k]);
    }
    forall key | key in t
      ensures !Missing(t, sources[i].prefix, sources[i].specs, key)
    {
      if StartsWith(key, sources[i].prefix) {
        OneSourceEach(sources, i, j, key);
        SourceKeys(sources, j, 0);
        SourceLooks(alerts, sources[j], now, key);
        assert key in alerts ==> !Missing(alerts, sources[i].prefix, sources[i].specs, key);
      }
    }
  }

  lemma SourceKeys(sources: seq<Source>, i: nat, k: nat)
    requires WellSourced(sources) && i < |sources|
    ensures OwnKeys(sources[i])
    ensures k < |sources[i].specs| ==> StartsWith(sources[i].specs[k].key, sources[i].prefix)
  {
  }

  lemma {:induction false} RefreshSettles(alerts: Alerts, sources: seq<Source>, now: int, i: nat)
    requires WellSourced(sources) && AllAgreeing(sources) && i < |sources|
    ensures Settled(Refreshed(alerts, sources, now), sources[i])
  {
    hide SourceRefreshed, Settled;
    var n := |sources| - 1;
    var front := sources[..n];
    var earlier := Refreshed(alerts, front, now);
    if i == n {
      SourceKeys(sources, n, 0);
      SourceSettles(earlier, sources[n], now);
    } else {
      WellSourcedFront(sources);
      assert forall k :: 0 <= k < |front| ==> front[k] == sources[k];
      RefreshSettles(alerts, front, now, i);
      OthersKeepSettled(earlier, sources, i, n, now);
    }
  }

  lemma {:induction false} SettledIsStable(alerts: Alerts, sources: seq<Source>, now: int)
    requires forall i :: 0 <= i < |sources| ==> Settled(alerts, sources[i])
    ensures Refreshed(alerts, sources, now) == alerts
  {
    hide SourceRefreshed, Settled;
    if sources != [] {
      var n := |sources| - 1;
      SettledIsStable(alerts, sources[..n], now);
      SettledIsKept(alerts, sources[n], now);
    }
  }

  /** Specs that disagree about a key overwrite each other in every refresh. */
  lemma {:induction false} DisagreeingWrite(alerts: Alerts, specs: seq<Spec>, now: int, i: nat, j: nat)
    requires i < j < |specs| && specs[i].key == specs[j].key && specs[i].content != specs[j].content
    ensures specs[i].key in AllSynced(alerts, specs, now)
    ensures AllSynced(alerts, specs, now)[specs[i].key].updated == now
  {
    var key, n := specs[i].key, |specs| - 1;
    var front := specs[..n];
    SyncedLooks(AllSynced(alerts, front, now), specs[n], now, key);
    assert front[i] == specs[i];
    if j < n {
      assert front[j] == specs[j];
      DisagreeingWrite(alerts, front, now, i, j);
    } else {
      FreshKey(alerts, front, now, key);
      if a, b :| 0 <= a < b < n && front[a].key == front[b].key == key && front[a].content != front[b].content {
        DisagreeingWrite(alerts, front, now, a, b);
      } else {
        SyncedSayOne(alerts, front, now, i);
      }
    }
  }

  lemma {:induction false} SyncedSayOne(alerts: Alerts, specs: seq<Spec>, now: int, i: nat)
    requires i < |specs|
    requires forall a, b :: 0 <= a < b < |specs| && specs[a].key == specs[b].key == specs[i].key ==>
               specs[a].content == specs[b].content
    ensures Says(AllSynced(alerts, specs, now), specs[i])
  {
    var n := |specs| - 1;
    var front := specs[..n];
    SyncedLooks(AllSynced(alerts, front, now), specs[n], now, specs[i].key);
    if i < n {
      assert front[i] == specs[i];
      SyncedSayOne(alerts, front, now, i);
    }
  }

  lemma {:induction false} DisagreeingUpdate(alerts: Alerts, sources: seq<Source>, now: int, i: nat, a: nat, b: nat)
    requires WellSourced(sources) && i < |sources| && a < b < |sources[i].specs|
    requires sources[i].specs[a].key == sources[i].specs[b].key
    requires sources[i].specs[a].content != sources[i].specs[b].content
    ensures var key := sources[i].specs[a].key;
            key in Refreshed(alerts, sources, now) && Refreshed(alerts, sources, now)[key].updated == now
  {
    var n := |sources| - 1;
    var front := sources[..n];
    if i == n {
      DisagreeingWrite(Refreshed(alerts, front, now), sources[n].specs, now, a, b);
    } else {
      hide SourceRefreshed;
      WellSourcedFront(sources);
      assert front[i] == sources[i];
      DisagreeingUpdate(alerts, front, now, i, a, b);
      SourceKeys(sources, i, a);
      OneSourceEach(sources, i, n, sources[i].specs[a].key);
      SourceLooks(Refreshed(alerts, front, now), sources[n], now, sources[i].specs[a].key);
    }
  }

  /** A later refresh from the same specs changes nothing exactly if no two of them disagree about a key. */
  lemma SecondRefreshExactly(alerts: Alerts, sources: seq<Source>, now: int, later: int)
    requires WellSourced(sources) && now != later
    ensures Refreshed(Refreshed(alerts, sources, now), sources, later) == Refreshed(alerts, sources, now)
            <==> AllAgreeing(sources)
  {
    hide Refreshed, Settled, WellSourced;
    var once := Refreshed(alerts, sources, now);
    if AllAgreeing(sources) {
      forall i | 0 <= i < |sources|
        ensures Settled(once, sources[i])
      {
        RefreshSettles(alerts, sources, now, i);
      }
      SettledIsStable(once, sources, later);
    } else {
      var i :| 0 <= i < |sources| && !Agreeing(sources[i].specs);
      var a, b :| 0 <= a < b < |sources[i].specs| && sources[i].specs[a].key == sources[i].specs[b].key
                  && sources[i].specs[a].content != sources[i].specs[b].content;
      DisagreeingUpdate(alerts, sources, now, i, a, b);
      DisagreeingUpdate(once, sources, later, i, a, b);
    }
  }

  // Dismissal

  datatype Event =
    | Refresh(sources: seq<Source>, now: int)
    | Read(key: string, now: int)
    | Dismiss(key: string, now: int)
    | ReadAll(now: int)

  function MarkRead(alert: Alert, now: int): Alert {
    if alert.read.None? then alert.(read := Some(now)) else alert
  }

  /** Reading and dismissing save the alert, which notes when; marking all as read is a bulk update. */
  function Step(alerts: Alerts, e: Event): Alerts {
    match e
    case Refresh(sources, now) => Refreshed(alerts, sources, now)
    case Read(key, now) =>
      if key in alerts && alerts[key].read.None? then alerts[key := alerts[key].(read := Some(now), updated := now)]
      else alerts
    case Dismiss(key, now) =>
      if key in alerts then alerts[key := MarkRead(alerts[key], now).(dismissed := Some(now), updated := now)]
      else alerts
    case ReadAll(now) =>
      map key | key in alerts ::
        if alerts[key].resolved.None? && alerts[key].dismissed.None? then MarkRead(alerts[key], now) else alerts[key]
  }

  function Run(alerts: Alerts, es: seq<Event>): Alerts {
    if es == [] then alerts else Step(Run(alerts, es[..|es| - 1]), es[|es| - 1])
  }

  /** The spec says something new about the alert, or the alert was resolved and comes back. */
  predicate Revives(alert: Alert, spec: Spec) {
    spec.content != alert.content || alert.resolved.Some?
  }

  predicate RevivedBySpecs(alerts: Alerts, specs: seq<Spec>, key: string)
    requires key in alerts
  {
    exists k :: 0 <= k < |specs| && specs[k].key == key && Revives(alerts[key], specs[k])
  }

  predicate Revived(alerts: Alerts, e: Event, key: string)
    requires key in alerts
  {
    e.Refresh? && exists i :: 0 <= i < |e.sources| && RevivedBySpecs(alerts, e.sources[i].specs, key)
  }

  lemma {:induction false} SpecsRevive(alerts: Alerts, specs: seq<Spec>, now: int, key: string)
    requires key in alerts
    ensures key in AllSynced(alerts, specs, now)
    ensures if RevivedBySpecs(alerts, specs, key) then AllSynced(alerts, specs, now)[key].dismissed.None?
            else AllSynced(alerts, specs, now)[key] == alerts[key]
  {
    if specs != [] {
      var n := |specs| - 1;
      var front := specs[..n];
      SpecsRevive(alerts, front, now, key);
      SyncedLooks(AllSynced(alerts, front, now), specs[n], now, key);
      RevivedByParts(alerts, specs, key);
    }
  }

  lemma RevivedByParts(alerts: Alerts, specs: seq<Spec>, key: string)
    requires key in alerts && specs != []
    ensures var n := |specs| - 1;
            RevivedBySpecs(alerts, specs, key) <==>
              RevivedBySpecs(alerts, specs[..n], key) || (specs[n].key == key && Revives(alerts[key], specs[n]))
  {
    var front := specs[..|specs| - 1];
    assert forall k :: 0 <= k < |front| ==> front[k] == specs[k];
  }

  lemma NotRevivedElsewhere(alerts: Alerts, source: Source, key: string)
    requires key in alerts && OwnKeys(source) && !StartsWith(key, source.prefix)
    ensures !RevivedBySpecs(alerts, source.specs, key)
  {
  }

  /** A refresh takes an alert's dismissal back exactly if it says something new or the alert recurs. */
  lemma {:induction false} RefreshRevivesExactly(alerts: Alerts, sources: seq<Source>, now: int, key: string)
    requires WellSourced(sources) && key in alerts && alerts[key].dismissed.Some?
    ensures key in Refreshed(alerts, sources, now)
    ensures Refreshed(alerts, sources, now)[key].dismissed.None? <==> Revived(alerts, Refresh(sources, now), key)
    ensures (forall i :: 0 <= i < |sources| ==> !StartsWith(key, sources[i].prefix)) ==>
              Refreshed(alerts, sources, now)[key] == alerts[key]
  {
    if sources != [] {
      var n := |sources| - 1;
      var front, source := sources[..n], sources[n];
      var earlier := Refreshed(alerts, front, now);
      WellSourcedFront(sources);
      assert forall i :: 0 <= i < n ==> front[i] == sources[i];
      RefreshRevivesExactly(alerts, front, now, key);
      hide WellSourced, Agreeing, RevivedBySpecs;
      if StartsWith(key, source.prefix) {
        forall i | 0 <= i < n
          ensures !StartsWith(key, front[i].prefix) && !RevivedBySpecs(alerts, front[i].specs, key)
        {
          OneSourceEach(sources, n, i, key);
          SourceKeys(sources, i, 0);
          NotRevivedElsewhere(alerts, sources[i], key);
        }
        SpecsRevive(earlier, source.specs, now, key);
        SameAlertRevives(earlier, alerts, source.specs, key);
      } else {
        SourceKeys(sources, n, 0);
        SourceLooks(earlier, source, now, key);
        NotRevivedElsewhere(alerts, source, key);
      }
      RevivedInParts(alerts, sources, now, key);
    }
  }

  lemma SameAlertRevives(a: Alerts, b: Alerts, specs: seq<Spec>, key: string)
    requires key in a && key in b && a[key] == b[key]
    ensures RevivedBySpecs(a, specs, key) <==> RevivedBySpecs(b, specs, key)
  {
  }

  lemma RevivedInParts(alerts: Alerts, sources: seq<Source>, now: int, key: string)
    requires key in alerts && sources != []
    ensures var n := |sources| - 1;
            Revived(alerts, Refresh(sources, now), key) <==>
              Revived(alerts, Refresh(sources[..n], now), key) || RevivedBySpecs(alerts, sources[n].specs, key)
  {
    hide RevivedBySpecs;
    var front := sources[..|sources| - 1];
    assert forall i :: 0 <= i < |front| ==> front[i] == sources[i];
  }

  predicate WellFormed(e: Event) {
    e.Refresh? ==> WellSourced(e.sources)
  }

  lemma StepKeepsDismissal(alerts: Alerts, e: Event, key: string)
    requires WellFormed(e) && key in alerts && alerts[key].dismissed.Some?
    ensures key in Step(alerts, e)
    ensures Step(alerts, e)[key].dismissed.None? <==> Revived(alerts, e, key)
  {
    hide Refreshed, RevivedBySpecs;
    if e.Refresh? {
      RefreshRevivesExactly(alerts, e.sources, e.now, key);
    }
  }

  ghost predicate RevivedAt(alerts: Alerts, e: Event, key: string) {
    key in alerts && Revived(alerts, e, key)
  }

  /** Over any run an alert stays dismissed until its content changes or it resolves and recurs. */
  lemma {:induction false} DismissedStays(alerts: Alerts, es: seq<Event>, key: string)
    requires key in alerts && alerts[key].dismissed.Some? && forall k :: 0 <= k < |es| ==> WellFormed(es[k])
    ensures key in Run(alerts, es)
    ensures Run(alerts, es)[key].dismissed.None? ==>
              exists k :: 0 <= k < |es| && RevivedAt(Run(alerts, es[..k]), es[k], key)
  {
    hide Step, Revived, WellFormed;
    if es != [] {
      var n := |es| - 1;
      var front := es[..n];
      assert forall k :: 0 <= k < n ==> front[k] == es[k] && front[..k] == es[..k];
      DismissedStays(alerts, front, key);
      var u := Run(alerts, front);
      if u[key].dismissed.Some? {
        StepKeepsDismissal(u, es[n], key);
        assert RevivedAt(u, es[n], key) <==> Step(u, es[n])[key].dismissed.None?;
      } else {
        var k :| 0 <= k < n && RevivedAt(Run(alerts, front[..k]), front[k], key);
        assert RevivedAt(Run(alerts, es[..k]), es[k], key);
        StepKeepsKeys(u, es[n], key);
      }
    }
  }

  lemma StepKeepsKeys(alerts: Alerts, e: Event, key: string)
    requires key in alerts
    ensures key in Step(alerts, e)
  {
    if e.Refresh? {
      RefreshKeepsKeys(alerts, e.sources, e.now, key);
    }
  }

  lemma {:induction false} RefreshKeepsKeys(alerts: Alerts, sources: seq<Source>, now: int, key: string)
    requires key in alerts
    ensures key in Refreshed(alerts, sources, now)
  {
    if sources != [] {
      var front := sources[..|sources| - 1];
      RefreshKeepsKeys(alerts, front, now, key);
      SpecsRevive(Refreshed(alerts, front, now), sources[|sources| - 1].specs, now, key);
    }
  }
}
