/** What a refresh makes of each alert, field by field, and what reading and dismissing do. */
module NotificationLaws {
  import opened Text
  import opened Notifications

  /** The alert of a key with this fresh content: left alone if it says so already and is not resolved, and else new,
      unread, undismissed and unresolved. */
  function Told(alert: Option<Alert>, content: Content, now: int): Alert {
    if alert.Some? && alert.value.content == content && alert.value.resolved.None? then alert.value
    else Alert(content, None, None, None, now)
  }

  lemma {:induction false} SpecsTell(alerts: Alerts, specs: seq<Spec>, now: int, k: nat)
    requires Agreeing(specs) && k < |specs|
    ensures Look(AllSynced(alerts, specs, now), specs[k].key) ==
            Some(Told(Look(alerts, specs[k].key), specs[k].content, now))
  {
    var n, key := |specs| - 1, specs[k].key;
    var front := specs[..n];
    SyncedLooks(AllSynced(alerts, front, now), specs[n], now, key);
    assert forall i :: 0 <= i < n ==> front[i] == specs[i];
    if specs[n].key != key {
      SpecsTell(alerts, front, now, k);
    } else if i :| 0 <= i < n && front[i].key == key {
      SpecsTell(alerts, front, now, i);
    } else {
      UntouchedKey(alerts, front, now, key);
    }
  }

  lemma SourceTells(alerts: Alerts, source: Source, now: int, key: string)
    requires OwnKeys(source) && Agreeing(source.specs) && StartsWith(key, source.prefix)
    ensures forall k :: 0 <= k < |source.specs| && source.specs[k].key == key ==>
              Look(SourceRefreshed(alerts, source, now), key) ==
                Some(Told(Look(alerts, key), source.specs[k].content, now))
    ensures (forall k :: 0 <= k < |source.specs| ==> source.specs[k].key != key) ==>
              Look(SourceRefreshed(alerts, source, now), key) ==
                if key in alerts && alerts[key].resolved.None? then Some(alerts[key].(resolved := Some(now)))
                else Look(alerts, key)
  {
    if !Fresh(source.specs, key) {
      UntouchedKey(alerts, source.specs, now, key);
    }
    forall k | 0 <= k < |source.specs| && source.specs[k].key == key
      ensures Look(SourceRefreshed(alerts, source, now), key) ==
                Some(Told(Look(alerts, key), source.specs[k].content, now))
    {
      SpecsTell(alerts, source.specs, now, k);
      assert Fresh(source.specs, key);
    }
  }

  /** Other sources leave the alerts of a prefix alone. */
  lemma {:induction false} OnlyOwnSource(alerts: Alerts, sources: seq<Source>, now: int, key: string)
    requires WellSourced(sources) && forall i :: 0 <= i < |sources| ==> !StartsWith(key, sources[i].prefix)
    ensures Look(Refreshed(alerts, sources, now), key) == Look(alerts, key)
  {
    if sources != [] {
      var n := |sources| - 1;
      var front := sources[..n];
      WellSourcedFront(sources);
      assert forall i :: 0 <= i < n ==> front[i] == sources[i];
      OnlyOwnSource(alerts, front, now, key);
      hide SourceRefreshed;
      SourceLooks(Refreshed(alerts, front, now), sources[n], now, key);
    }
  }

  lemma {:induction false} OwnSourceDecides(alerts: Alerts, sources: seq<Source>, now: int, i: nat, key: string)
    requires WellSourced(sources) && i < |sources| && StartsWith(key, sources[i].prefix)
    ensures Look(Refreshed(alerts, sources, now), key) == Look(SourceRefreshed(alerts, sources[i], now), key)
  {
    var n := |sources| - 1;
    var front := sources[..n];
    WellSourcedFront(sources);
    assert forall j :: 0 <= j < n ==> front[j] == sources[j];
    if i == n {
      forall j | 0 <= j < n
        ensures !StartsWith(key, front[j].prefix)
      {
        OneSourceEach(sources, n, j, key);
      }
      OnlyOwnSource(alerts, front, now, key);
      SourceByLook(Refreshed(alerts, front, now), alerts, sources[n], now, key);
    } else {
      hide SourceRefreshed;
      OwnSourceDecides(alerts, front, now, i, key);
      OneSourceEach(sources, i, n, key);
      SourceLooks(Refreshed(alerts, front, now), sources[n], now, key);
    }
  }

  /** What a source makes of a key depends on that key alone. */
  lemma SourceByLook(a: Alerts, b: Alerts, source: Source, now: int, key: string)
    requires Look(a, key) == Look(b, key)
    ensures Look(SourceRefreshed(a, source, now), key) == Look(SourceRefreshed(b, source, now), key)
  {
    SpecsByLook(a, b, source.specs, now, key);
  }

  lemma {:induction false} SpecsByLook(a: Alerts, b: Alerts, specs: seq<Spec>, now: int, key: string)
    requires Look(a, key) == Look(b, key)
    ensures Look(AllSynced(a, specs, now), key) == Look(AllSynced(b, specs, now), key)
  {
    if specs != [] {
      var n := |specs| - 1;
      SpecsByLook(a, b, specs[..n], now, key);
      SyncedLooks(AllSynced(a, specs[..n], now), specs[n], now, key);
      SyncedLooks(AllSynced(b, specs[..n], now), specs[n], now, key);
    }
  }

  /** What a refresh makes of each alert. One of a fresh key is left alone if it says the same and is not resolved, and
      else becomes new, unread and undismissed. One whose key is no longer fresh is resolved now, unless it was before,
      and otherwise kept. One of another prefix is kept. */
  lemma RefreshTells(alerts: Alerts, sources: seq<Source>, now: int, key: string)
    requires WellSourced(sources) && AllAgreeing(sources)
    ensures var after := Look(Refreshed(alerts, sources, now), key);
            && (forall i, k :: 0 <= i < |sources| && 0 <= k < |sources[i].specs| && sources[i].specs[k].key == key ==>
                  after == Some(Told(Look(alerts, key), sources[i].specs[k].content, now)))
            && (forall i :: 0 <= i < |sources| && StartsWith(key, sources[i].prefix)
                            && (forall k :: 0 <= k < |sources[i].specs| ==> sources[i].specs[k].key != key) ==>
                  after == if key in alerts && alerts[key].resolved.None? then Some(alerts[key].(resolved := Some(now)))
                           else Look(alerts, key))
            && ((forall i :: 0 <= i < |sources| ==> !StartsWith(key, sources[i].prefix)) ==> after == Look(alerts, key))
  {
    hide Refreshed, SourceRefreshed, Look, Told;
    forall i | 0 <= i < |sources| && StartsWith(key, sources[i].prefix)
      ensures OwnKeys(sources[i]) && Agreeing(sources[i].specs)
      ensures Look(Refreshed(alerts, sources, now), key) == Look(SourceRefreshed(alerts, sources[i], now), key)
    {
      OwnSourceDecides(alerts, sources, now, i, key);
    }
    forall i | 0 <= i < |sources| && StartsWith(key, sources[i].prefix)
      ensures forall k :: 0 <= k < |sources[i].specs| && sources[i].specs[k].key == key ==>
                Look(Refreshed(alerts, sources, now), key) ==
                  Some(Told(Look(alerts, key), sources[i].specs[k].content, now))
      ensures (forall k :: 0 <= k < |sources[i].specs| ==> sources[i].specs[k].key != key) ==>
                Look(Refreshed(alerts, sources, now), key) ==
                  if key in alerts && alerts[key].resolved.None? then Some(alerts[key].(resolved := Some(now)))
                  else Look(alerts, key)
    {
      SourceTells(alerts, sources[i], now, key);
    }
    if forall i :: 0 <= i < |sources| ==> !StartsWith(key, sources[i].prefix) {
      OnlyOwnSource(alerts, sources, now, key);
    }
    forall i, k | 0 <= i < |sources| && 0 <= k < |sources[i].specs| && sources[i].specs[k].key == key
      ensures StartsWith(key, sources[i].prefix)
    {
      SourceKeys(sources, i, k);
    }
  }

  /** Reading marks an unread alert, dismissing marks an alert dismissed and read, and both note when they changed it;
      reading all marks what is neither resolved nor dismissed. Nothing else changes, and a first reading time stays. */
  lemma MarksAreExact(alerts: Alerts, key: string, other: string, now: int)
    requires key in alerts && other in alerts
    ensures var read, dismissed := Step(alerts, Event.Read(key, now)), Step(alerts, Dismiss(key, now));
            && read.Keys == dismissed.Keys == alerts.Keys
            && read[key] == (if alerts[key].read.Some? then alerts[key]
                             else alerts[key].(read := Some(now), updated := now))
            && dismissed[key] == alerts[key].(read := if alerts[key].read.Some? then alerts[key].read else Some(now),
                                              dismissed := Some(now), updated := now)
            && (other != key ==> read[other] == dismissed[other] == alerts[other])
    ensures var all := Step(alerts, ReadAll(now));
            && all.Keys == alerts.Keys
            && var alert := alerts[other];
            all[other] == if alert.resolved.None? && alert.dismissed.None? && alert.read.None?
                          then alert.(read := Some(now))
                          else alert
  {
  }
}
