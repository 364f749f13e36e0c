/** What a reader of the report cache gets after a completed sync. */
module Freshness {
  import opened Text
  import opened Sync
  import opened Provenance
  import opened ReportCache
  import opened SyncOrder

  // The record of revisions only grows

  ghost predicate Remembers(s: State, t: State) {
    forall v :: v in s.began ==> v in t.began && t.began[v] == s.began[v]
  }

  /** The step gives the property a revision that it did not have before. */
  predicate Raises(s: State, e: Event, pk: nat) {
    pk in Step(s, e).props && Version(pk, Step(s, e).props[pk].revision) !in s.began
  }

  ghost predicate Begins(s: State, t: State, pk: nat) {
    && Remembers(s, t)
    && (pk in t.props && Version(pk, t.props[pk].revision) !in s.began ==>
          var v := Version(pk, t.props[pk].revision); v in t.began && t.began[v] == Began(t.props[pk].source, t.snaps))
  }

  lemma SameRowsBegin(s: State, t: State, pk: nat)
    requires Current(s) && SameRows(s, t)
    ensures Begins(s, t, pk)
  {
  }

  lemma NewVersionBegins(s: State, t: State, pk: nat, bumped: nat)
    requires Current(s) && Past(s) && bumped in t.props
    requires bumped in s.props || bumped >= s.nextPk
    requires t.props == s.props[bumped := t.props[bumped]]
    requires bumped in s.props ==> t.props[bumped].revision == s.props[bumped].revision + 1
    requires t.began == s.began[Version(bumped, t.props[bumped].revision) := Began(t.props[bumped].source, t.snaps)]
    ensures Begins(s, t, pk)
  {
    assert Version(bumped, t.props[bumped].revision) !in s.began;
  }

  lemma BumpedBegins(s: State, t: State, pk: nat, bumped: nat)
    requires Current(s) && Past(s) && bumped in s.props && Bumped(s, t, bumped)
    ensures Begins(s, t, pk)
  {
    hide Begins, Current, Past;
    NewVersionBegins(s, t, pk, bumped);
  }

  lemma FinishBegins(s: State, w: nat, worker: Worker, pk: nat)
    requires Current(s) && Past(s)
    ensures Begins(s, Finish(s, w, worker), pk)
  {
    hide Begins, Current, Past, Completed, Bumped;
    var t := Finish(s, w, worker);
    if worker.todo != [] || worker.holding.Some? {
      SameRowsBegin(s, t, pk);
    } else if worker.prop !in s.props {
      SameRowsBegin(s, t, pk);
    } else {
      assert t == Completed(s, w, worker);
      CompletedIsBumped(s, w, worker);
      BumpedBegins(s, t, pk, worker.prop);
    }
  }

  lemma RelinkBegins(s: State, at: nat, source: Source, keys: seq<Key>, pk: nat)
    requires Current(s) && Past(s) && at in s.props
    ensures Begins(s, Relink(s, at, source, keys), pk)
  {
    hide Begins, Current, Past, Busy;
    NewVersionBegins(s, Relink(s, at, source, keys), pk, at);
  }

  lemma FirstLinkBegins(s: State, slot: Slot, source: Source, keys: seq<Key>, pk: nat)
    requires Current(s) && Past(s) && PksAreOld(s)
    ensures Begins(s, FirstLink(s, slot, source, keys), pk)
  {
    hide Begins, Current, Past, Busy;
    NewVersionBegins(s, FirstLink(s, slot, source, keys), pk, s.nextPk);
  }

  lemma LinkBegins(s: State, slot: Slot, source: Source, timezoneChanges: bool, keys: seq<Key>, pk: nat)
    requires Current(s) && Past(s) && PksAreOld(s)
    ensures Begins(s, LinkProperty(s, slot, source, timezoneChanges, keys), pk)
  {
    hide Begins, Current, Past, Busy, WebsiteBusy, Relink, FirstLink;
    if Linked(s, slot) && Busy(s.jobs, s.slots[slot]) {
      SameRowsRefl(s);
      SameRowsBegin(s, s, pk);
    } else if timezoneChanges && WebsiteBusy(s, slot.website) {
      SameRowsRefl(s);
      SameRowsBegin(s, s, pk);
    } else if Linked(s, slot) {
      RelinkBegins(s, s.slots[slot], source, keys, pk);
    } else {
      FirstLinkBegins(s, slot, source, keys, pk);
    }
  }

  lemma StepBegins(s: State, e: Event, pk: nat)
    requires Current(s) && Past(s) && PksAreOld(s)
    ensures Begins(s, Step(s, e), pk)
  {
    hide Begins, Current, Past, StoreReport, Finish, LinkProperty, WorkerStep, ReaderStep;
    if !TouchesRows(e) {
      OthersKeepRows(s, e);
      SameRowsBegin(s, Step(s, e), pk);
    } else if e.Link? {
      LinkBegins(s, e.slot, e.source, e.timezoneChanges, e.keys, pk);
    } else if e.Unlink? {
      UnlinkBegins(s, e.slot, pk);
    } else if e.w !in s.workers {
      SameRowsRefl(s);
      SameRowsBegin(s, s, pk);
    } else {
      TouchingWorkerStep(s, e.w, s.workers[e.w], e);
      if e.Store? {
        StoreBegins(s, e.w, s.workers[e.w], pk);
      } else {
        FinishBegins(s, e.w, s.workers[e.w], pk);
      }
    }
  }

  lemma UnlinkBegins(s: State, slot: Slot, pk: nat)
    requires Current(s)
    ensures Begins(s, UnlinkProperty(s, slot), pk)
  {
    hide Busy;
    if !Linked(s, slot) || Busy(s.jobs, s.slots[slot]) {
    } else {
    }
  }

  lemma StoreBegins(s: State, w: nat, worker: Worker, pk: nat)
    requires Current(s)
    ensures Begins(s, StoreReport(s, w, worker), pk)
  {
    hide Stores;
    if worker.todo == [] || worker.holding.None? {
    } else if !Stores(s, worker) {
    } else {
    }
  }

  lemma {:induction false} RunRemembers(order: Order, es: seq<Event>, b: nat, n: nat)
    requires AllInOrder(order, es) && b <= n <= |es|
    ensures Remembers(Run(EMPTY, es[..b]), Run(EMPTY, es[..n]))
  {
    hide Step, AllInOrder;
    if b < n {
      RunRemembers(order, es, b, n - 1);
      AllInOrderFront(order, es, n - 1);
      RunIsGood(order, es[..n - 1]);
      RunStep(es, n - 1);
      StepBegins(Run(EMPTY, es[..n - 1]), es[n - 1], 0);
    }
  }

  lemma RunStep(es: seq<Event>, n: nat)
    requires n < |es|
    ensures Run(EMPTY, es[..n + 1]) == Step(Run(EMPTY, es[..n]), es[n])
  {
    assert es[..n + 1][..n] == es[..n];
  }

  // A reader keeps the row it loaded

  predicate Reads(s: State, r: nat, version: Version, key: Key) {
    r in s.readers && s.readers[r].version == version && s.readers[r].key == key
  }

  lemma LoadReads(s: State, r: nat, pk: nat, key: Key)
    requires pk in s.props
    ensures var t := Step(s, Load(r, pk, key));
            Reads(t, r, Version(pk, s.props[pk].revision), key) && t.readers[r].progress == Loaded
  {
  }

  lemma StepReads(s: State, e: Event, r: nat)
    requires r in s.readers && !(e.Load? && e.r == r)
    ensures r in Step(s, e).readers
    ensures Step(s, e).readers[r] ==
            if OfReader(e) && e.r == r then s.readers[r].(progress := NextProgress(s, s.readers[r], e))
            else s.readers[r]
  {
    hide WorkerStep, LinkProperty, UnlinkProperty, NextProgress, NextCache, QueueSync, ClaimJob, RecoverJob, LoadRow;
    if OfWorker(e) {
      if e.w in s.workers {
        WorkerKeepsReaders(s, e);
      }
    } else if OfReader(e) {
    } else if e.Link? || e.Unlink? {
      RelinksKeepReaders(s, e);
    } else if e.Load? {
      OtherLoads(s, e.r, e.pk, e.key, r);
    } else {
      JobsKeepReaders(s, e);
    }
  }

  lemma OtherLoads(s: State, loader: nat, pk: nat, key: Key, r: nat)
    requires r in s.readers && loader != r
    ensures var t := LoadRow(s, loader, pk, key); r in t.readers && t.readers[r] == s.readers[r]
  {
    if pk in s.props {
    } else {
    }
  }

  lemma StoreKeepsReaders(s: State, w: nat, worker: Worker)
    ensures StoreReport(s, w, worker).readers == s.readers
  {
    hide Stores;
    if worker.todo == [] || worker.holding.None? {
    } else if !Stores(s, worker) {
    } else {
    }
  }

  lemma FinishKeepsReaders(s: State, w: nat, worker: Worker)
    ensures Finish(s, w, worker).readers == s.readers
  {
    hide SetStatus;
    if worker.todo != [] || worker.holding.Some? {
    } else if worker.prop !in s.props {
    } else {
    }
  }

  lemma WorkerKeepsReaders(s: State, e: Event)
    requires OfWorker(e) && e.w in s.workers
    ensures WorkerStep(s, e.w, s.workers[e.w], e).readers == s.readers
  {
    hide WorkerStep, StoreReport, Finish, SameRows;
    var worker := s.workers[e.w];
    if !TouchesRows(e) {
      WorkerKeepsRows(s, e.w, worker, e);
    } else {
      TouchingWorkerStep(s, e.w, worker, e);
      StoreKeepsReaders(s, e.w, worker);
      FinishKeepsReaders(s, e.w, worker);
    }
  }

  lemma RelinksKeepReaders(s: State, e: Event)
    requires e.Link? || e.Unlink?
    ensures Step(s, e).readers == s.readers
  {
    hide Busy, WebsiteBusy;
    if !Linked(s, e.slot) {
    } else if Busy(s.jobs, s.slots[e.slot]) {
    } else {
    }
  }

  /** After the load at `l`, the reader only moves on from the row it loaded. */
  ghost predicate LoadsOnce(es: seq<Event>, l: nat, r: nat) {
    forall k :: l < k < |es| ==> !(es[k].Load? && es[k].r == r)
  }

  lemma {:induction false} ReaderKeepsRow(es: seq<Event>, l: nat, n: nat, version: Version)
    requires l < n <= |es| && es[l].Load? && LoadsOnce(es, l, es[l].r)
    requires es[l].pk in Run(EMPTY, es[..l]).props
    requires version == Version(es[l].pk, Run(EMPTY, es[..l]).props[es[l].pk].revision)
    ensures Reads(Run(EMPTY, es[..n]), es[l].r, version, es[l].key)
  {
    hide Step, NextProgress;
    RunStep(es, n - 1);
    if n == l + 1 {
      LoadReads(Run(EMPTY, es[..l]), es[l].r, es[l].pk, es[l].key);
    } else {
      ReaderKeepsRow(es, l, n - 1, version);
      StepReads(Run(EMPTY, es[..n - 1]), es[n - 1], es[l].r);
    }
  }

  // The payload a reader gets

  /** Reader `es[l].r`, which loaded the row at `l`, ends the run with `result`. */
  ghost predicate Returns(es: seq<Event>, l: nat, result: Option<Entry>) {
    && l < |es| && es[l].Load? && LoadsOnce(es, l, es[l].r)
    && es[l].pk in Run(EMPTY, es[..l]).props
    && es[l].r in Run(EMPTY, es).readers
    && Run(EMPTY, es).readers[es[l].r].progress == Finished(result)
  }

  lemma ReturnedIsSeen(order: Order, es: seq<Event>, l: nat, result: Option<Entry>)
    requires AllInOrder(order, es) && Returns(es, l, result) && result.Some?
    ensures Seen(order, Run(EMPTY, es), Version(es[l].pk, Run(EMPTY, es[..l]).props[es[l].pk].revision), es[l].key,
                 result.value)
  {
    hide Step, Seen, Run, AllInOrder;
    RunIsGood(order, es);
    assert es[..|es|] == es;
    ReaderKeepsRow(es, l, |es|, Version(es[l].pk, Run(EMPTY, es[..l]).props[es[l].pk].revision));
  }

  /** What the store held for a property when a step raised its revision bounds the age of everything that
      readers get who load the row later, whatever earlier readers cached. */
  lemma ReadsAfterRaise(order: Order, es: seq<Event>, b: nat, l: nat, result: Option<Entry>)
    requires AllInOrder(order, es) && b < l && Returns(es, l, result) && result.Some?
    requires Raises(Run(EMPTY, es[..b]), es[b], es[l].pk)
    ensures var a := At(es[l].pk, es[l].key);
            var raised := Run(EMPTY, es[..b + 1]);
            a in raised.snaps ==> Rank(order, a, raised.snaps[a]) <= Rank(order, a, result.value.snap)
  {
    hide Step, Run, AllInOrder, Rank, Provenant, PksAreOld, Floors, AllSeen;
    var pk := es[l].pk;
    var before, raised, loaded, last := Run(EMPTY, es[..b]), Run(EMPTY, es[..b + 1]), Run(EMPTY, es[..l]), Run(EMPTY, es);
    AllInOrderFront(order, es, b);
    AllInOrderFront(order, es, l);
    RunIsGood(order, es[..b]);
    RunIsGood(order, es[..l]);
    RunStep(es, b);
    StepBegins(before, es[b], pk);
    var v := Version(pk, raised.props[pk].revision);
    assert v in raised.began && raised.began[v].snaps == raised.snaps;
    RunRemembers(order, es, b + 1, l);
    assert es[..|es|] == es;
    RunRemembers(order, es, b + 1, |es|);
    assert v in loaded.began && v.revision <= loaded.props[pk].revision;
    ReturnedIsSeen(order, es, l, result);
    assert NoOlder(order, last.began, v, At(pk, es[l].key), result.value.snap);
  }

  // A property that is not relinked meanwhile

  /** Relinks or unlinks the property. */
  predicate Disturbs(s: State, e: Event, pk: nat) {
    (e.Link? || e.Unlink?) && e.slot in s.slots && s.slots[e.slot] == pk
  }

  ghost predicate Undisturbed(es: seq<Event>, l: nat, pk: nat) {
    forall k :: l < k < |es| ==> !Disturbs(Run(EMPTY, es[..k]), es[k], pk)
  }

  /** From one revision on the property is linked to `source`, and it holds a report at `a`. */
  ghost predicate Epoch(s: State, from: Version, source: Source, key: Option<Key>) {
    && from.pk in s.props && s.props[from.pk].source == source && from.revision <= s.props[from.pk].revision
    && (forall m :: from.revision <= m <= s.props[from.pk].revision ==>
          Version(from.pk, m) in s.began && s.began[Version(from.pk, m)].source == source)
    && (key.Some? ==> At(from.pk, key.value) in s.snaps)
  }

  lemma EpochGoesOn(s: State, t: State, from: Version, source: Source, key: Option<Key>)
    requires Epoch(s, from, source, key) && Begins(s, t, from.pk)
    requires from.pk in t.props && t.props[from.pk].source == source
    requires var was, now := s.props[from.pk].revision, t.props[from.pk].revision;
             now == was || (now == was + 1 && Version(from.pk, now) !in s.began)
    requires key.Some? ==> At(from.pk, key.value) in t.snaps
    ensures Epoch(t, from, source, key)
  {
  }

  /** The row stays linked as it is, its revision goes up by at most one, and its reports stay. */
  ghost predicate GoesOn(s: State, t: State, pk: nat) {
    && pk in s.props && pk in t.props && t.props[pk].source == s.props[pk].source
    && (t.props[pk].revision == s.props[pk].revision || t.props[pk].revision == s.props[pk].revision + 1)
    && (forall key :: At(pk, key) in s.snaps ==> At(pk, key) in t.snaps)
  }

  lemma StoreGoesOn(s: State, w: nat, worker: Worker, pk: nat)
    requires pk in s.props
    ensures GoesOn(s, StoreReport(s, w, worker), pk)
  {
    hide Stores;
    if worker.todo == [] || worker.holding.None? {
    } else if !Stores(s, worker) {
    } else {
    }
  }

  lemma FinishGoesOn(s: State, w: nat, worker: Worker, pk: nat)
    requires pk in s.props
    ensures GoesOn(s, Finish(s, w, worker), pk)
  {
    if worker.todo != [] || worker.holding.Some? {
    } else if worker.prop !in s.props {
    } else {
    }
  }

  lemma RelinkGoesOn(s: State, at: nat, source: Source, keys: seq<Key>, pk: nat)
    requires pk in s.props && at in s.props && at != pk
    ensures GoesOn(s, Relink(s, at, source, keys), pk)
  {
    hide Busy;
  }

  lemma FirstLinkGoesOn(s: State, slot: Slot, source: Source, keys: seq<Key>, pk: nat)
    requires pk in s.props && PksAreOld(s)
    ensures GoesOn(s, FirstLink(s, slot, source, keys), pk)
  {
    hide Busy;
  }

  lemma LinkGoesOn(s: State, e: Event, pk: nat)
    requires pk in s.props && PksAreOld(s) && e.Link? && !Disturbs(s, e, pk)
    ensures GoesOn(s, LinkProperty(s, e.slot, e.source, e.timezoneChanges, e.keys), pk)
  {
    hide Busy, WebsiteBusy, Relink, FirstLink;
    if Linked(s, e.slot) && Busy(s.jobs, s.slots[e.slot]) {
    } else if e.timezoneChanges && WebsiteBusy(s, e.slot.website) {
    } else if Linked(s, e.slot) {
      RelinkGoesOn(s, s.slots[e.slot], e.source, e.keys, pk);
    } else {
      FirstLinkGoesOn(s, e.slot, e.source, e.keys, pk);
    }
  }

  lemma UnlinkGoesOn(s: State, e: Event, pk: nat)
    requires pk in s.props && e.Unlink? && !Disturbs(s, e, pk)
    ensures GoesOn(s, UnlinkProperty(s, e.slot), pk)
  {
    hide Busy;
    if !Linked(s, e.slot) || Busy(s.jobs, s.slots[e.slot]) {
    } else {
    }
  }

  lemma StepGoesOn(s: State, e: Event, pk: nat)
    requires pk in s.props && PksAreOld(s) && !Disturbs(s, e, pk)
    ensures GoesOn(s, Step(s, e), pk)
  {
    hide StoreReport, Finish, LinkProperty, UnlinkProperty, WorkerStep, ReaderStep, PksAreOld;
    if !TouchesRows(e) {
      OthersKeepRows(s, e);
    } else if e.Link? {
      LinkGoesOn(s, e, pk);
    } else if e.Unlink? {
      UnlinkGoesOn(s, e, pk);
    } else if e.w in s.workers {
      TouchingWorkerStep(s, e.w, s.workers[e.w], e);
      if e.Store? {
        StoreGoesOn(s, e.w, s.workers[e.w], pk);
      } else {
        FinishGoesOn(s, e.w, s.workers[e.w], pk);
      }
    }
  }

  /** As long as nobody relinks or unlinks the property. */
  lemma {:induction false} EpochLasts(es: seq<Event>, l: nat, n: nat, key: Option<Key>)
    requires AllInOrder(ByStore, es) && l < n <= |es| && es[l].Load?
    requires es[l].pk in Run(EMPTY, es[..l]).props && Undisturbed(es, l, es[l].pk)
    requires key.Some? ==> At(es[l].pk, key.value) in Run(EMPTY, es[..l]).snaps
    ensures var row := Run(EMPTY, es[..l]).props[es[l].pk];
            Epoch(Run(EMPTY, es[..n]), Version(es[l].pk, row.revision), row.source, key)
  {
    hide Step, AllInOrder, Floors, AllSeen, Provenant, Disturbs;
    var pk := es[l].pk;
    var s := Run(EMPTY, es[..n - 1]);
    var row := Run(EMPTY, es[..l]).props[pk];
    AllInOrderFront(ByStore, es, n - 1);
    RunIsGood(ByStore, es[..n - 1]);
    RunStep(es, n - 1);
    if n == l + 1 {
      LoadIsPlain(s, es[l]);
      EpochStarts(s, pk, key);
    } else {
      EpochLasts(es, l, n - 1, key);
      assert !Disturbs(s, es[n - 1], pk);
    }
    StepBegins(s, es[n - 1], pk);
    NextIsNew(s, pk);
    hide Past, Current, Begins;
    StepGoesOn(s, es[n - 1], pk);
    hide PksAreOld, Undisturbed;
    EpochGoesOn(s, Step(s, es[n - 1]), Version(pk, row.revision), row.source, key);
  }

  lemma EpochStarts(s: State, pk: nat, key: Option<Key>)
    requires Current(s) && pk in s.props && (key.Some? ==> At(pk, key.value) in s.snaps)
    ensures Epoch(s, Version(pk, s.props[pk].revision), s.props[pk].source, key)
  {
  }

  lemma LoadIsPlain(s: State, e: Event)
    requires e.Load?
    ensures !Disturbs(s, e, e.pk)
  {
  }

  lemma NextIsNew(s: State, pk: nat)
    requires Past(s) && pk in s.props
    ensures Version(pk, s.props[pk].revision + 1) !in s.began
  {
  }

  lemma {:induction false} NeverNone(es: seq<Event>, l: nat, n: nat)
    requires AllInOrder(ByStore, es) && l < n <= |es| && es[l].Load? && LoadsOnce(es, l, es[l].r)
    requires es[l].pk in Run(EMPTY, es[..l]).props && Undisturbed(es, l, es[l].pk)
    requires At(es[l].pk, es[l].key) in Run(EMPTY, es[..l]).snaps
    ensures var s := Run(EMPTY, es[..n]); es[l].r in s.readers && s.readers[es[l].r].progress != Finished(None)
  {
    hide Step, AllInOrder, Undisturbed;
    var r, version := es[l].r, Version(es[l].pk, Run(EMPTY, es[..l]).props[es[l].pk].revision);
    RunStep(es, n - 1);
    if n == l + 1 {
      LoadReads(Run(EMPTY, es[..l]), r, es[l].pk, es[l].key);
    } else {
      var s := Run(EMPTY, es[..n - 1]);
      NeverNone(es, l, n - 1);
      ReaderKeepsRow(es, l, n - 1, version);
      EpochLasts(es, l, n - 1, Some(es[l].key));
      hide Run;
      StepReads(s, es[n - 1], r);
      NextIsNotNone(s, s.readers[r], es[n - 1]);
    }
  }

  lemma NextIsNotNone(s: State, reader: Reader, e: Event)
    requires At(reader.version.pk, reader.key) in s.snaps && reader.version.pk in s.props
    requires reader.progress != Finished(None)
    ensures NextProgress(s, reader, e) != Finished(None)
  {
  }

  /** A reader whose property is not relinked meanwhile gets a report if one was stored when it loaded the row,
      and gets it from what the property is linked to. */
  lemma ReadsTheLinkedSource(es: seq<Event>, l: nat, result: Option<Entry>)
    requires Returns(es, l, result) && Undisturbed(es, l, es[l].pk)
    ensures At(es[l].pk, es[l].key) in Run(EMPTY, es[..l]).snaps ==> result.Some?
    ensures result.Some? ==> result.value.snap.source == Run(EMPTY, es[..l]).props[es[l].pk].source
    ensures es[l].pk in Run(EMPTY, es).props
    ensures Run(EMPTY, es).props[es[l].pk].source == Run(EMPTY, es[..l]).props[es[l].pk].source
  {
    hide Step, AllInOrder, Undisturbed, Run, Rank;
    StoresAreInOrder(es);
    assert es[..|es|] == es;
    EpochLasts(es, l, |es|, None);
    if At(es[l].pk, es[l].key) in Run(EMPTY, es[..l]).snaps {
      NeverNone(es, l, |es|);
    }
    if result.Some? {
      ReturnedIsSeen(ByStore, es, l, result);
    }
  }

  /** After a sync completes, whoever loads the row gets reports no older, by the order of their stores, than what
      was stored then. */
  lemma ReportsAreFresh(es: seq<Event>, b: nat, l: nat, result: Option<Entry>)
    requires b < l && Returns(es, l, result) && result.Some?
    requires Raises(Run(EMPTY, es[..b]), es[b], es[l].pk)
    ensures var a := At(es[l].pk, es[l].key);
            var raised := Run(EMPTY, es[..b + 1]);
            a in raised.snaps ==> raised.snaps[a].stored <= result.value.snap.stored
  {
    hide Step, Run, AllInOrder;
    StoresAreInOrder(es);
    ReadsAfterRaise(ByStore, es, b, l, result);
  }

  /** They are no older by the order of their fetches either, if only abandoned jobs of the property were given up. */
  lemma ReportsAreFreshByFetch(es: seq<Event>, b: nat, l: nat, result: Option<Entry>)
    requires b < l && Returns(es, l, result) && result.Some? && AllAbandoned(es, es[l].pk)
    requires Raises(Run(EMPTY, es[..b]), es[b], es[l].pk)
    ensures var a := At(es[l].pk, es[l].key);
            var raised := Run(EMPTY, es[..b + 1]);
            a in raised.snaps ==> raised.snaps[a].fetched <= result.value.snap.fetched
  {
    hide Step, Run, AllInOrder;
    FetchesAreInOrder(es, es[l].pk);
    ReadsAfterRaise(ByFetch(es[l].pk), es, b, l, result);
  }

  /** Completing a sync raises the revision of its property. */
  lemma CompletionRaises(s: State, w: nat)
    requires Past(s) && w in s.workers && s.workers[w].todo == [] && s.workers[w].holding.None?
    requires s.workers[w].prop in s.props
    ensures Raises(s, CompleteJob(w), s.workers[w].prop)
  {
    NextIsNew(s, s.workers[w].prop);
  }
}
