/** In which order the snapshots of a property replace each other: always in the order of their stores, and in the
    order of their fetches as long as no job of it is given up whose worker is still at work. */
module SyncOrder {
  import opened Sync
  import opened Provenance
  import opened ReportCache

  // Every snapshot the run has recorded

  ghost predicate Recorded(s: State, a: At, snap: Snap) {
    || (a in s.snaps && s.snaps[a] == snap)
    || exists v :: v in s.began && a in s.began[v].snaps && s.began[v].snaps[a] == snap
  }

  ghost predicate StoredBy(s: State, e: Event, a: At, snap: Snap) {
    && e.Store? && e.w in s.workers && Stores(s, s.workers[e.w])
    && a == At(s.workers[e.w].prop, s.workers[e.w].todo[0]) && snap == Stored(s, s.workers[e.w])
  }

  ghost predicate Kept(s: State, t: State) {
    forall a, snap :: Recorded(t, a, snap) ==> Recorded(s, a, snap)
  }

  /** `snaps` holds nothing new. */
  ghost predicate Within(s: State, snaps: map<At, Snap>) {
    forall a :: a in snaps ==> a in s.snaps && s.snaps[a] == snaps[a]
  }

  lemma WithinIsKept(s: State, t: State)
    requires Within(s, t.snaps)
    requires forall v :: v in t.began ==> (v in s.began && t.began[v] == s.began[v]) || Within(s, t.began[v].snaps)
    ensures Kept(s, t)
  {
  }

  lemma FinishIsKept(s: State, w: nat, worker: Worker)
    ensures Kept(s, Finish(s, w, worker)) && Finish(s, w, worker).stores == s.stores
    ensures Finish(s, w, worker).fetches == s.fetches
  {
    hide Kept;
    if worker.todo != [] || worker.holding.Some? {
    } else if worker.prop !in s.props {
    } else {
    }
    WithinIsKept(s, Finish(s, w, worker));
  }

  lemma LinkIsKept(s: State, slot: Slot, source: Source, timezoneChanges: bool, keys: seq<Key>)
    ensures var t := LinkProperty(s, slot, source, timezoneChanges, keys);
            Kept(s, t) && t.stores == s.stores && t.fetches == s.fetches && t.workers == s.workers
  {
    hide Kept, Busy, WebsiteBusy, Relink, FirstLink;
    var t := LinkProperty(s, slot, source, timezoneChanges, keys);
    if Linked(s, slot) && Busy(s.jobs, s.slots[slot]) {
      WithinIsKept(s, t);
    } else if timezoneChanges && WebsiteBusy(s, slot.website) {
      WithinIsKept(s, t);
    } else if Linked(s, slot) {
      RelinkIsKept(s, s.slots[slot], source, keys);
    } else {
      FirstLinkIsKept(s, slot, source, keys);
    }
  }

  lemma RelinkIsKept(s: State, pk: nat, source: Source, keys: seq<Key>)
    requires pk in s.props
    ensures var t := Relink(s, pk, source, keys);
            Kept(s, t) && t.stores == s.stores && t.fetches == s.fetches && t.workers == s.workers
  {
    hide Kept, Busy;
    WithinIsKept(s, Relink(s, pk, source, keys));
  }

  lemma FirstLinkIsKept(s: State, slot: Slot, source: Source, keys: seq<Key>)
    ensures var t := FirstLink(s, slot, source, keys);
            Kept(s, t) && t.stores == s.stores && t.fetches == s.fetches && t.workers == s.workers
  {
    hide Kept, FirstLink, QueueSync;
    FirstLinkMakesRow(s, slot, source, keys);
    WithinIsKept(s, FirstLink(s, slot, source, keys));
  }

  lemma UnlinkIsKept(s: State, slot: Slot)
    ensures var t := UnlinkProperty(s, slot);
            Kept(s, t) && t.stores == s.stores && t.fetches == s.fetches && t.workers == s.workers
  {
    hide Kept, Busy;
    if !Linked(s, slot) || Busy(s.jobs, s.slots[slot]) {
    } else {
    }
    WithinIsKept(s, UnlinkProperty(s, slot));
  }

  /** Only a store records a new snapshot, with the next number. */
  lemma StepRecords(s: State, e: Event)
    ensures forall a, snap :: Recorded(Step(s, e), a, snap) ==> Recorded(s, a, snap) || StoredBy(s, e, a, snap)
    ensures Step(s, e).fetches >= s.fetches
    ensures Step(s, e).stores >= s.stores + if e.Store? && e.w in s.workers && Stores(s, s.workers[e.w]) then 1 else 0
  {
    hide Recorded, StoreReport, Finish, LinkProperty, UnlinkProperty, WorkerStep, ReaderStep, Stores;
    if !TouchesRows(e) {
      OthersKeepRows(s, e);
      WithinIsKept(s, Step(s, e));
    } else if e.Link? {
      LinkIsKept(s, e.slot, e.source, e.timezoneChanges, e.keys);
    } else if e.Unlink? {
      UnlinkIsKept(s, e.slot);
    } else if e.w in s.workers {
      TouchingWorkerStep(s, e.w, s.workers[e.w], e);
      if e.Store? {
        StoreRecords(s, e);
      } else {
        FinishIsKept(s, e.w, s.workers[e.w]);
      }
    }
  }

  lemma StoreRecords(s: State, e: Event)
    requires e.Store? && e.w in s.workers
    ensures var t := StoreReport(s, e.w, s.workers[e.w]);
            && (forall a, snap :: Recorded(t, a, snap) ==> Recorded(s, a, snap) || StoredBy(s, e, a, snap))
            && t.fetches == s.fetches
            && t.stores == s.stores + if Stores(s, s.workers[e.w]) then 1 else 0
  {
    var worker := s.workers[e.w];
    if worker.todo == [] || worker.holding.None? {
    } else if !Stores(s, worker) {
    } else {
    }
  }

  ghost predicate Numbered(s: State) {
    forall a, snap :: Recorded(s, a, snap) ==> snap.stored <= s.stores
  }

  lemma {:induction false} RunIsNumbered(es: seq<Event>)
    ensures Numbered(Run(EMPTY, es))
  {
    hide Step, Recorded;
    if es == [] {
      NothingRecorded();
    } else {
      RunIsNumbered(es[..|es| - 1]);
      StepRecords(Run(EMPTY, es[..|es| - 1]), es[|es| - 1]);
    }
  }

  lemma NothingRecorded()
    ensures forall a, snap :: !Recorded(EMPTY, a, snap)
  {
  }

  lemma OlderRecords(order: Order, s: State, e: Event)
    requires e.Store? && e.w in s.workers && Stores(s, s.workers[e.w])
    requires var a := At(s.workers[e.w].prop, s.workers[e.w].todo[0]);
             forall snap :: Recorded(s, a, snap) ==> Rank(order, a, snap) <= Rank(order, a, Stored(s, s.workers[e.w]))
    ensures InOrder(order, s, e)
  {
    var a := At(s.workers[e.w].prop, s.workers[e.w].todo[0]);
    if a in s.snaps {
      assert Recorded(s, a, s.snaps[a]);
    }
    forall v
      ensures NoOlder(order, s.began, v, a, Stored(s, s.workers[e.w]))
    {
      if v in s.began && a in s.began[v].snaps {
        assert Recorded(s, a, s.began[v].snaps[a]);
      }
    }
  }

  /** Every run stores in the order of the store numbers. */
  lemma StoresAreInOrder(es: seq<Event>)
    ensures AllInOrder(ByStore, es)
  {
    hide InOrder, Recorded, Run;
    forall k | 0 <= k < |es|
      ensures InOrder(ByStore, Run(EMPTY, es[..k]), es[k])
    {
      NextStoreIsInOrder(es[..k], es[k]);
    }
  }

  lemma NextStoreIsInOrder(es: seq<Event>, e: Event)
    ensures InOrder(ByStore, Run(EMPTY, es), e)
  {
    hide Run, Recorded;
    var s := Run(EMPTY, es);
    RunIsNumbered(es);
    if e.Store? && e.w in s.workers && Stores(s, s.workers[e.w]) {
      hide InOrder;
      OlderRecords(ByStore, s, e);
    }
  }

  // One worker on a property, unless a job of it is given up whose worker is still at work

  /** No job is given up that a worker of the property is still at. */
  predicate Abandoned(s: State, e: Event, pk: nat) {
    e.Recover? ==> forall w :: w in s.workers && s.workers[w].prop == pk ==> s.workers[w].job != e.job
  }

  predicate AllAbandoned(es: seq<Event>, pk: nat) {
    forall k :: 0 <= k < |es| ==> Abandoned(Run(EMPTY, es[..k]), es[k], pk)
  }

  predicate OneActive(jobs: map<nat, Job>, nextJob: nat) {
    && (forall j :: j in jobs ==> j < nextJob)
    && (forall i, j :: i in jobs && j in jobs && i != j && Active(jobs[i].status) && Active(jobs[j].status) ==>
          jobs[i].prop != jobs[j].prop)
  }

  /** Workers are on jobs of their property. */
  predicate Matched(s: State) {
    forall w :: w in s.workers ==>
      var j := s.workers[w].job;
      j < s.nextJob && s.workers[w].prop < s.nextPk && (j in s.jobs ==> s.jobs[j].prop == s.workers[w].prop)
  }

  /** The workers of a property are on running jobs, each on its own. */
  predicate Staffed(jobs: map<nat, Job>, workers: map<nat, Worker>, pk: nat) {
    && (forall w :: w in workers && workers[w].prop == pk ==>
          var j := workers[w].job; j in jobs && jobs[j].prop == pk && jobs[j].status == Running)
    && (forall v, w :: v in workers && w in workers && v != w && workers[v].prop == pk && workers[w].prop == pk ==>
          workers[v].job != workers[w].job)
  }

  ghost predicate Orderly(s: State, pk: nat) {
    OneActive(s.jobs, s.nextJob) && Matched(s) && PksAreOld(s) && Staffed(s.jobs, s.workers, pk)
  }

  lemma OneWorkerOn(s: State, v: nat, w: nat, pk: nat)
    requires Orderly(s, pk) && v in s.workers && w in s.workers && s.workers[v].prop == s.workers[w].prop == pk
    ensures v == w
  {
  }

  /** How a step may change rows and job numbers. */
  predicate RowsGoOn(s: State, t: State) {
    t.nextJob == s.nextJob && t.nextPk >= s.nextPk && forall pk :: pk in t.props ==> pk < t.nextPk
  }

  /** The jobs and workers after a worker left its job in `status`. */
  lemma LeavingIsOrderly(s: State, t: State, w: nat, status: Status, pk: nat)
    requires Orderly(s, pk) && w in s.workers && RowsGoOn(s, t) && t.workers == s.workers - {w}
    requires Active(status) ==> MayRetry(s, s.workers[w].job)
    requires t.jobs == SetStatus(s.jobs, s.workers[w].job, status)
    ensures Orderly(t, pk)
  {
  }

  lemma JustLeavingIsOrderly(s: State, t: State, w: nat, pk: nat)
    requires Orderly(s, pk) && w in s.workers
    requires RowsGoOn(s, t) && t.workers == s.workers - {w} && t.jobs == s.jobs
    ensures Orderly(t, pk)
  {
  }

  lemma WorkingOnIsOrderly(s: State, t: State, w: nat, worker: Worker, pk: nat)
    requires Orderly(s, pk) && w in s.workers && RowsGoOn(s, t) && t.jobs == s.jobs
    requires t.workers == s.workers[w := worker]
    requires worker.job == s.workers[w].job && worker.prop == s.workers[w].prop
    ensures Orderly(t, pk)
  {
  }

  lemma QueueIsOrderly(s: State, at: nat, keys: seq<Key>, pk: nat)
    requires Orderly(s, pk)
    ensures Orderly(QueueSync(s, at, keys), pk)
  {
    if at !in s.props || Busy(s.jobs, at) {
    } else {
      assert s.nextJob !in s.jobs;
    }
  }

  lemma StoreIsOrderly(s: State, w: nat, pk: nat)
    requires Orderly(s, pk) && w in s.workers
    ensures Orderly(StoreReport(s, w, s.workers[w]), pk)
  {
    RowsStay(s, pk);
    hide Orderly, Stores;
    var worker := s.workers[w];
    var t := StoreReport(s, w, worker);
    if worker.todo == [] || worker.holding.None? {
    } else if !Stores(s, worker) {
      JustLeavingIsOrderly(s, t, w, pk);
    } else {
      WorkingOnIsOrderly(s, t, w, t.workers[w], pk);
    }
  }

  lemma FinishIsOrderly(s: State, w: nat, pk: nat)
    requires Orderly(s, pk) && w in s.workers
    ensures Orderly(Finish(s, w, s.workers[w]), pk)
  {
    RowsStay(s, pk);
    hide Orderly, SetStatus;
    var worker := s.workers[w];
    var t := Finish(s, w, worker);
    if worker.todo != [] || worker.holding.Some? {
    } else if worker.prop !in s.props {
      JustLeavingIsOrderly(s, t, w, pk);
    } else {
      LeavingIsOrderly(s, t, w, Complete, pk);
    }
  }

  lemma WorkerIsOrderly(s: State, e: Event, pk: nat)
    requires Orderly(s, pk) && OfWorker(e) && e.w in s.workers
    ensures Orderly(WorkerStep(s, e.w, s.workers[e.w], e), pk)
  {
    RowsStay(s, pk);
    hide Orderly, SetStatus, Stores, StoreReport, Finish, Fail;
    var worker := s.workers[e.w];
    var t := WorkerStep(s, e.w, worker, e);
    match e {
      case Keep(w) =>
        if worker.todo != [] && worker.holding.None? && At(worker.prop, worker.todo[0]) in s.snaps {
          WorkingOnIsOrderly(s, t, w, t.workers[w], pk);
        } else {
        }
      case Fetch(w) =>
        if worker.todo != [] && worker.holding.None? {
          WorkingOnIsOrderly(s, t, w, t.workers[w], pk);
        } else {
        }
      case Store(w) => StoreIsOrderly(s, w, pk);
      case CompleteJob(w) => FinishIsOrderly(s, w, pk);
      case FailJob(w, retry) => FailIsOrderly(s, w, retry, pk);
      case Die(w) => JustLeavingIsOrderly(s, t, w, pk);
      case _ =>
    }
  }

  lemma RowsStay(s: State, pk: nat)
    requires Orderly(s, pk)
    ensures forall p :: p in s.props ==> p < s.nextPk
  {
  }

  lemma FailIsOrderly(s: State, w: nat, retry: bool, pk: nat)
    requires Orderly(s, pk) && w in s.workers
    ensures Orderly(Fail(s, w, s.workers[w], retry), pk)
  {
    RowsStay(s, pk);
    hide SetStatus, Orderly, Busy;
    var t := Fail(s, w, s.workers[w], retry);
    if !retry {
      LeavingIsOrderly(s, t, w, Failed, pk);
    } else if MayRetry(s, s.workers[w].job) {
      LeavingIsOrderly(s, t, w, Retrying, pk);
    } else {
      JustLeavingIsOrderly(s, t, w, pk);
    }
  }

  lemma StartIsOrderly(s: State, t: State, w: nat, j: nat, pk: nat)
    requires Orderly(s, pk) && w !in s.workers && j in s.jobs && s.jobs[j].status in {Queued, Retrying}
    requires s.jobs[j].prop < s.nextPk && RowsGoOn(s, t)
    requires t.jobs == s.jobs[j := s.jobs[j].(status := Running)]
    requires w in t.workers && t.workers == s.workers[w := t.workers[w]]
    requires t.workers[w].job == j && t.workers[w].prop == s.jobs[j].prop
    ensures Orderly(t, pk)
  {
    assert forall v :: v in s.workers && s.workers[v].prop == pk ==> s.workers[v].job != j;
  }

  lemma ClaimIsOrderly(s: State, w: nat, j: nat, pk: nat)
    requires Orderly(s, pk)
    ensures Orderly(ClaimJob(s, w, j), pk)
  {
    RowsStay(s, pk);
    hide Orderly;
    if w in s.workers || j !in s.jobs || s.jobs[j].prop !in s.props {
    } else if s.jobs[j].status !in {Queued, Retrying} {
    } else {
      StartIsOrderly(s, ClaimJob(s, w, j), w, j, pk);
    }
  }

  lemma RecoverIsOrderly(s: State, e: Event, pk: nat)
    requires Orderly(s, pk) && e.Recover? && Abandoned(s, e, pk)
    ensures Orderly(RecoverJob(s, e.job), pk)
  {
    if e.job in s.jobs && Active(s.jobs[e.job].status) {
    } else {
    }
  }

  lemma SameJobsAreOrderly(s: State, t: State, pk: nat)
    requires Orderly(s, pk) && RowsGoOn(s, t) && t.jobs == s.jobs && t.workers == s.workers
    ensures Orderly(t, pk)
  {
  }

  lemma RelinkIsOrderly(s: State, at: nat, source: Source, keys: seq<Key>, pk: nat)
    requires Orderly(s, pk) && at in s.props
    ensures Orderly(Relink(s, at, source, keys), pk)
  {
    RowsStay(s, pk);
    hide Orderly, QueueSync;
    var changed := s.(props := s.props[at := s.props[at].(source := source)], snaps := Wiped(s.snaps, at));
    SameJobsAreOrderly(s, Bump(changed, at), pk);
    QueueIsOrderly(Bump(changed, at), at, keys, pk);
  }

  lemma FirstLinkIsOrderly(s: State, slot: Slot, source: Source, keys: seq<Key>, pk: nat)
    requires Orderly(s, pk)
    ensures Orderly(FirstLink(s, slot, source, keys), pk)
  {
    RowsStay(s, pk);
    hide Orderly, QueueSync, FirstLink;
    FirstLinkMakesRow(s, slot, source, keys);
    SameJobsAreOrderly(s, NewRow(s, slot, source), pk);
    QueueIsOrderly(NewRow(s, slot, source), s.nextPk, keys, pk);
  }

  lemma LinkIsOrderly(s: State, slot: Slot, source: Source, timezoneChanges: bool, keys: seq<Key>, pk: nat)
    requires Orderly(s, pk)
    ensures Orderly(LinkProperty(s, slot, source, timezoneChanges, keys), pk)
  {
    hide Orderly, Busy, WebsiteBusy, Relink, FirstLink;
    if Linked(s, slot) && Busy(s.jobs, s.slots[slot]) {
    } else if timezoneChanges && WebsiteBusy(s, slot.website) {
    } else if Linked(s, slot) {
      RelinkIsOrderly(s, s.slots[slot], source, keys, pk);
    } else {
      FirstLinkIsOrderly(s, slot, source, keys, pk);
    }
  }

  /** An unlink is refused while a worker is on the property. */
  lemma UnlinkIsOrderly(s: State, slot: Slot, pk: nat)
    requires Orderly(s, pk)
    ensures Orderly(UnlinkProperty(s, slot), pk)
  {
    if !Linked(s, slot) || Busy(s.jobs, s.slots[slot]) {
    } else {
      var at := s.slots[slot];
      assert at == pk ==> forall w :: w in s.workers ==> s.workers[w].prop != pk;
    }
  }

  lemma StepIsOrderly(s: State, e: Event, pk: nat)
    requires Orderly(s, pk) && Abandoned(s, e, pk)
    ensures Orderly(Step(s, e), pk)
  {
    RowsStay(s, pk);
    hide Orderly, Abandoned, WorkerStep, ReaderStep, LinkProperty, UnlinkProperty, QueueSync, ClaimJob, RecoverJob, LoadRow;
    if OfWorker(e) {
      if e.w in s.workers {
        WorkerIsOrderly(s, e, pk);
      }
    } else if OfReader(e) {
      if e.r in s.readers {
        ReaderKeepsJobs(s, e.r, s.readers[e.r], e);
        SameJobsAreOrderly(s, Step(s, e), pk);
      }
    } else {
      match e {
        case Queue(at, keys) => QueueIsOrderly(s, at, keys, pk);
        case Claim(w, job) => ClaimIsOrderly(s, w, job, pk);
        case Recover(_) => RecoverIsOrderly(s, e, pk);
        case Link(slot, source, timezoneChanges, keys) => LinkIsOrderly(s, slot, source, timezoneChanges, keys, pk);
        case Unlink(slot) => UnlinkIsOrderly(s, slot, pk);
        case Load(r, at, key) =>
          LoadKeepsJobs(s, r, at, key);
          SameJobsAreOrderly(s, Step(s, e), pk);
        case _ => SameJobsAreOrderly(s, Step(s, e), pk);
      }
    }
  }

  lemma LoadKeepsJobs(s: State, r: nat, at: nat, key: Key)
    ensures var t := LoadRow(s, r, at, key);
            t.jobs == s.jobs && t.nextJob == s.nextJob && t.workers == s.workers
            && t.props == s.props && t.nextPk == s.nextPk
  {
    if at in s.props {
    } else {
    }
  }

  lemma ReaderKeepsJobs(s: State, r: nat, reader: Reader, e: Event)
    ensures var t := ReaderStep(s, r, reader, e);
            t.jobs == s.jobs && t.nextJob == s.nextJob && t.workers == s.workers
            && t.props == s.props && t.nextPk == s.nextPk
  {
    hide NextProgress, NextCache;
  }

  // The stores are in the order of the fetches too

  /** What a worker holds has a number, and a worker of `pk` holds what was fetched after everything recorded. */
  ghost predicate HoldsNewest(s: State, worker: Worker, pk: nat) {
    worker.holding.Some? ==>
      && worker.holding.value <= s.fetches
      && (worker.prop == pk ==>
            forall a, snap :: Recorded(s, a, snap) && a.pk == pk ==> snap.fetched < worker.holding.value)
  }

  ghost predicate Newest(s: State, pk: nat) {
    && (forall a, snap :: Recorded(s, a, snap) ==> snap.fetched <= s.fetches)
    && (forall w :: w in s.workers ==> HoldsNewest(s, s.workers[w], pk))
  }

  /** A worker that holds a payload after a step held it before, or has just fetched it. */
  predicate HeldOrFetched(s: State, e: Event, t: State, w: nat) {
    w in t.workers && t.workers[w].holding.Some? ==>
      || (w in s.workers && t.workers[w].prop == s.workers[w].prop && t.workers[w].holding == s.workers[w].holding
          && !(e.Store? && e.w == w && Stores(s, s.workers[w])))
      || (e.Fetch? && t.workers[w].holding.value == s.fetches + 1 == t.fetches)
  }

  lemma WorkerHolds(s: State, e: Event, w: nat)
    requires OfWorker(e) && e.w in s.workers
    ensures HeldOrFetched(s, e, WorkerStep(s, e.w, s.workers[e.w], e), w)
  {
    hide SetStatus, MayRetry;
    var worker := s.workers[e.w];
    match e {
      case Keep(_) =>
        if worker.todo != [] && worker.holding.None? && At(worker.prop, worker.todo[0]) in s.snaps {
        } else {
        }
      case Fetch(_) =>
        if worker.todo != [] && worker.holding.None? {
        } else {
        }
      case Store(_) =>
        if worker.todo == [] || worker.holding.None? {
        } else if !Stores(s, worker) {
        } else {
        }
      case CompleteJob(_) =>
        if worker.todo != [] || worker.holding.Some? {
        } else if worker.prop !in s.props {
        } else {
        }
      case _ =>
    }
  }

  lemma StepHolds(s: State, e: Event, w: nat)
    ensures HeldOrFetched(s, e, Step(s, e), w)
  {
    hide WorkerStep, ReaderStep, LinkProperty, UnlinkProperty, QueueSync, RecoverJob, LoadRow, Stores;
    if OfWorker(e) {
      if e.w in s.workers {
        WorkerHolds(s, e, w);
      }
    } else if OfReader(e) {
      if e.r in s.readers {
        ReaderKeepsJobs(s, e.r, s.readers[e.r], e);
      }
    } else {
      PlainStepHolds(s, e, w);
    }
  }

  lemma PlainStepHolds(s: State, e: Event, w: nat)
    requires !OfWorker(e) && !OfReader(e)
    ensures HeldOrFetched(s, e, Step(s, e), w)
  {
    hide LinkProperty, UnlinkProperty, Busy, Stores;
    match e {
      case Queue(pk, _) =>
        if pk !in s.props || Busy(s.jobs, pk) {
        } else {
        }
      case Claim(v, j) =>
        if v in s.workers || j !in s.jobs || s.jobs[j].prop !in s.props {
        } else if s.jobs[j].status !in {Queued, Retrying} {
        } else {
        }
      case Recover(j) =>
        if j in s.jobs && Active(s.jobs[j].status) {
        } else {
        }
      case Link(slot, source, timezoneChanges, keys) => LinkIsKept(s, slot, source, timezoneChanges, keys);
      case Unlink(slot) => UnlinkIsKept(s, slot);
      case Load(_, pk, _) =>
        if pk in s.props {
        } else {
        }
      case _ =>
    }
  }

  lemma StoredFetch(s: State, e: Event, a: At, snap: Snap, pk: nat)
    requires Newest(s, pk) && StoredBy(s, e, a, snap)
    ensures snap.fetched <= s.fetches && a.pk == s.workers[e.w].prop
  {
    hide Recorded;
    assert HoldsNewest(s, s.workers[e.w], pk);
  }

  lemma StepIsNewest(s: State, e: Event, pk: nat)
    requires Newest(s, pk) && Orderly(s, pk)
    ensures Newest(Step(s, e), pk)
  {
    hide Step, Recorded, StoredBy, Orderly;
    var t := Step(s, e);
    StepRecords(s, e);
    forall a, snap | Recorded(t, a, snap)
      ensures snap.fetched <= t.fetches
    {
      if StoredBy(s, e, a, snap) {
        StoredFetch(s, e, a, snap, pk);
      }
    }
    forall w | w in t.workers
      ensures HoldsNewest(t, t.workers[w], pk)
    {
      StepHolds(s, e, w);
      HoldingStaysNewest(s, e, w, pk);
    }
  }

  lemma HoldingStaysNewest(s: State, e: Event, w: nat, pk: nat)
    requires Newest(s, pk) && Orderly(s, pk) && w in Step(s, e).workers && HeldOrFetched(s, e, Step(s, e), w)
    ensures HoldsNewest(Step(s, e), Step(s, e).workers[w], pk)
  {
    hide Step, Recorded, Orderly, Stores;
    var t := Step(s, e);
    StepRecords(s, e);
    if w in s.workers {
      assert HoldsNewest(s, s.workers[w], pk);
    }
    if t.workers[w].holding.Some? && t.workers[w].prop == pk {
      forall a, snap | Recorded(t, a, snap) && a.pk == pk
        ensures snap.fetched < t.workers[w].holding.value
      {
        if StoredBy(s, e, a, snap) {
          StoredFetch(s, e, a, snap, pk);
          if w in s.workers && s.workers[w].prop == pk {
            OneWorkerOn(s, e.w, w, pk);
          }
        }
      }
    }
  }

  lemma AllAbandonedFront(es: seq<Event>, n: nat, pk: nat)
    requires AllAbandoned(es, pk) && n <= |es|
    ensures AllAbandoned(es[..n], pk)
    ensures n < |es| ==> Abandoned(Run(EMPTY, es[..n]), es[n], pk)
  {
    hide Abandoned, Run;
    assert forall k :: 0 <= k < n ==> es[..n][..k] == es[..k] && es[..n][k] == es[k];
  }

  lemma {:induction false} RunIsOrderly(es: seq<Event>, pk: nat)
    requires AllAbandoned(es, pk)
    ensures Orderly(Run(EMPTY, es), pk) && Newest(Run(EMPTY, es), pk)
  {
    hide Step, Abandoned, Recorded;
    if es == [] {
      NothingRecorded();
    } else {
      var n := |es| - 1;
      AllAbandonedFront(es, n, pk);
      RunIsOrderly(es[..n], pk);
      hide Orderly, Newest;
      StepIsOrderly(Run(EMPTY, es[..n]), es[n], pk);
      StepIsNewest(Run(EMPTY, es[..n]), es[n], pk);
    }
  }

  lemma NextFetchIsInOrder(es: seq<Event>, e: Event, pk: nat)
    requires AllAbandoned(es, pk)
    ensures InOrder(ByFetch(pk), Run(EMPTY, es), e)
  {
    hide Run, Recorded, Orderly, InOrder;
    var s := Run(EMPTY, es);
    RunIsOrderly(es, pk);
    RunIsNumbered(es);
    if e.Store? && e.w in s.workers && Stores(s, s.workers[e.w]) {
      assert HoldsNewest(s, s.workers[e.w], pk);
      OlderRecords(ByFetch(pk), s, e);
    } else {
      NoStoreIsInOrder(ByFetch(pk), s, e);
    }
  }

  lemma NoStoreIsInOrder(order: Order, s: State, e: Event)
    requires !(e.Store? && e.w in s.workers && Stores(s, s.workers[e.w]))
    ensures InOrder(order, s, e)
  {
  }

  /** While only abandoned jobs of a property are given up, every store for it replaces what was fetched earlier. */
  lemma FetchesAreInOrder(es: seq<Event>, pk: nat)
    requires AllAbandoned(es, pk)
    ensures AllInOrder(ByFetch(pk), es)
  {
    hide InOrder, Abandoned, Run, AllAbandoned;
    forall k | 0 <= k < |es|
      ensures InOrder(ByFetch(pk), Run(EMPTY, es[..k]), es[k])
    {
      AllAbandonedFront(es, k, pk);
      NextFetchIsInOrder(es[..k], es[k], pk);
    }
  }

  // What every run keeps, whatever jobs are given up

  /** Fetches are numbered by their count. */
  ghost predicate Counted(s: State) {
    && (forall a, snap :: Recorded(s, a, snap) ==> snap.fetched <= s.fetches)
    && (forall w :: w in s.workers && s.workers[w].holding.Some? ==> s.workers[w].holding.value <= s.fetches)
  }

  /** There is no worker on a property that does not exist yet, so all that holds of one holds of it. */
  lemma NobodyYet(s: State)
    requires OneActive(s.jobs, s.nextJob) && Matched(s) && PksAreOld(s)
    ensures Orderly(s, s.nextPk) && forall e :: Abandoned(s, e, s.nextPk)
  {
  }

  lemma CountedIsNewest(s: State)
    requires Matched(s) && Counted(s)
    ensures Newest(s, s.nextPk)
  {
    hide Recorded;
  }

  lemma NewestIsCounted(s: State, pk: nat)
    requires Newest(s, pk)
    ensures Counted(s)
  {
    hide Recorded;
    forall w | w in s.workers && s.workers[w].holding.Some?
      ensures s.workers[w].holding.value <= s.fetches
    {
      assert HoldsNewest(s, s.workers[w], pk);
    }
  }

  /** At most one job of each property is active, workers are on jobs of their property, and fetches are counted. */
  lemma {:induction false} RunIsMatched(es: seq<Event>)
    ensures var s := Run(EMPTY, es); OneActive(s.jobs, s.nextJob) && Matched(s) && PksAreOld(s) && Counted(s)
  {
    hide Step, Recorded;
    if es == [] {
      NothingRecorded();
    } else {
      var u, e := Run(EMPTY, es[..|es| - 1]), es[|es| - 1];
      RunIsMatched(es[..|es| - 1]);
      NobodyYet(u);
      CountedIsNewest(u);
      hide OneActive, Matched, PksAreOld, Staffed, Newest, Counted, Abandoned;
      StepIsOrderly(u, e, u.nextPk);
      StepIsNewest(u, e, u.nextPk);
      NewestIsCounted(Step(u, e), u.nextPk);
    }
  }
}
