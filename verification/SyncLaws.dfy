/** Jobs over whole runs: at most one job of a property is unfinished, and every link that is made queues one. */
module SyncLaws {
  import opened Sync
  import opened Provenance
  import opened SyncRows

  /** Jobs and rows fit together: numbers are fresh, jobs are of rows that exist, no two slots share a row, and of the
      jobs of a property at most one is unfinished. */
  ghost predicate JobsFit(s: State) {
    && (forall j :: j in s.jobs ==> j < s.nextJob && s.jobs[j].prop in s.props)
    && (forall pk :: pk in s.props ==> pk < s.nextPk)
    && (forall slot :: slot in s.slots ==> s.slots[slot] in s.props)
    && (forall a, b :: a in s.slots && b in s.slots && a != b ==> s.slots[a] != s.slots[b])
    && OneUnfinished(s.jobs)
  }

  ghost predicate OneUnfinished(jobs: map<nat, Job>) {
    forall i, j :: i in jobs && j in jobs && i != j && Unfinished(jobs[i]) && Unfinished(jobs[j]) ==>
      jobs[i].prop != jobs[j].prop
  }

  /** The rows are the same, up to what their properties hold. */
  predicate SameTable(s: State, t: State) {
    t.props.Keys == s.props.Keys && t.slots == s.slots && t.nextPk == s.nextPk && t.nextJob == s.nextJob
  }

  lemma StatusFits(s: State, t: State, j: nat, status: Status)
    requires JobsFit(s) && SameTable(s, t) && t.jobs == SetStatus(s.jobs, j, status)
    requires status == Complete || status == Failed || MayRetry(s, j)
    ensures JobsFit(t)
  {
  }

  lemma SameJobsFit(s: State, t: State)
    requires JobsFit(s) && SameTable(s, t) && t.jobs == s.jobs
    ensures JobsFit(t)
  {
  }

  lemma QueueFits(s: State, pk: nat, keys: seq<Key>)
    requires JobsFit(s)
    ensures JobsFit(QueueSync(s, pk, keys))
    ensures pk in s.props && !HasUnfinished(s.jobs, pk) ==>
              s.nextJob !in s.jobs && JobAdded(s.jobs, QueueSync(s, pk, keys).jobs, s.nextJob, Job(pk, keys, Queued))
  {
    BusyMeansUnfinished(s.jobs, pk);
    hide Busy;
  }

  lemma ClaimFits(s: State, w: nat, j: nat)
    requires JobsFit(s)
    ensures JobsFit(ClaimJob(s, w, j))
  {
    hide JobsFit, SetStatus;
    if w in s.workers || j !in s.jobs || s.jobs[j].prop !in s.props {
    } else if s.jobs[j].status !in {Queued, Retrying} {
    } else {
      StatusFits(s, ClaimJob(s, w, j), j, Running);
    }
  }

  lemma FinishFits(s: State, w: nat, worker: Worker)
    requires JobsFit(s)
    ensures JobsFit(Finish(s, w, worker))
  {
    hide JobsFit, SetStatus;
    if worker.todo != [] || worker.holding.Some? {
    } else if worker.prop !in s.props {
      SameJobsFit(s, Finish(s, w, worker));
    } else {
      StatusFits(s, Finish(s, w, worker), worker.job, Complete);
    }
  }

  lemma FailFits(s: State, w: nat, worker: Worker, retry: bool)
    requires JobsFit(s)
    ensures JobsFit(Fail(s, w, worker, retry))
  {
    hide JobsFit, SetStatus;
    var t := Fail(s, w, worker, retry);
    if !retry {
      StatusFits(s, t, worker.job, Failed);
    } else if MayRetry(s, worker.job) {
      StatusFits(s, t, worker.job, Retrying);
    } else {
      SameJobsFit(s, t);
    }
  }

  lemma StoreKeepsJobs(s: State, w: nat, worker: Worker)
    ensures var t := StoreReport(s, w, worker);
            t.jobs == s.jobs && t.props == s.props && t.slots == s.slots && t.nextPk == s.nextPk && t.nextJob == s.nextJob
  {
    hide Stores;
    if worker.todo == [] || worker.holding.None? {
    } else if !Stores(s, worker) {
    } else {
    }
  }

  lemma StoreFits(s: State, w: nat, worker: Worker)
    requires JobsFit(s)
    ensures JobsFit(StoreReport(s, w, worker))
  {
    hide JobsFit, StoreReport;
    StoreKeepsJobs(s, w, worker);
    SameJobsFit(s, StoreReport(s, w, worker));
  }

  lemma KeepFits(s: State, w: nat, worker: Worker)
    requires JobsFit(s)
    ensures JobsFit(KeepReport(s, w, worker))
  {
    hide JobsFit;
    SameJobsFit(s, KeepReport(s, w, worker));
  }

  lemma FetchFits(s: State, w: nat, worker: Worker)
    requires JobsFit(s)
    ensures JobsFit(FetchReport(s, w, worker))
  {
    hide JobsFit;
    if worker.todo != [] && worker.holding.None? {
      SameJobsFit(s, FetchReport(s, w, worker));
    }
  }

  lemma LeaveFits(s: State, w: nat)
    requires JobsFit(s)
    ensures JobsFit(Leave(s, w))
  {
    hide JobsFit;
    SameJobsFit(s, Leave(s, w));
  }

  lemma WorkerFits(s: State, w: nat, e: Event)
    requires JobsFit(s) && w in s.workers && OfWorker(e) && e.w == w
    ensures JobsFit(WorkerStep(s, w, s.workers[w], e))
  {
    hide JobsFit, StoreReport, Finish, Fail, KeepReport, FetchReport, Leave;
    var worker := s.workers[w];
    KeepFits(s, w, worker);
    FetchFits(s, w, worker);
    LeaveFits(s, w);
    StoreFits(s, w, worker);
    FinishFits(s, w, worker);
    if e.FailJob? {
      FailFits(s, w, worker, e.retry);
    }
  }

  lemma RelinkFits(s: State, pk: nat, source: Source, keys: seq<Key>)
    requires JobsFit(s) && pk in s.props && !HasUnfinished(s.jobs, pk)
    ensures var t := Relink(s, pk, source, keys);
            && JobsFit(t) && s.nextJob !in s.jobs
            && JobAdded(s.jobs, t.jobs, s.nextJob, Job(pk, keys, Queued))
            && t.props == s.props[pk := Prop(source, s.props[pk].revision + 1)]
            && t.slots == s.slots && t.snaps == Wiped(s.snaps, pk)
  {
    hide JobsFit, QueueSync, JobAdded, HasUnfinished, Wiped;
    var changed := s.(props := s.props[pk := s.props[pk].(source := source)], snaps := Wiped(s.snaps, pk));
    var raised := Bump(changed, pk);
    SameJobsFit(s, raised);
    QueueFits(raised, pk, keys);
    QueueKeepsRows(raised, pk, keys);
  }

  lemma NewRowFits(s: State, slot: Slot, source: Source)
    requires JobsFit(s) && slot !in s.slots
    ensures JobsFit(NewRow(s, slot, source)) && !HasUnfinished(s.jobs, s.nextPk)
  {
  }

  lemma FirstLinkFits(s: State, slot: Slot, source: Source, keys: seq<Key>)
    requires JobsFit(s) && slot !in s.slots
    ensures var t := FirstLink(s, slot, source, keys);
            && JobsFit(t) && s.nextJob !in s.jobs
            && JobAdded(s.jobs, t.jobs, s.nextJob, Job(s.nextPk, keys, Queued))
            && t.props == s.props[s.nextPk := Prop(source, 1)]
            && t.slots == s.slots[slot := s.nextPk] && t.snaps == s.snaps
  {
    hide JobsFit, QueueSync, FirstLink, HasUnfinished, JobAdded;
    var row := NewRow(s, slot, source);
    NewRowFits(s, slot, source);
    FirstLinkMakesRow(s, slot, source, keys);
    QueueFits(row, s.nextPk, keys);
  }

  lemma SlotsAreLinked(s: State, slot: Slot)
    requires JobsFit(s)
    ensures Linked(s, slot) <==> slot in s.slots
  {
  }

  lemma LinkFits(s: State, slot: Slot, source: Source, timezoneChanges: bool, keys: seq<Key>)
    requires JobsFit(s)
    ensures JobsFit(LinkProperty(s, slot, source, timezoneChanges, keys))
  {
    SlotsAreLinked(s, slot);
    hide JobsFit, Relink, FirstLink, Busy, WebsiteBusy, HasUnfinished;
    if Linked(s, slot) && Busy(s.jobs, s.slots[slot]) {
    } else if timezoneChanges && WebsiteBusy(s, slot.website) {
    } else if Linked(s, slot) {
      BusyMeansUnfinished(s.jobs, s.slots[slot]);
      RelinkFits(s, s.slots[slot], source, keys);
    } else {
      FirstLinkFits(s, slot, source, keys);
    }
  }

  lemma UnlinkFits(s: State, slot: Slot)
    requires JobsFit(s)
    ensures JobsFit(UnlinkProperty(s, slot))
  {
    hide Busy, Wiped;
    if !Linked(s, slot) || Busy(s.jobs, s.slots[slot]) {
    } else {
    }
  }

  lemma ReaderFits(s: State, e: Event)
    requires JobsFit(s) && (OfReader(e) || e.Load? || e.Evict?)
    ensures JobsFit(Step(s, e))
  {
    hide JobsFit, NextProgress, NextCache;
    if OfReader(e) {
      if e.r in s.readers {
        SameJobsFit(s, ReaderStep(s, e.r, s.readers[e.r], e));
      }
    } else if e.Load? {
      if e.pk in s.props {
        SameJobsFit(s, LoadRow(s, e.r, e.pk, e.key));
      }
    } else {
      SameJobsFit(s, s.(cache := s.cache - {e.entry}));
    }
  }

  lemma RecoverFits(s: State, j: nat)
    requires JobsFit(s)
    ensures JobsFit(RecoverJob(s, j))
  {
    hide JobsFit;
    if j in s.jobs && Active(s.jobs[j].status) {
      StatusFits(s, RecoverJob(s, j), j, Failed);
    }
  }

  lemma StepFits(s: State, e: Event)
    requires JobsFit(s)
    ensures JobsFit(Step(s, e))
  {
    hide JobsFit, QueueSync, ClaimJob, RecoverJob, LinkProperty, UnlinkProperty, WorkerStep;
    if OfWorker(e) {
      if e.w in s.workers {
        WorkerFits(s, e.w, e);
      }
    } else if OfReader(e) {
      ReaderFits(s, e);
    } else {
      match e {
        case Queue(pk, keys) => QueueFits(s, pk, keys);
        case Claim(w, j) => ClaimFits(s, w, j);
        case Recover(j) => RecoverFits(s, j);
        case Link(slot, source, timezoneChanges, keys) => LinkFits(s, slot, source, timezoneChanges, keys);
        case Unlink(slot) => UnlinkFits(s, slot);
        case Load(_, _, _) => ReaderFits(s, e);
        case Evict(_) => ReaderFits(s, e);
      }
    }
  }

  /** In every run of syncs, relinks, unlinks and recoveries, with workers that outlive their job, at most one job of
      a property is unfinished. */
  lemma {:induction false} RunsFit(es: seq<Event>)
    ensures JobsFit(Run(EMPTY, es))
  {
    hide Step;
    if es != [] {
      RunsFit(es[..|es| - 1]);
      StepFits(Run(EMPTY, es[..|es| - 1]), es[|es| - 1]);
    }
  }

  /** What a link makes of its slot, the properties, the reports and the jobs. */
  ghost predicate QueuesFor(s: State, t: State, slot: Slot, source: Source, keys: seq<Key>) {
    && slot in t.slots && s.nextJob !in s.jobs
    && var pk := t.slots[slot];
    && pk == (if slot in s.slots then s.slots[slot] else s.nextPk) && t.slots == s.slots[slot := pk]
    && t.props == s.props[pk := Prop(source, if pk in s.props then s.props[pk].revision + 1 else 1)]
    && OthersKept(s.snaps, t.snaps, pk)
    && JobAdded(s.jobs, t.jobs, s.nextJob, Job(pk, keys, Queued))
  }

  lemma RelinkQueues(s: State, slot: Slot, source: Source, keys: seq<Key>)
    requires JobsFit(s) && slot in s.slots && !Busy(s.jobs, s.slots[slot])
    ensures s.slots[slot] in s.props && QueuesFor(s, Relink(s, s.slots[slot], source, keys), slot, source, keys)
  {
    BusyMeansUnfinished(s.jobs, s.slots[slot]);
    assert s.slots[slot] in s.props;
    hide JobsFit, Relink, Busy, JobAdded, HasUnfinished;
    RelinkFits(s, s.slots[slot], source, keys);
    assert s.slots[slot := s.slots[slot]] == s.slots;
  }

  lemma FirstLinkQueues(s: State, slot: Slot, source: Source, keys: seq<Key>)
    requires JobsFit(s) && Provenant(s.props, s.snaps) && slot !in s.slots
    ensures QueuesFor(s, FirstLink(s, slot, source, keys), slot, source, keys)
  {
    assert s.nextPk !in s.props;
    assert OthersKept(s.snaps, s.snaps, s.nextPk);
    hide JobsFit, FirstLink, JobAdded, OthersKept, Provenant;
    FirstLinkFits(s, slot, source, keys);
  }

  lemma LinkTakes(s: State, e: Event)
    requires e.Link? && JobsFit(s) && !LinkRefused(s, e.slot, e.timezoneChanges)
    ensures Linked(s, e.slot) <==> e.slot in s.slots
    ensures e.slot in s.slots ==>
              && !Busy(s.jobs, s.slots[e.slot]) && s.slots[e.slot] in s.props
              && Step(s, e) == Relink(s, s.slots[e.slot], e.source, e.keys)
    ensures e.slot !in s.slots ==> Step(s, e) == FirstLink(s, e.slot, e.source, e.keys)
  {
    SlotsAreLinked(s, e.slot);
    hide JobsFit, Relink, FirstLink, Busy, WebsiteBusy;
  }

  /** In every run a link that need not wait gives its slot the new source at a new revision, wipes the reports of that
      property and no others, and queues one job for it with a fresh number, the only one of it that is unfinished. */
  lemma LinkingQueues(es: seq<Event>, e: Event)
    requires var s := Run(EMPTY, es); e.Link? && !MustWait(s.slots, s.props, s.jobs, e.slot, e.timezoneChanges)
    ensures QueuesFor(Run(EMPTY, es), Step(Run(EMPTY, es), e), e.slot, e.source, e.keys)
  {
    var s := Run(EMPTY, es);
    hide Run, Step, JobsFit, Provenant, MustWait, LinkRefused, QueuesFor, Busy;
    RunsFit(es);
    SnapshotsComeFromTheirLink(es);
    WaitingIsRefused(s, e.slot, e.timezoneChanges);
    LinkTakes(s, e);
    if e.slot in s.slots {
      RelinkQueues(s, e.slot, e.source, e.keys);
    } else {
      FirstLinkQueues(s, e.slot, e.source, e.keys);
    }
  }
}
