/** What every interleaving keeps: where snapshots come from, and how old what the cache holds can be. */
module Provenance {
  import opened Sync

  // Where snapshots come from

  /** Every snapshot was fetched from what its property is linked to now. */
  ghost predicate Provenant(props: map<nat, Prop>, snaps: map<At, Snap>) {
    forall a :: a in snaps ==> a.pk in props && snaps[a].source == props[a.pk].source
  }

  ghost predicate PksAreOld(s: State) {
    forall pk :: pk in s.props ==> pk < s.nextPk
  }

  lemma StoreIsProvenant(s: State, w: nat, worker: Worker)
    requires Provenant(s.props, s.snaps)
    ensures Provenant(StoreReport(s, w, worker).props, StoreReport(s, w, worker).snaps)
  {
    if worker.todo == [] || worker.holding.None? {
    } else if !Stores(s, worker) {
    } else {
    }
  }

  lemma RelinkIsProvenant(s: State, pk: nat, source: Source, keys: seq<Key>)
    requires Provenant(s.props, s.snaps) && pk in s.props
    ensures Provenant(Relink(s, pk, source, keys).props, Relink(s, pk, source, keys).snaps)
  {
    hide Busy;
  }

  lemma FirstLinkIsProvenant(s: State, slot: Slot, source: Source, keys: seq<Key>)
    requires Provenant(s.props, s.snaps) && PksAreOld(s)
    ensures var t := FirstLink(s, slot, source, keys); Provenant(t.props, t.snaps) && PksAreOld(t)
  {
    hide Busy;
  }

  lemma LinkIsProvenant(s: State, slot: Slot, source: Source, timezoneChanges: bool, keys: seq<Key>)
    requires Provenant(s.props, s.snaps) && PksAreOld(s)
    ensures var t := LinkProperty(s, slot, source, timezoneChanges, keys); Provenant(t.props, t.snaps) && PksAreOld(t)
  {
    hide Busy, WebsiteBusy, Relink, FirstLink, Provenant;
    if Linked(s, slot) && Busy(s.jobs, s.slots[slot]) {
    } else if timezoneChanges && WebsiteBusy(s, slot.website) {
    } else if Linked(s, slot) {
      RelinkIsProvenant(s, s.slots[slot], source, keys);
      RelinkKeepsRows(s, s.slots[slot], source, keys);
    } else {
      FirstLinkIsProvenant(s, slot, source, keys);
    }
  }

  lemma RelinkKeepsRows(s: State, pk: nat, source: Source, keys: seq<Key>)
    requires pk in s.props
    ensures Relink(s, pk, source, keys).props.Keys == s.props.Keys && Relink(s, pk, source, keys).nextPk == s.nextPk
  {
    hide Busy;
  }

  lemma UnlinkIsProvenant(s: State, slot: Slot)
    requires Provenant(s.props, s.snaps) && PksAreOld(s)
    ensures var t := UnlinkProperty(s, slot); Provenant(t.props, t.snaps) && PksAreOld(t)
  {
    hide Busy;
  }

  /** What the steps that touch neither rows nor snapshots leave alone. */
  ghost predicate SameRows(s: State, t: State) {
    && t.props == s.props && t.nextPk == s.nextPk && t.snaps == s.snaps && t.began == s.began
    && t.stores == s.stores && t.fetches >= s.fetches
  }

  predicate TouchesRows(e: Event) {
    e.Store? || e.CompleteJob? || e.Link? || e.Unlink?
  }

  lemma WorkerKeepsRows(s: State, w: nat, worker: Worker, e: Event)
    requires !TouchesRows(e)
    ensures SameRows(s, WorkerStep(s, w, worker, e))
    ensures WorkerStep(s, w, worker, e).cache == s.cache && WorkerStep(s, w, worker, e).readers == s.readers
  {
    hide MayRetry, SetStatus;
    match e {
      case Keep(_) =>
        if worker.todo != [] && worker.holding.None? && At(worker.prop, worker.todo[0]) in s.snaps {
        } else {
        }
      case Fetch(_) =>
        if worker.todo != [] && worker.holding.None? {
        } else {
        }
      case FailJob(_, retry) =>
      case _ =>
    }
  }

  lemma ReaderKeepsRows(s: State, r: nat, reader: Reader, e: Event)
    ensures SameRows(s, ReaderStep(s, r, reader, e))
  {
    hide NextProgress, NextCache;
  }

  lemma OthersKeepRows(s: State, e: Event)
    requires !TouchesRows(e)
    ensures SameRows(s, Step(s, e))
  {
    hide WorkerStep, ReaderStep, Busy, SameRows;
    if OfWorker(e) {
      if e.w in s.workers {
        WorkerKeepsRows(s, e.w, s.workers[e.w], e);
      } else {
        SameRowsRefl(s);
      }
    } else if OfReader(e) {
      if e.r in s.readers {
        ReaderKeepsRows(s, e.r, s.readers[e.r], e);
      } else {
        SameRowsRefl(s);
      }
    } else {
      PlainKeepsRows(s, e);
    }
  }

  lemma SameRowsRefl(s: State)
    ensures SameRows(s, s)
  {
  }

  lemma PlainKeepsRows(s: State, e: Event)
    requires !TouchesRows(e) && !OfWorker(e) && !OfReader(e)
    ensures SameRows(s, Step(s, e))
  {
    hide Busy;
    match e {
      case Queue(pk, keys) =>
        if pk !in s.props || Busy(s.jobs, pk) {
        } else {
        }
      case Claim(w, job) =>
        if w in s.workers || job !in s.jobs || s.jobs[job].prop !in s.props {
        } else if s.jobs[job].status !in {Queued, Retrying} {
        } else {
        }
      case Recover(job) =>
        if job in s.jobs && Active(s.jobs[job].status) {
        } else {
        }
      case Load(r, pk, key) =>
        if pk in s.props {
        } else {
        }
      case _ =>
    }
  }

  lemma TouchingWorkerStep(s: State, w: nat, worker: Worker, e: Event)
    ensures e.Store? ==> WorkerStep(s, w, worker, e) == StoreReport(s, w, worker)
    ensures e.CompleteJob? ==> WorkerStep(s, w, worker, e) == Finish(s, w, worker)
  {
  }

  lemma StepIsProvenant(s: State, e: Event)
    requires Provenant(s.props, s.snaps) && PksAreOld(s)
    ensures Provenant(Step(s, e).props, Step(s, e).snaps) && PksAreOld(Step(s, e))
  {
    hide StoreReport, LinkProperty, UnlinkProperty, Provenant, Finish, WorkerStep, ReaderStep;
    if !TouchesRows(e) {
      OthersKeepRows(s, e);
    } else if e.Link? {
      LinkIsProvenant(s, e.slot, e.source, e.timezoneChanges, e.keys);
    } else if e.Unlink? {
      UnlinkIsProvenant(s, e.slot);
    } else if e.w in s.workers {
      if e.Store? {
        StoreIsProvenant(s, e.w, s.workers[e.w]);
        StoreKeepsRows(s, e.w, s.workers[e.w]);
        TouchingWorkerStep(s, e.w, s.workers[e.w], e);
      } else {
        TouchingWorkerStep(s, e.w, s.workers[e.w], e);
        FinishIsProvenant(s, e.w, s.workers[e.w]);
      }
    }
  }

  lemma StoreKeepsRows(s: State, w: nat, worker: Worker)
    ensures StoreReport(s, w, worker).props == s.props && StoreReport(s, w, worker).nextPk == s.nextPk
  {
    if worker.todo == [] || worker.holding.None? {
    } else if !Stores(s, worker) {
    } else {
    }
  }

  lemma FinishIsProvenant(s: State, w: nat, worker: Worker)
    requires Provenant(s.props, s.snaps) && PksAreOld(s)
    ensures var t := Finish(s, w, worker); Provenant(t.props, t.snaps) && PksAreOld(t)
  {
    if worker.todo != [] || worker.holding.Some? {
    } else if worker.prop !in s.props {
    } else {
    }
  }

  /** In every interleaving of syncs, relinks, unlinks and stale-job recovery, with workers that outlive their
      job, each stored snapshot was fetched from the connection and external id its property has now. */
  lemma {:induction false} SnapshotsComeFromTheirLink(es: seq<Event>)
    ensures Provenant(Run(EMPTY, es).props, Run(EMPTY, es).snaps) && PksAreOld(Run(EMPTY, es))
  {
    hide Step;
    if es != [] {
      SnapshotsComeFromTheirLink(es[..|es| - 1]);
      StepIsProvenant(Run(EMPTY, es[..|es| - 1]), es[|es| - 1]);
    }
  }
}
