/** What a completed sync has done: no report of its job is missing. */
module SyncWork {
  import opened Text
  import opened Sync
  import opened SyncRows
  import opened SyncLaws

  /** The worker is on a job that nobody else can claim, has only the reports at its end left to do, and as long as the
      job is running the others are stored. */
  ghost predicate AtWork(s: State, w: nat)
    requires w in s.workers
  {
    var worker := s.workers[w];
    && worker.job < s.nextJob
    && (worker.job in s.jobs ==>
          var job := s.jobs[worker.job];
          && job.prop == worker.prop && job.status != Queued && job.status != Retrying
          && |worker.todo| <= |job.keys| && worker.todo == job.keys[|job.keys| - |worker.todo|..]
          && (job.status == Running ==> StoredUpTo(s.snaps, job, |job.keys| - |worker.todo|)))
  }

  /** The first `n` reports of the job are stored. */
  predicate StoredUpTo(snaps: map<At, Snap>, job: Job, n: nat)
    requires n <= |job.keys|
  {
    forall i :: 0 <= i < n ==> At(job.prop, job.keys[i]) in snaps
  }

  ghost predicate AllAtWork(s: State) {
    && (forall w :: w in s.workers ==> AtWork(s, w))
    && (forall v, w :: v in s.workers && w in s.workers && v != w ==> s.workers[v].job != s.workers[w].job)
  }

  /** A step leaves the job of a worker to it, and its reports as long as it is running. */
  ghost predicate LeftAlone(s: State, t: State, worker: Worker) {
    t.nextJob >= s.nextJob
    && (worker.job in t.jobs ==>
          && worker.job in s.jobs
          && t.jobs[worker.job].prop == s.jobs[worker.job].prop && t.jobs[worker.job].keys == s.jobs[worker.job].keys
          && t.jobs[worker.job].status != Queued && t.jobs[worker.job].status != Retrying
          && (t.jobs[worker.job].status == Running ==>
                && s.jobs[worker.job].status == Running
                && forall key :: At(worker.prop, key) in s.snaps ==> At(worker.prop, key) in t.snaps))
  }

  lemma StaysAtWork(s: State, t: State, w: nat)
    requires w in s.workers && AtWork(s, w) && w in t.workers && t.workers[w] == s.workers[w]
    requires LeftAlone(s, t, s.workers[w])
    ensures AtWork(t, w)
  {
  }

  /** The workers of a step that concerns none of them. */
  lemma NobodyMoves(s: State, t: State)
    requires AllAtWork(s) && t.workers.Keys <= s.workers.Keys
    requires forall w :: w in t.workers ==> t.workers[w] == s.workers[w] && LeftAlone(s, t, s.workers[w])
    ensures AllAtWork(t)
  {
    hide AtWork, LeftAlone;
    forall w | w in t.workers
      ensures AtWork(t, w)
    {
      StaysAtWork(s, t, w);
    }
  }

  lemma SameJobs(s: State, t: State)
    requires AllAtWork(s) && t.workers.Keys <= s.workers.Keys && forall w :: w in t.workers ==> t.workers[w] == s.workers[w]
    requires t.jobs == s.jobs && t.nextJob == s.nextJob && s.snaps.Keys <= t.snaps.Keys
    ensures AllAtWork(t)
  {
    forall w | w in t.workers
      ensures LeftAlone(s, t, s.workers[w])
    {
      assert AtWork(s, w);
    }
    hide AllAtWork, LeftAlone;
    NobodyMoves(s, t);
  }

  /** One worker goes on with its job, the others stay. */
  lemma OneMoves(s: State, t: State, w: nat)
    requires AllAtWork(s) && w in s.workers && w in t.workers && t.workers == s.workers[w := t.workers[w]]
    requires t.workers[w].job == s.workers[w].job && AtWork(t, w)
    requires t.jobs == s.jobs && t.nextJob == s.nextJob && s.snaps.Keys <= t.snaps.Keys
    ensures AllAtWork(t)
  {
    forall v | v in t.workers
      ensures AtWork(t, v)
    {
      if v != w {
        assert AtWork(s, v) && LeftAlone(s, t, s.workers[v]);
      }
    }
  }

  lemma KeepGoesOn(s: State, w: nat)
    requires AllAtWork(s) && w in s.workers
    ensures AllAtWork(KeepReport(s, w, s.workers[w]))
  {
    var worker := s.workers[w];
    var t := KeepReport(s, w, worker);
    assert AtWork(s, w);
    if worker.todo != [] && worker.holding.None? && At(worker.prop, worker.todo[0]) in s.snaps {
      OneDone(s, t, w);
      hide AtWork, AllAtWork;
      OneMoves(s, t, w);
    }
  }

  /** The report that the worker took off its list is stored. */
  lemma OneDone(s: State, t: State, w: nat)
    requires w in s.workers && AtWork(s, w) && s.workers[w].todo != [] && w in t.workers
    requires t.workers[w].job == s.workers[w].job && t.workers[w].prop == s.workers[w].prop
    requires t.workers[w].todo == s.workers[w].todo[1..]
    requires t.jobs == s.jobs && t.nextJob == s.nextJob && s.snaps.Keys <= t.snaps.Keys
    requires At(s.workers[w].prop, s.workers[w].todo[0]) in t.snaps
    ensures AtWork(t, w)
  {
    var worker := s.workers[w];
    if worker.job in s.jobs {
      var job := s.jobs[worker.job];
      var n := |job.keys| - |worker.todo|;
      assert job.keys[n..][0] == job.keys[n] && job.keys[n..][1..] == job.keys[n + 1..];
    }
  }

  lemma FetchGoesOn(s: State, w: nat)
    requires AllAtWork(s) && w in s.workers
    ensures AllAtWork(FetchReport(s, w, s.workers[w]))
  {
    var worker := s.workers[w];
    assert AtWork(s, w);
    if worker.todo != [] && worker.holding.None? {
      var t := FetchReport(s, w, worker);
      assert AtWork(t, w);
      hide AtWork, AllAtWork;
      OneMoves(s, t, w);
    }
  }

  lemma StoreGoesOn(s: State, w: nat)
    requires AllAtWork(s) && w in s.workers
    ensures AllAtWork(StoreReport(s, w, s.workers[w]))
  {
    var worker := s.workers[w];
    assert AtWork(s, w);
    hide AtWork, AllAtWork;
    if worker.todo == [] || worker.holding.None? {
    } else if !Stores(s, worker) {
      SameJobs(s, Leave(s, w));
    } else {
      var t := StoreReport(s, w, worker);
      OneDone(s, t, w);
      OneMoves(s, t, w);
    }
  }

  /** A worker leaves, and sets the status of its own job. */
  lemma OneLeaves(s: State, t: State, w: nat, status: Status)
    requires AllAtWork(s) && w in s.workers && t.workers == s.workers - {w}
    requires t.jobs == SetStatus(s.jobs, s.workers[w].job, status) && t.nextJob == s.nextJob && t.snaps == s.snaps
    ensures AllAtWork(t)
  {
    forall v | v in t.workers
      ensures LeftAlone(s, t, s.workers[v])
    {
      assert AtWork(s, v);
    }
    hide AllAtWork, LeftAlone;
    NobodyMoves(s, t);
  }

  lemma FinishGoesOn(s: State, w: nat)
    requires AllAtWork(s) && w in s.workers
    ensures AllAtWork(Finish(s, w, s.workers[w]))
  {
    hide AllAtWork, SetStatus;
    var worker := s.workers[w];
    if worker.todo != [] || worker.holding.Some? {
    } else if worker.prop !in s.props {
      SameJobs(s, Leave(s, w));
    } else {
      OneLeaves(s, Finish(s, w, worker), w, Complete);
    }
  }

  lemma FailGoesOn(s: State, w: nat, retry: bool)
    requires AllAtWork(s) && w in s.workers
    ensures AllAtWork(Fail(s, w, s.workers[w], retry))
  {
    hide AllAtWork, SetStatus, MayRetry;
    var t := Fail(s, w, s.workers[w], retry);
    if !retry {
      OneLeaves(s, t, w, Failed);
    } else if MayRetry(s, s.workers[w].job) {
      OneLeaves(s, t, w, Retrying);
    } else {
      SameJobs(s, t);
    }
  }

  lemma WorkerGoesOn(s: State, e: Event)
    requires AllAtWork(s) && OfWorker(e) && e.w in s.workers
    ensures AllAtWork(WorkerStep(s, e.w, s.workers[e.w], e))
  {
    hide AllAtWork, KeepReport, FetchReport, StoreReport, Finish, Fail;
    match e {
      case Keep(w) => KeepGoesOn(s, w);
      case Fetch(w) => FetchGoesOn(s, w);
      case Store(w) => StoreGoesOn(s, w);
      case CompleteJob(w) => FinishGoesOn(s, w);
      case FailJob(w, retry) => FailGoesOn(s, w, retry);
      case Die(w) => SameJobs(s, Leave(s, w));
    }
  }

  // Steps that are no worker's

  lemma QueueGoesOn(s: State, t: State, job: Job)
    requires AllAtWork(s) && JobsFit(s) && t.workers == s.workers && s.snaps.Keys <= t.snaps.Keys
    requires t.jobs == s.jobs[s.nextJob := job] && t.nextJob == s.nextJob + 1
    ensures AllAtWork(t)
  {
    forall w | w in t.workers
      ensures LeftAlone(s, t, s.workers[w])
    {
      assert AtWork(s, w);
    }
    hide AllAtWork, LeftAlone;
    NobodyMoves(s, t);
  }

  /** The others stay where they are, on other jobs. */
  lemma OthersStay(s: State, t: State, v: nat, j: nat)
    requires v in s.workers && AtWork(s, v) && v in t.workers && t.workers[v] == s.workers[v]
    requires j in s.jobs && s.jobs[j].status in {Queued, Retrying}
    requires t.jobs == s.jobs[j := s.jobs[j].(status := Running)] && t.nextJob == s.nextJob && t.snaps == s.snaps
    ensures AtWork(t, v) && s.workers[v].job != j
  {
    assert LeftAlone(s, t, s.workers[v]);
    hide AtWork, LeftAlone;
    StaysAtWork(s, t, v);
  }

  lemma NewAtWork(s: State, w: nat, j: nat)
    requires JobsFit(s) && w !in s.workers && j in s.jobs && s.jobs[j].status in {Queued, Retrying}
    ensures ClaimJob(s, w, j).workers.Keys == s.workers.Keys + {w}
    ensures ClaimJob(s, w, j).workers[w].job == j && AtWork(ClaimJob(s, w, j), w)
  {
    assert s.jobs[j].prop in s.props;
    assert s.jobs[j].keys[0..] == s.jobs[j].keys;
  }

  lemma ClaimGoesOn(s: State, w: nat, j: nat)
    requires AllAtWork(s) && JobsFit(s)
    ensures AllAtWork(ClaimJob(s, w, j))
  {
    if w in s.workers || j !in s.jobs || s.jobs[j].prop !in s.props {
    } else if s.jobs[j].status !in {Queued, Retrying} {
    } else {
      var t := ClaimJob(s, w, j);
      NewAtWork(s, w, j);
      hide AtWork, JobsFit;
      forall v | v in t.workers && v != w
        ensures AtWork(t, v) && t.workers[v] == s.workers[v] && t.workers[v].job != j
      {
        OthersStay(s, t, v, j);
      }
    }
  }

  lemma RecoverGoesOn(s: State, j: nat)
    requires AllAtWork(s)
    ensures AllAtWork(RecoverJob(s, j))
  {
    if j in s.jobs && Active(s.jobs[j].status) {
      var t := RecoverJob(s, j);
      forall w | w in t.workers
        ensures LeftAlone(s, t, s.workers[w])
      {
        assert AtWork(s, w);
      }
      hide AllAtWork, LeftAlone;
      NobodyMoves(s, t);
    }
  }

  /** Where no job of a property is unfinished, its reports may go. */
  lemma WipedGoesOn(s: State, t: State, pk: nat)
    requires AllAtWork(s) && !HasUnfinished(s.jobs, pk)
    requires t.workers == s.workers && t.jobs == s.jobs && t.nextJob == s.nextJob
    requires forall a :: a in s.snaps && a.pk != pk ==> a in t.snaps
    ensures AllAtWork(t)
  {
    forall w | w in t.workers
      ensures LeftAlone(s, t, s.workers[w])
    {
      assert AtWork(s, w);
    }
    hide AllAtWork, LeftAlone;
    NobodyMoves(s, t);
  }

  lemma RelinkGoesOn(s: State, pk: nat, source: Source, keys: seq<Key>)
    requires AllAtWork(s) && JobsFit(s) && pk in s.props && !HasUnfinished(s.jobs, pk)
    ensures AllAtWork(Relink(s, pk, source, keys))
  {
    RelinkFits(s, pk, source, keys);
    hide AllAtWork, JobsFit, Busy;
    var wiped := s.(snaps := Wiped(s.snaps, pk));
    WipedGoesOn(s, wiped, pk);
    SameRowsFit(s, wiped);
    BusyMeansUnfinished(s.jobs, pk);
    hide HasUnfinished, Wiped;
    QueueGoesOn(wiped, Relink(s, pk, source, keys), Job(pk, keys, Queued));
  }

  lemma SameRowsFit(s: State, t: State)
    requires JobsFit(s) && t.props == s.props && t.slots == s.slots && t.nextPk == s.nextPk
    requires t.jobs == s.jobs && t.nextJob == s.nextJob
    ensures JobsFit(t)
  {
  }

  lemma FirstLinkGoesOn(s: State, slot: Slot, source: Source, keys: seq<Key>)
    requires AllAtWork(s) && JobsFit(s) && slot !in s.slots
    ensures AllAtWork(FirstLink(s, slot, source, keys))
  {
    FirstLinkFits(s, slot, source, keys);
    FirstLinkMakesRow(s, slot, source, keys);
    hide AllAtWork, JobsFit, Busy, NewRow, FirstLink;
    var t := FirstLink(s, slot, source, keys);
    assert t.workers == s.workers by { NewRowKeepsWorkers(s, slot, source); }
    assert t.nextJob == s.nextJob + 1 by { FirstLinkCounts(s, slot, source, keys); }
    QueueGoesOn(s, t, Job(s.nextPk, keys, Queued));
  }

  lemma NewRowKeepsWorkers(s: State, slot: Slot, source: Source)
    ensures NewRow(s, slot, source).workers == s.workers
  {
  }

  lemma FirstLinkCounts(s: State, slot: Slot, source: Source, keys: seq<Key>)
    requires JobsFit(s) && slot !in s.slots
    ensures FirstLink(s, slot, source, keys).nextJob == s.nextJob + 1
  {
    NewRowFits(s, slot, source);
    BusyMeansUnfinished(s.jobs, s.nextPk);
    FirstLinkMakesRow(s, slot, source, keys);
    hide JobsFit, Busy, FirstLink;
  }

  lemma LinkGoesOn(s: State, e: Event)
    requires AllAtWork(s) && JobsFit(s) && e.Link?
    ensures AllAtWork(Step(s, e))
  {
    hide AllAtWork, JobsFit, Relink, FirstLink, Busy, WebsiteBusy, LinkRefused;
    if !LinkRefused(s, e.slot, e.timezoneChanges) {
      LinkTakes(s, e);
      if e.slot in s.slots {
        BusyMeansUnfinished(s.jobs, s.slots[e.slot]);
        RelinkGoesOn(s, s.slots[e.slot], e.source, e.keys);
      } else {
        FirstLinkGoesOn(s, e.slot, e.source, e.keys);
      }
    } else {
      RefusedChangesNothing(s, e);
    }
  }

  lemma RefusedChangesNothing(s: State, e: Event)
    requires e.Link? && LinkRefused(s, e.slot, e.timezoneChanges)
    ensures Step(s, e) == s
  {
    hide Relink, FirstLink, Busy, WebsiteBusy;
  }

  lemma UnlinkGoesOn(s: State, slot: Slot)
    requires AllAtWork(s)
    ensures AllAtWork(UnlinkProperty(s, slot))
  {
    if slot in s.slots {
      BusyMeansUnfinished(s.jobs, s.slots[slot]);
    }
    hide Busy;
    if !Linked(s, slot) || Busy(s.jobs, s.slots[slot]) {
    } else {
      var t := UnlinkProperty(s, slot);
      forall w | w in t.workers
        ensures LeftAlone(s, t, s.workers[w])
      {
        assert AtWork(s, w);
      }
      hide AllAtWork, LeftAlone, UnlinkProperty;
      NobodyMoves(s, t);
    }
  }

  lemma ReaderGoesOn(s: State, e: Event)
    requires AllAtWork(s) && (OfReader(e) || e.Load? || e.Evict?)
    ensures AllAtWork(Step(s, e))
  {
    hide AllAtWork, NextProgress, NextCache;
    if OfReader(e) {
      if e.r in s.readers {
        SameJobs(s, ReaderStep(s, e.r, s.readers[e.r], e));
      }
    } else if e.Load? {
      if e.pk in s.props {
        SameJobs(s, LoadRow(s, e.r, e.pk, e.key));
      }
    } else {
      SameJobs(s, s.(cache := s.cache - {e.entry}));
    }
  }

  lemma StepGoesOn(s: State, e: Event)
    requires AllAtWork(s) && JobsFit(s)
    ensures AllAtWork(Step(s, e))
  {
    hide AllAtWork, JobsFit, ClaimJob, RecoverJob, LinkProperty, UnlinkProperty, WorkerStep, Busy;
    if OfWorker(e) {
      if e.w in s.workers {
        WorkerGoesOn(s, e);
      }
    } else if OfReader(e) || e.Load? || e.Evict? {
      ReaderGoesOn(s, e);
    } else if e.Queue? {
      if e.pk in s.props && !Busy(s.jobs, e.pk) {
        QueueGoesOn(s, Step(s, e), Job(e.pk, e.keys, Queued));
      }
    } else if e.Claim? {
      ClaimGoesOn(s, e.w, e.job);
    } else if e.Recover? {
      RecoverGoesOn(s, e.job);
    } else if e.Link? {
      LinkGoesOn(s, e);
    } else {
      UnlinkGoesOn(s, e.slot);
    }
  }

  lemma {:induction false} RunsGoOn(es: seq<Event>)
    ensures AllAtWork(Run(EMPTY, es))
  {
    hide Step, JobsFit;
    if es != [] {
      RunsGoOn(es[..|es| - 1]);
      RunsFit(es[..|es| - 1]);
      StepGoesOn(Run(EMPTY, es[..|es| - 1]), es[|es| - 1]);
    }
  }

  /** In every run, when a worker completes a job that is still running, every report of the job is stored, for the
      property that gets the new revision. */
  lemma CompletedJobsAreWhole(es: seq<Event>, w: nat)
    requires var s := Run(EMPTY, es);
             && w in s.workers && s.workers[w].todo == [] && s.workers[w].holding.None?
             && s.workers[w].job in s.jobs && s.jobs[s.workers[w].job].status == Running
    ensures var s, t := Run(EMPTY, es), Step(Run(EMPTY, es), Event.CompleteJob(w));
            var j := s.workers[w].job;
            && j in t.jobs && t.jobs[j].status == Complete
            && forall i :: 0 <= i < |t.jobs[j].keys| ==> At(t.jobs[j].prop, t.jobs[j].keys[i]) in t.snaps
  {
    RunsGoOn(es);
    RunsFit(es);
    assert AtWork(Run(EMPTY, es), w);
    hide Run;
  }
}
