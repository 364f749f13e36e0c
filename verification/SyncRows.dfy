/** The rows that syncs and relinks share, and the code that updates them in place. */
module SyncRows {
  import opened Text
  import opened Sync

  /** A job that is neither complete nor failed. */
  predicate Unfinished(job: Job) {
    job.status != Complete && job.status != Failed
  }

  ghost predicate HasUnfinished(jobs: map<nat, Job>, pk: nat) {
    exists j :: j in jobs && jobs[j].prop == pk && Unfinished(jobs[j])
  }

  function GivenUp(job: Job): Job {
    if job.status in {Complete, Failed} then job else job.(status := Failed)
  }

  lemma BusyMeansUnfinished(jobs: map<nat, Job>, pk: nat)
    ensures Busy(jobs, pk) <==> HasUnfinished(jobs, pk)
  {
    if Busy(jobs, pk) {
      var j :| j in jobs && jobs[j].prop == pk && Active(jobs[j].status);
      assert Unfinished(jobs[j]);
    }
    if HasUnfinished(jobs, pk) {
      var j :| j in jobs && jobs[j].prop == pk && Unfinished(jobs[j]);
      assert Active(jobs[j].status);
    }
  }

  /** The stored reports of a property are gone, and all others are still there. */
  ghost predicate OthersKept(before: map<At, Snap>, after: map<At, Snap>, pk: nat) {
    forall a :: (a in after <==> a in before && a.pk != pk) && (a in after ==> after[a] == before[a])
  }

  /** There is one job more, the only one of its property to finish. */
  ghost predicate JobAdded(before: map<nat, Job>, after: map<nat, Job>, n: nat, job: Job) {
    && after == before[n := job]
    && forall j :: j in after && after[j].prop == job.prop ==> (Unfinished(after[j]) <==> j == n)
  }

  /** `link_property` finds the property of the slot busy, or any of the website where the timezone changes. */
  ghost predicate MustWait(slots: map<Slot, nat>, props: map<nat, Prop>, jobs: map<nat, Job>,
                           slot: Slot, timezoneChanges: bool)
  {
    || (slot in slots && slots[slot] in props && HasUnfinished(jobs, slots[slot]))
    || (timezoneChanges
        && exists other :: other in slots && other.website == slot.website && HasUnfinished(jobs, slots[other]))
  }

  lemma WaitingIsRefused(s: State, slot: Slot, timezoneChanges: bool)
    ensures MustWait(s.slots, s.props, s.jobs, slot, timezoneChanges) <==> LinkRefused(s, slot, timezoneChanges)
  {
    forall other | other in s.slots
      ensures Busy(s.jobs, s.slots[other]) <==> HasUnfinished(s.jobs, s.slots[other])
    {
      BusyMeansUnfinished(s.jobs, s.slots[other]);
    }
    hide Busy, HasUnfinished;
  }

  /** The worker is one report further. */
  predicate Advanced(before: Worker, w: nat, workers: map<nat, Worker>)
    requires before.todo != []
  {
    w in workers && workers[w] == before.(todo := before.todo[1..], holding := None)
  }

  /** A job that was still running is to be tried again, or has failed. */
  predicate Ended(before: map<nat, Job>, after: map<nat, Job>, worker: Worker, retry: bool) {
    worker.job in before && Unfinished(before[worker.job]) ==>
      after == before[worker.job := before[worker.job].(status := if retry then Retrying else Failed)]
  }

  /** A job that a worker may take: queued or to be tried again, for a property that is still there. */
  predicate Claimable(jobs: map<nat, Job>, props: map<nat, Prop>, j: nat) {
    j in jobs && jobs[j].prop in props && (jobs[j].status == Queued || jobs[j].status == Retrying)
  }

  /** The fetch of a report fails and no stored report makes it needless. */
  predicate FetchFails(snaps: map<At, Snap>, settled: set<Key>, errors: map<Key, bool>, pk: nat, key: Key) {
    key in errors && !(key in settled && At(pk, key) in snaps)
  }

  /** The report is stored, by a fetch later than number `n` unless it was settled. */
  predicate Synced(snaps: map<At, Snap>, settled: set<Key>, pk: nat, source: Source, key: Key, n: nat) {
    At(pk, key) in snaps
    && (key !in settled ==> snaps[At(pk, key)].fetched > n && snaps[At(pk, key)].source == source)
  }

  /** The first `done` reports are synced, and no report whose fetch fails has been added. */
  ghost predicate SyncedUpTo(was: map<At, Snap>, snaps: map<At, Snap>, settled: set<Key>, errors: map<Key, bool>,
                             worker: Worker, n: nat, done: nat)
  {
    && done <= |worker.todo|
    && (forall i :: 0 <= i < done ==>
          && !FetchFails(was, settled, errors, worker.prop, worker.todo[i])
          && Synced(snaps, settled, worker.prop, worker.source, worker.todo[i], n))
    && (forall key :: key in errors ==> (At(worker.prop, key) in snaps <==> At(worker.prop, key) in was))
  }

  lemma OneMoreSynced(was: map<At, Snap>, snaps: map<At, Snap>, after: map<At, Snap>, settled: set<Key>,
                      errors: map<Key, bool>, worker: Worker, n: nat, done: nat)
    requires SyncedUpTo(was, snaps, settled, errors, worker, n, done) && done < |worker.todo|
    requires var key := worker.todo[done];
             var a := At(worker.prop, key);
             if key in settled && a in snaps then after == snaps
             else key !in errors && a in after && after[a].source == worker.source && after[a].fetched > n
                  && after == snaps[a := after[a]]
    ensures SyncedUpTo(was, after, settled, errors, worker, n, done + 1)
  {
  }

  lemma NoneSynced(was: map<At, Snap>, settled: set<Key>, errors: map<Key, bool>, worker: Worker, n: nat)
    ensures SyncedUpTo(was, was, settled, errors, worker, n, 0)
  {
  }

  /** The reports before the first whose fetch fails are those that are synced. */
  lemma AllOrFirst(was: map<At, Snap>, snaps: map<At, Snap>, settled: set<Key>, errors: map<Key, bool>,
                   worker: Worker, n: nat, done: nat)
    requires SyncedUpTo(was, snaps, settled, errors, worker, n, done)
    ensures forall i :: 0 <= i < done ==>
              && !FetchFails(was, settled, errors, worker.prop, worker.todo[i])
              && Synced(snaps, settled, worker.prop, worker.source, worker.todo[i], n)
  {
  }

  lemma FailsThere(was: map<At, Snap>, snaps: map<At, Snap>, settled: set<Key>, errors: map<Key, bool>,
                   worker: Worker, n: nat, done: nat)
    requires SyncedUpTo(was, snaps, settled, errors, worker, n, done) && done < |worker.todo|
    requires worker.todo[done] in errors && !(worker.todo[done] in settled && At(worker.prop, worker.todo[done]) in snaps)
    ensures FetchFails(was, settled, errors, worker.prop, worker.todo[done])
  {
  }

  class Database {
    var props: map<nat, Prop>
    var slots: map<Slot, nat>
    var nextPk: nat
    var jobs: map<nat, Job>
    var nextJob: nat
    var snaps: map<At, Snap>
    var fetches: nat
    var stores: nat
    var workers: map<nat, Worker>
    var cache: map<CacheKey, Entry>
    var readers: map<nat, Reader>
    var began: map<Version, Began>

    function View(): State
      reads this
    {
      State(props, slots, nextPk, jobs, nextJob, snaps, fetches, stores, workers, cache, readers, began)
    }

    constructor ()
      ensures View() == EMPTY
    {
      props, slots, nextPk, jobs, nextJob, snaps := map[], map[], 0, map[], 0, map[];
      fetches, stores, workers, cache, readers, began := 0, 0, map[], map[], map[], map[];
    }

    /** A job for a property that has none to finish. */
    method QueueSync(pk: nat, keys: seq<Key>)
      modifies this`jobs, this`nextJob
      ensures View() == Sync.QueueSync(old(View()), pk, keys)
      ensures if pk in props && !HasUnfinished(old(jobs), pk) then
                jobs == old(jobs)[old(nextJob) := Job(pk, keys, Queued)] && nextJob == old(nextJob) + 1
              else jobs == old(jobs) && nextJob == old(nextJob)
    {
      BusyMeansUnfinished(jobs, pk);
      if pk in props && !Busy(jobs, pk) {
        jobs := jobs[nextJob := Job(pk, keys, Queued)];
        nextJob := nextJob + 1;
      }
    }

    /** The first transaction of `sync_job`. */
    method ClaimJob(w: nat, j: nat) returns (claimed: bool)
      modifies this`jobs, this`workers
      ensures View() == Sync.ClaimJob(old(View()), w, j)
      ensures w !in old(workers) && w in workers ==> workers[w].holding.None?
      ensures claimed <==>
                && w !in old(workers) && j in old(jobs) && old(jobs)[j].prop in props
                && (old(jobs)[j].status == Queued || old(jobs)[j].status == Retrying)
      ensures claimed ==>
                && jobs == old(jobs)[j := old(jobs)[j].(status := Running)]
                && workers == old(workers)[w := Worker(j, jobs[j].prop, props[jobs[j].prop].source, jobs[j].keys, None)]
      ensures !claimed ==> View() == old(View()) && workers == old(workers)
    {
      if w in workers || j !in jobs || jobs[j].prop !in props {
        return false;
      }
      if jobs[j].status !in {Queued, Retrying} {
        return false;
      }
      var pk := jobs[j].prop;
      jobs := jobs[j := jobs[j].(status := Running)];
      workers := workers[w := Worker(j, pk, props[pk].source, jobs[j].keys, None)];
      return true;
    }

    /** The transaction around one report. */
    method StoreReport(w: nat)
      requires w in workers && workers[w].todo != [] && workers[w].holding.Some?
      modifies this`snaps, this`stores, this`workers
      ensures View() == Sync.StoreReport(old(View()), w, old(workers[w]))
      ensures w in workers ==> workers[w] == old(workers[w]).(todo := old(workers[w]).todo[1..], holding := None)
      ensures var worker := old(workers[w]);
              if worker.prop in props && props[worker.prop].source == worker.source then
                && w in workers && stores == old(stores) + 1
                && snaps == old(snaps)[At(worker.prop, worker.todo[0]) :=
                                         Snap(worker.source, worker.holding.value, stores)]
              else w !in workers && stores == old(stores) && snaps == old(snaps)
    {
      var worker := workers[w];
      if worker.prop !in props || props[worker.prop].source != worker.source {
        workers := workers - {w};
      } else {
        snaps := snaps[At(worker.prop, worker.todo[0]) := Snap(worker.source, worker.holding.value, stores + 1)];
        stores := stores + 1;
        workers := workers[w := worker.(todo := worker.todo[1..], holding := None)];
      }
    }

    method RaiseRevision(pk: nat)
      requires pk in props
      modifies this`props, this`began
      ensures View() == Bump(old(View()), pk)
      ensures props == old(props)[pk := Prop(old(props)[pk].source, old(props)[pk].revision + 1)]
    {
      var revision := props[pk].revision + 1;
      props := props[pk := props[pk].(revision := revision)];
      began := began[Version(pk, revision) := Began(props[pk].source, snaps)];
    }

    /** The last transaction of `sync_job`. */
    method CompleteJob(w: nat)
      requires w in workers && workers[w].todo == [] && workers[w].holding.None?
      modifies this`props, this`began, this`jobs, this`workers
      ensures View() == Finish(old(View()), w, old(workers[w])) && w !in workers
      ensures var pk, j := old(workers[w]).prop, old(workers[w]).job;
              if pk in old(props) then
                && props == old(props)[pk := Prop(old(props)[pk].source, old(props)[pk].revision + 1)]
                && jobs == if j in old(jobs) then old(jobs)[j := old(jobs)[j].(status := Complete)] else old(jobs)
              else props == old(props) && jobs == old(jobs)
    {
      var worker := workers[w];
      if worker.prop in props {
        RaiseRevision(worker.prop);
        jobs := SetStatus(jobs, worker.job, Complete);
      }
      workers := workers - {w};
    }

    /** The error branches of `synchronize`. */
    method FailJob(w: nat, retry: bool)
      requires w in workers
      modifies this`jobs, this`workers
      ensures View() == Fail(old(View()), w, old(workers[w]), retry) && w !in workers
      ensures var j := old(workers[w]).job;
              if j !in old(jobs) then jobs == old(jobs)
              else if !retry then jobs == old(jobs)[j := old(jobs)[j].(status := Failed)]
              else if Unfinished(old(jobs)[j]) || !HasUnfinished(old(jobs), old(jobs)[j].prop) then
                jobs == old(jobs)[j := old(jobs)[j].(status := Retrying)]
              else jobs == old(jobs)
    {
      if workers[w].job in jobs {
        BusyMeansUnfinished(jobs, jobs[workers[w].job].prop);
      }
      var j := workers[w].job;
      if !retry {
        jobs := SetStatus(jobs, j, Failed);
      } else if MayRetry(View(), j) {
        jobs := SetStatus(jobs, j, Retrying);
      }
      workers := workers - {w};
    }

    method Keep(w: nat)
      requires w in workers && workers[w].todo != [] && workers[w].holding.None?
      requires At(workers[w].prop, workers[w].todo[0]) in snaps
      modifies this`workers
      ensures View() == KeepReport(old(View()), w, old(workers[w]))
      ensures w in workers && workers[w] == old(workers[w]).(todo := old(workers[w]).todo[1..])
    {
      workers := workers[w := workers[w].(todo := workers[w].todo[1..])];
    }

    method Fetch(w: nat)
      requires w in workers && workers[w].todo != [] && workers[w].holding.None?
      modifies this`workers, this`fetches
      ensures View() == FetchReport(old(View()), w, old(workers[w]))
      ensures fetches == old(fetches) + 1
      ensures w in workers && workers[w] == old(workers[w]).(holding := Some(fetches))
    {
      fetches := fetches + 1;
      workers := workers[w := workers[w].(holding := Some(fetches))];
    }

    /** One turn of the loop of `sync_job`. */
    method SyncReport(w: nat, settled: set<Key>, errors: map<Key, bool>) returns (events: seq<Event>)
      requires w in workers && workers[w].todo != [] && workers[w].holding.None?
      modifies this`jobs, this`workers, this`snaps, this`stores, this`fetches
      ensures View() == Run(old(View()), events)
      ensures var worker, n := old(workers[w]), old(fetches) + 1;
              var key := worker.todo[0];
              var a := At(worker.prop, key);
              if key in settled && a in old(snaps) then
                jobs == old(jobs) && snaps == old(snaps) && Advanced(worker, w, workers)
              else if key in errors then
                w !in workers && snaps == old(snaps) && Ended(old(jobs), jobs, worker, errors[key])
              else if worker.prop in props && props[worker.prop].source == worker.source then
                && jobs == old(jobs) && Advanced(worker, w, workers)
                && snaps == old(snaps)[a := Snap(worker.source, n, old(stores) + 1)]
              else w !in workers && jobs == old(jobs) && snaps == old(snaps)
      ensures fetches >= old(fetches)
    {
      hide Step, Run, KeepReport, FetchReport, Sync.StoreReport, Fail, HasUnfinished;
      ghost var before := View();
      var key := workers[w].todo[0];
      WorkerSteps(before, w, errors);
      if key in settled && At(workers[w].prop, key) in snaps {
        Keep(w);
        events := [Event.Keep(w)];
        RunOne(before, events[0]);
      } else if key in errors {
        FailJob(w, errors[key]);
        events := [Event.FailJob(w, errors[key])];
        RunOne(before, events[0]);
      } else {
        Fetch(w);
        WorkerSteps(View(), w, errors);
        RunOne(before, Event.Fetch(w));
        StoreReport(w);
        RunMore(before, [Event.Fetch(w)], Store(w));
        events := [Event.Fetch(w)] + [Store(w)];
      }
    }

    /** `sync_job` and its caller, by a worker that nobody interrupts: `settled` are the reports whose window is
        old enough to keep, `errors` the fetches that fail, each with whether the job is to be retried. The
        rows end up as after the events it returns. */
    method SyncJob(w: nat, j: nat, settled: set<Key>, errors: map<Key, bool>) returns (events: seq<Event>)
      requires w !in workers
      modifies this`props, this`began, this`jobs, this`workers, this`snaps, this`stores, this`fetches
      ensures View() == Run(old(View()), events) && w !in workers
      ensures !Claimable(old(jobs), old(props), j) ==> View() == old(View())
      ensures Claimable(old(jobs), old(props), j) ==>
                var job := old(jobs)[j];
                var pk, keys, prop := job.prop, job.keys, old(props)[job.prop];
                && ((forall i :: 0 <= i < |keys| ==> !FetchFails(old(snaps), settled, errors, pk, keys[i])) ==>
                      && jobs == old(jobs)[j := job.(status := Complete)]
                      && props == old(props)[pk := Prop(prop.source, prop.revision + 1)]
                      && forall i :: 0 <= i < |keys| ==> Synced(snaps, settled, pk, prop.source, keys[i], old(fetches)))
                && (forall f :: 0 <= f < |keys| && FetchFails(old(snaps), settled, errors, pk, keys[f])
                                && (forall i :: 0 <= i < f ==> !FetchFails(old(snaps), settled, errors, pk, keys[i])) ==>
                      && jobs == old(jobs)[j := job.(status := if errors[keys[f]] then Retrying else Failed)]
                      && props == old(props))
    {
      hide Step, Run, View, Synced, SyncedUpTo;
      ghost var before := View();
      events := [Claim(w, j)];
      var claimed := ClaimJob(w, j);
      ClaimSteps(before, w, j);
      RunOne(before, Claim(w, j));
      if !claimed {
        return;
      }
      ghost var start, running, done := workers[w], jobs, 0;
      NoneSynced(old(snaps), settled, errors, start, old(fetches));
      while w in workers && workers[w].todo != []
        invariant View() == Run(before, events)
        invariant props == old(props) && fetches >= old(fetches) && done <= |start.todo|
        invariant SyncedUpTo(old(snaps), snaps, settled, errors, start, old(fetches), done)
        invariant w in workers ==> jobs == running && workers[w] == start.(todo := start.todo[done..])
        invariant w !in workers ==>
                    && done < |start.todo| && FetchFails(old(snaps), settled, errors, start.prop, start.todo[done])
                    && jobs == running[j := running[j].(status := if errors[start.todo[done]] then Retrying else Failed)]
        decreases if w in workers then |workers[w].todo| + 1 else 0
      {
        ghost var key, stored := start.todo[done], snaps;
        assert workers[w].todo[0] == key && workers[w].todo[1..] == start.todo[done + 1..];
        var more := SyncReport(w, settled, errors);
        RunJoin(before, events, more);
        events := events + more;
        if w in workers {
          OneMoreSynced(old(snaps), stored, snaps, settled, errors, start, old(fetches), done);
          done := done + 1;
        } else {
          FailsThere(old(snaps), stored, settled, errors, start, old(fetches), done);
        }
      }
      if w in workers {
        ghost var turn := View();
        ViewWorkers();
        CompleteJob(w);
        WorkerSteps(turn, w, map[]);
        RunMore(before, events, Event.CompleteJob(w));
        events := events + [Event.CompleteJob(w)];
      }
      AllOrFirst(old(snaps), snaps, settled, errors, start, old(fetches), done);
    }

    lemma ViewWorkers()
      ensures View().workers == workers
    {
    }

    /** One stale job. */
    method RecoverOne(j: nat)
      modifies this`jobs
      ensures View() == Step(old(View()), Recover(j))
      ensures jobs == if j in old(jobs) && Unfinished(old(jobs)[j]) then old(jobs)[j := old(jobs)[j].(status := Failed)]
                      else old(jobs)
    {
      if j in jobs && Active(jobs[j].status) {
        jobs := jobs[j := jobs[j].(status := Failed)];
      }
    }

    /** The recovery at the start of `enqueue_syncs`: every stale job that is not finished fails. */
    method RecoverStale(stale: seq<nat>) returns (events: seq<Event>)
      modifies this`jobs
      ensures View() == Run(old(View()), events)
      ensures jobs.Keys == old(jobs.Keys)
      ensures forall j :: j in jobs && j in stale ==> jobs[j] == GivenUp(old(jobs)[j])
      ensures forall j :: j in jobs && j !in stale ==> jobs[j] == old(jobs)[j]
    {
      hide Step, Run, View;
      ghost var before := View();
      events := [];
      assert Run(before, []) == before by { RunNone(before); }
      for k := 0 to |stale|
        invariant View() == Run(before, events)
        invariant jobs.Keys == old(jobs.Keys)
        invariant forall j :: j in jobs && j in stale[..k] ==> jobs[j] == GivenUp(old(jobs)[j])
        invariant forall j :: j in jobs && j !in stale[..k] ==> jobs[j] == old(jobs)[j]
      {
        RunMore(before, events, Recover(stale[k]));
        RecoverOne(stale[k]);
        assert stale[..k + 1] == stale[..k] + [stale[k]];
        events := events + [Recover(stale[k])];
      }
    }

    method Relink(pk: nat, source: Source, keys: seq<Key>)
      requires pk in props
      modifies this`props, this`snaps, this`began, this`jobs, this`nextJob
      ensures View() == Sync.Relink(old(View()), pk, source, keys)
      ensures props == old(props)[pk := Prop(source, old(props)[pk].revision + 1)] && OthersKept(old(snaps), snaps, pk)
      ensures !HasUnfinished(old(jobs), pk) ==> JobAdded(old(jobs), jobs, old(nextJob), Job(pk, keys, Queued))
    {
      hide Busy;
      props := props[pk := props[pk].(source := source)];
      snaps := Wiped(snaps, pk);
      RaiseRevision(pk);
      QueueSync(pk, keys);
    }

    /** A slot gets a new row, at its first revision. */
    method AddRow(slot: Slot, source: Source)
      modifies this`props, this`slots, this`nextPk, this`began
      ensures View() == NewRow(old(View()), slot, source)
      ensures slots == old(slots)[slot := old(nextPk)] && props == old(props)[old(nextPk) := Prop(source, 1)]
    {
      var pk := nextPk;
      props := props[pk := Prop(source, 0)];
      slots := slots[slot := pk];
      nextPk := pk + 1;
      RaiseRevision(pk);
    }

    method FirstLink(slot: Slot, source: Source, keys: seq<Key>)
      modifies this`props, this`slots, this`nextPk, this`began, this`jobs, this`nextJob
      ensures View() == Sync.FirstLink(old(View()), slot, source, keys)
      ensures slots == old(slots)[slot := old(nextPk)] && props == old(props)[old(nextPk) := Prop(source, 1)]
      ensures !HasUnfinished(old(jobs), old(nextPk)) ==>
                JobAdded(old(jobs), jobs, old(nextJob), Job(old(nextPk), keys, Queued))
    {
      hide Busy, Sync.FirstLink, NewRow, Sync.QueueSync;
      FirstLinkMakesRow(View(), slot, source, keys);
      var pk := nextPk;
      AddRow(slot, source);
      QueueSync(pk, keys);
    }

    /** The transaction of `link_property`; false stands for its refusal. A link wipes the reports of its property,
        raises its revision and queues a job at once, the only one of that property to finish. */
    method LinkProperty(slot: Slot, source: Source, timezoneChanges: bool, keys: seq<Key>) returns (linked: bool)
      modifies this`props, this`slots, this`nextPk, this`snaps, this`began, this`jobs, this`nextJob
      ensures View() == Sync.LinkProperty(old(View()), slot, source, timezoneChanges, keys)
      ensures linked <==> !MustWait(old(slots), old(props), old(jobs), slot, timezoneChanges)
      ensures !linked ==> View() == old(View())
      ensures linked && slot in old(slots) && old(slots)[slot] in old(props) ==>
                var pk := old(slots)[slot];
                && slots == old(slots) && OthersKept(old(snaps), snaps, pk)
                && props == old(props)[pk := Prop(source, old(props)[pk].revision + 1)]
                && JobAdded(old(jobs), jobs, old(nextJob), Job(pk, keys, Queued))
      ensures linked && !(slot in old(slots) && old(slots)[slot] in old(props)) ==>
                var pk := old(nextPk);
                && slots == old(slots)[slot := pk] && props == old(props)[pk := Prop(source, 1)]
                && (!HasUnfinished(old(jobs), pk) ==>
                      JobAdded(old(jobs), jobs, old(nextJob), Job(pk, keys, Queued)))
    {
      hide Busy, WebsiteBusy, Sync.Relink, Sync.FirstLink, JobAdded, OthersKept, HasUnfinished;
      WaitingIsRefused(View(), slot, timezoneChanges);
      if Linked(View(), slot) && Busy(jobs, slots[slot]) {
        return false;
      }
      if timezoneChanges && WebsiteBusy(View(), slot.website) {
        return false;
      }
      if Linked(View(), slot) {
        Relink(slots[slot], source, keys);
      } else {
        FirstLink(slot, source, keys);
      }
      return true;
    }

    method UnlinkProperty(slot: Slot) returns (unlinked: bool)
      modifies this`props, this`slots, this`snaps, this`jobs
      ensures View() == Sync.UnlinkProperty(old(View()), slot)
      ensures unlinked <==>
                && slot in old(slots) && old(slots)[slot] in old(props)
                && !HasUnfinished(old(jobs), old(slots)[slot])
      ensures !unlinked ==> View() == old(View())
      ensures unlinked ==>
                var pk := old(slots)[slot];
                && slots == old(slots) - {slot} && props == old(props) - {pk}
                && OthersKept(old(snaps), snaps, pk)
                && (forall j :: j in jobs <==> j in old(jobs) && old(jobs)[j].prop != pk)
                && (forall j :: j in jobs ==> jobs[j] == old(jobs)[j])
    {
      if slot in slots {
        BusyMeansUnfinished(jobs, slots[slot]);
      }
      if !Linked(View(), slot) || Busy(jobs, slots[slot]) {
        return false;
      }
      var pk := slots[slot];
      props := props - {pk};
      slots := slots - {slot};
      snaps := Wiped(snaps, pk);
      jobs := map j | j in jobs && jobs[j].prop != pk :: jobs[j];
      return true;
    }

    /** `snapshot`, for a reader that nobody interrupts after it loaded the row. */
    method Snapshot(r: nat) returns (result: Option<Entry>)
      requires r in readers && readers[r].progress == Loaded
      modifies this`readers, this`cache
      ensures View() == Step(Step(Step(old(View()), LookUp(r)), ReadStored(r)), Fill(r))
      ensures readers[r].progress == Finished(result)
      ensures var reader := old(readers[r]);
              var key, a := CacheKey(reader.version, reader.key), At(reader.version.pk, reader.key);
              if key in old(cache) then result == Some(old(cache)[key]) && cache == old(cache)
              else if a in snaps && a.pk in props then
                && result == Some(Entry(snaps[a], props[a.pk].revision))
                && cache == old(cache)[key := result.value]
              else result == None && cache == old(cache)
    {
      hide Step;
      LoneRead(View(), r);
      var reader := readers[r];
      var key := CacheKey(reader.version, reader.key);
      if key in cache {
        result := Some(cache[key]);
      } else {
        var a := At(reader.version.pk, reader.key);
        if a in snaps && a.pk in props {
          result := Some(Entry(snaps[a], props[a.pk].revision));
          cache := cache[key := result.value];
        } else {
          result := None;
        }
      }
      readers := readers[r := reader.(progress := Finished(result))];
    }
  }

  lemma RunMore(s: State, es: seq<Event>, e: Event)
    ensures Run(s, es + [e]) == Step(Run(s, es), e)
  {
    assert (es + [e])[..|es|] == es;
  }

  lemma RunNone(s: State)
    ensures Run(s, []) == s
  {
  }

  lemma RunOne(s: State, e: Event)
    ensures Run(s, [e]) == Step(s, e)
  {
    assert [e][..0] == [];
    assert Run(s, []) == s;
  }

  lemma {:induction false} RunJoin(s: State, es: seq<Event>, more: seq<Event>)
    ensures Run(s, es + more) == Run(Run(s, es), more)
  {
    hide Step;
    if more == [] {
      assert es + more == es;
    } else {
      var n := |more| - 1;
      RunJoin(s, es, more[..n]);
      assert es + more == (es + more[..n]) + [more[n]];
      RunMore(s, es + more[..n], more[n]);
    }
  }

  lemma ReaderSteps(s: State, r: nat, e: Event)
    requires OfReader(e) && !OfWorker(e) && e.r == r && r in s.readers
    ensures Step(s, e) == s.(readers := s.readers[r := s.readers[r].(progress := NextProgress(s, s.readers[r], e))],
                             cache := NextCache(s, s.readers[r], e))
  {
    hide NextProgress, NextCache;
  }

  /** The three steps of a reader that nobody interrupts. */
  lemma LoneRead(s: State, r: nat)
    requires r in s.readers && s.readers[r].progress == Loaded
    ensures var reader := s.readers[r];
            var key, a := CacheKey(reader.version, reader.key), At(reader.version.pk, reader.key);
            var found := if key in s.cache then Some(s.cache[key])
                         else if a in s.snaps && a.pk in s.props then Some(Entry(s.snaps[a], s.props[a.pk].revision))
                         else None;
            Step(Step(Step(s, LookUp(r)), ReadStored(r)), Fill(r)) ==
              s.(readers := s.readers[r := reader.(progress := Finished(found))],
                 cache := if key !in s.cache && found.Some? then s.cache[key := found.value] else s.cache)
  {
    var reader := s.readers[r];
    var looked := Step(s, LookUp(r));
    ReaderSteps(s, r, LookUp(r));
    ReaderSteps(looked, r, ReadStored(r));
    var read := Step(looked, ReadStored(r));
    ReaderSteps(read, r, Fill(r));
    hide Step;
    if CacheKey(reader.version, reader.key) in s.cache {
    } else if At(reader.version.pk, reader.key) in s.snaps && reader.version.pk in s.props {
    } else {
    }
  }

  lemma ClaimSteps(s: State, w: nat, j: nat)
    ensures Step(s, Claim(w, j)) == Sync.ClaimJob(s, w, j)
  {
  }

  lemma WorkerSteps(s: State, w: nat, errors: map<Key, bool>)
    requires w in s.workers
    ensures Step(s, Event.Keep(w)) == KeepReport(s, w, s.workers[w])
    ensures Step(s, Event.Fetch(w)) == FetchReport(s, w, s.workers[w])
    ensures Step(s, Store(w)) == Sync.StoreReport(s, w, s.workers[w])
    ensures Step(s, Event.CompleteJob(w)) == Finish(s, w, s.workers[w])
    ensures forall key :: key in errors ==>
              Step(s, Event.FailJob(w, errors[key])) == Fail(s, w, s.workers[w], errors[key])
  {
    hide KeepReport, FetchReport, Sync.StoreReport, Finish, Fail;
  }
}
