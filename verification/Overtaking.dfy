/** Giving up a job whose worker is still at work lets a reader get what was fetched earlier than the last
    completed sync: this can follow from every state in which it happens. */
module Overtaking {
  import opened Text
  import opened Sync
  import opened Provenance
  import opened ReportCache
  import opened SyncOrder
  import opened Freshness

  /** Worker `w` holds fetch `n` of a report for a property that is still linked as the worker read it. */
  ghost predicate Holding(s: State, w: nat, a: At, source: Source, n: nat) {
    && w in s.workers && s.workers[w].prop == a.pk && s.workers[w].source == source
    && s.workers[w].todo != [] && s.workers[w].todo[0] == a.key && s.workers[w].holding == Some(n)
    && a.pk in s.props && s.props[a.pk].source == source && n <= s.fetches
  }

  /** No job of the property is active. */
  ghost predicate Free(s: State, w: nat, v: nat, a: At, source: Source, n: nat) {
    && Holding(s, w, a, source, n) && v !in s.workers && v != w
    && !Busy(s.jobs, a.pk) && s.nextJob !in s.jobs
  }

  lemma GivingUpFrees(s: State, w: nat, pk: nat)
    requires OneActive(s.jobs, s.nextJob) && w in s.workers && s.workers[w].prop == pk
    requires var j := s.workers[w].job; j in s.jobs && s.jobs[j].prop == pk && Active(s.jobs[j].status)
    ensures var t := Step(s, Recover(s.workers[w].job));
            && !Busy(t.jobs, pk) && t.nextJob == s.nextJob && t.nextJob !in t.jobs
            && t.workers == s.workers && t.props == s.props && t.fetches == s.fetches
  {
    assert RecoverJob(s, s.workers[w].job) == s.(jobs := SetStatus(s.jobs, s.workers[w].job, Failed));
  }

  /** Worker `w` has a report to store and a link that still stands. */
  ghost predicate AtWork(s: State, w: nat) {
    && w in s.workers && s.workers[w].todo != []
    && s.workers[w].prop in s.props && s.props[s.workers[w].prop].source == s.workers[w].source
    && var j := s.workers[w].job; j in s.jobs && s.jobs[j].prop == s.workers[w].prop && Active(s.jobs[j].status)
  }

  function PlaceOf(worker: Worker): At
    requires worker.todo != []
  {
    At(worker.prop, worker.todo[0])
  }

  function Held(s: State, worker: Worker): nat {
    if worker.holding.Some? then worker.holding.value else s.fetches + 1
  }

  /** After the fetch the worker holds something, whether it fetched just now or before. */
  lemma FetchingHolds(s: State, w: nat, v: nat)
    requires w in s.workers && s.workers[w].todo != [] && v !in s.workers
    requires s.workers[w].prop in s.props && s.props[s.workers[w].prop].source == s.workers[w].source
    requires !Busy(s.jobs, s.workers[w].prop) && s.nextJob !in s.jobs
    requires s.workers[w].holding.Some? ==> s.workers[w].holding.value <= s.fetches
    ensures Free(Step(s, Fetch(w)), w, v, PlaceOf(s.workers[w]), s.workers[w].source, Held(s, s.workers[w]))
    ensures Step(s, Fetch(w)).nextJob == s.nextJob
  {
    hide Busy;
    var worker := s.workers[w];
    if worker.holding.None? {
      assert FetchReport(s, w, worker)
          == s.(fetches := s.fetches + 1, workers := s.workers[w := worker.(holding := Some(s.fetches + 1))]);
    } else {
      assert FetchReport(s, w, worker) == s;
    }
  }

  /** A new job for the one report waits. */
  ghost predicate Waiting(s: State, w: nat, v: nat, a: At, source: Source, n: nat, j: nat) {
    && Holding(s, w, a, source, n) && v !in s.workers && v != w
    && j in s.jobs && s.jobs[j] == Job(a.pk, [a.key], Queued)
  }

  lemma QueueingWaits(s: State, w: nat, v: nat, a: At, source: Source, n: nat)
    requires Free(s, w, v, a, source, n)
    ensures Waiting(Step(s, Queue(a.pk, [a.key])), w, v, a, source, n, s.nextJob)
  {
    hide Busy;
    assert QueueSync(s, a.pk, [a.key])
        == s.(jobs := s.jobs[s.nextJob := Job(a.pk, [a.key], Queued)], nextJob := s.nextJob + 1);
  }

  /** Worker `v` is on the one report, and holds what it holds. */
  ghost predicate Second(s: State, w: nat, v: nat, a: At, source: Source, n: nat, holding: Option<nat>) {
    && Holding(s, w, a, source, n) && v in s.workers && v != w
    && s.workers[v].prop == a.pk && s.workers[v].source == source
    && s.workers[v].todo == [a.key] && s.workers[v].holding == holding
  }

  lemma ClaimingStarts(s: State, w: nat, v: nat, a: At, source: Source, n: nat, j: nat)
    requires Waiting(s, w, v, a, source, n, j)
    ensures Second(Step(s, Claim(v, j)), w, v, a, source, n, None)
  {
    assert ClaimJob(s, v, j)
        == s.(jobs := SetStatus(s.jobs, j, Running),
              workers := s.workers[v := Worker(j, a.pk, source, [a.key], None)]);
  }

  lemma SecondFetches(s: State, w: nat, v: nat, a: At, source: Source, n: nat)
    requires Second(s, w, v, a, source, n, None)
    ensures Second(Step(s, Fetch(v)), w, v, a, source, n, Some(s.fetches + 1)) && s.fetches + 1 > n
  {
    var worker := s.workers[v];
    assert FetchReport(s, v, worker)
        == s.(fetches := s.fetches + 1, workers := s.workers[v := worker.(holding := Some(s.fetches + 1))]);
  }

  /** The report of fetch `m` is stored, and worker `v` has nothing left to do. */
  ghost predicate StoredLate(s: State, w: nat, v: nat, a: At, source: Source, n: nat, m: nat) {
    && Holding(s, w, a, source, n) && v in s.workers && v != w
    && s.workers[v].prop == a.pk && s.workers[v].todo == [] && s.workers[v].holding == None
    && a in s.snaps && s.snaps[a].fetched == m
  }

  lemma SecondStores(s: State, w: nat, v: nat, a: At, source: Source, n: nat, m: nat)
    requires Second(s, w, v, a, source, n, Some(m))
    ensures StoredLate(Step(s, Store(v)), w, v, a, source, n, m)
  {
    var worker := s.workers[v];
    assert worker.todo[0] == a.key && worker.todo[1..] == [];
    assert StoreReport(s, v, worker)
        == s.(snaps := s.snaps[a := Stored(s, worker)], stores := s.stores + 1,
              workers := s.workers[v := worker.(todo := [], holding := None)]);
  }

  /** A revision begins with the report of fetch `m`, and nothing is cached under it. */
  ghost predicate Begun(s: State, w: nat, a: At, source: Source, n: nat, m: nat) {
    && Holding(s, w, a, source, n)
    && a in s.snaps && s.snaps[a].fetched == m
    && NotCached(s, a)
  }

  ghost predicate NotCached(s: State, a: At) {
    a.pk in s.props && CacheKey(Version(a.pk, s.props[a.pk].revision), a.key) !in s.cache
  }

  lemma SecondCompletes(s: State, w: nat, v: nat, a: At, source: Source, n: nat, m: nat)
    requires StoredLate(s, w, v, a, source, n, m) && Good(ByStore, s)
    ensures Begun(Step(s, CompleteJob(v)), w, a, source, n, m) && Raises(s, CompleteJob(v), a.pk)
  {
    CompletionRaises(s, v);
    NewIsNotCached(s, a);
    hide Good, SetStatus, Raises;
    assert Step(s, CompleteJob(v)) == Completed(s, v, s.workers[v]);
  }

  lemma CachedIsBegun(s: State, c: CacheKey)
    requires Good(ByStore, s) && c in s.cache
    ensures c.version in s.began
  {
    assert Seen(ByStore, s, c.version, c.key, s.cache[c]);
  }

  lemma NewIsNotCached(s: State, a: At)
    requires Good(ByStore, s) && a.pk in s.props
    ensures CacheKey(Version(a.pk, s.props[a.pk].revision + 1), a.key) !in s.cache
  {
    hide Provenant, Floors, NoOlder, Seen;
    NextIsNew(s, a.pk);
    var c := CacheKey(Version(a.pk, s.props[a.pk].revision + 1), a.key);
    if c in s.cache {
      CachedIsBegun(s, c);
    }
  }

  ghost predicate Overtaken(s: State, a: At, n: nat) {
    a in s.snaps && s.snaps[a].fetched == n && NotCached(s, a)
  }

  lemma FirstStores(s: State, w: nat, a: At, source: Source, n: nat, m: nat)
    requires Begun(s, w, a, source, n, m)
    ensures Overtaken(Step(s, Store(w)), a, n)
  {
    var worker := s.workers[w];
    assert StoreReport(s, w, worker)
        == s.(snaps := s.snaps[a := Stored(s, worker)], stores := s.stores + 1,
              workers := s.workers[w := worker.(todo := worker.todo[1..], holding := None)]);
  }

  /** Reader `r` got as far as `progress` with the row as it is. */
  ghost predicate Reading(s: State, r: nat, a: At, n: nat, progress: Progress) {
    && Overtaken(s, a, n) && r in s.readers
    && s.readers[r] == Reader(Version(a.pk, s.props[a.pk].revision), a.key, progress)
  }

  lemma ReaderLoads(s: State, a: At, n: nat, r: nat)
    requires Overtaken(s, a, n)
    ensures Reading(Step(s, Load(r, a.pk, a.key)), r, a, n, Loaded)
  {
    assert LoadRow(s, r, a.pk, a.key)
        == s.(readers := s.readers[r := Reader(Version(a.pk, s.props[a.pk].revision), a.key, Loaded)]);
  }

  lemma ReaderMisses(s: State, a: At, n: nat, r: nat)
    requires Reading(s, r, a, n, Loaded)
    ensures Reading(Step(s, LookUp(r)), r, a, n, Missed)
  {
    assert NextProgress(s, s.readers[r], LookUp(r)) == Missed;
  }

  lemma ReaderReads(s: State, a: At, n: nat, r: nat)
    requires Reading(s, r, a, n, Missed)
    ensures Reading(Step(s, ReadStored(r)), r, a, n, Read(Entry(s.snaps[a], s.props[a.pk].revision)))
  {
    assert NextProgress(s, s.readers[r], ReadStored(r)) == Read(Entry(s.snaps[a], s.props[a.pk].revision));
  }

  lemma ReaderFinishes(s: State, a: At, n: nat, r: nat, e: Entry)
    requires Reading(s, r, a, n, Read(e))
    ensures r in Step(s, Fill(r)).readers && Step(s, Fill(r)).readers[r].progress == Finished(Some(e))
  {
    assert NextProgress(s, s.readers[r], Fill(r)) == Finished(Some(e));
  }

  // The run

  /** What follows: the job of `w` is given up, `v` syncs the report and completes, `w` stores, and `r` reads. */
  function Continuation(s: State, w: nat, v: nat, r: nat): (es: seq<Event>)
    requires w in s.workers && s.workers[w].todo != []
    ensures |es| == 12
  {
    var a := PlaceOf(s.workers[w]);
    [
      Recover(s.workers[w].job),
      Fetch(w),
      Queue(a.pk, [a.key]),
      Claim(v, s.nextJob),
      Fetch(v),
      Store(v),
      CompleteJob(v),
      Store(w),
      Load(r, a.pk, a.key),
      LookUp(r),
      ReadStored(r),
      Fill(r)
    ]
  }

  lemma {:induction false} Bound(ids: set<nat>) returns (b: nat)
    ensures forall i :: i in ids ==> i < b
    decreases |ids|
  {
    if ids == {} {
      b := 0;
    } else {
      var i :| i in ids;
      var rest := Bound(ids - {i});
      assert forall j :: j in ids ==> j == i || j in ids - {i};
      b := if i < rest then rest else i + 1;
    }
  }

  /** The state after the first `k` events of the continuation. */
  function Later(es: seq<Event>, w: nat, v: nat, r: nat, k: nat): State
    requires w in Run(EMPTY, es).workers && Run(EMPTY, es).workers[w].todo != [] && k <= 12
  {
    Run(EMPTY, es + Continuation(Run(EMPTY, es), w, v, r)[..k])
  }

  lemma LaterStep(es: seq<Event>, w: nat, v: nat, r: nat, k: nat)
    requires w in Run(EMPTY, es).workers && Run(EMPTY, es).workers[w].todo != [] && k < 12
    ensures Later(es, w, v, r, k + 1) == Step(Later(es, w, v, r, k), Continuation(Run(EMPTY, es), w, v, r)[k])
  {
    hide Step, Continuation;
    var tail := Continuation(Run(EMPTY, es), w, v, r);
    var more := es + tail[..k + 1];
    assert more[..|more| - 1] == es + tail[..k] && more[|more| - 1] == tail[k];
  }

  lemma {:induction false} SixSteps(s: State, w: nat, v: nat, s1: State, s2: State, s3: State, s4: State, s5: State, s6: State)
    requires AtWork(s, w) && v !in s.workers && OneActive(s.jobs, s.nextJob)
    requires s.workers[w].holding.Some? ==> s.workers[w].holding.value <= s.fetches
    requires s1 == Step(s, Recover(s.workers[w].job))
    requires s2 == Step(s1, Fetch(w))
    requires s3 == Step(s2, Queue(s.workers[w].prop, [s.workers[w].todo[0]]))
    requires s4 == Step(s3, Claim(v, s.nextJob))
    requires s5 == Step(s4, Fetch(v))
    requires s6 == Step(s5, Store(v))
    ensures var n := Held(s, s.workers[w]);
            s4.fetches + 1 > n
            && StoredLate(s6, w, v, PlaceOf(s.workers[w]), s.workers[w].source, n, s4.fetches + 1)
  {
    hide Step, Busy, OneActive;
    var worker := s.workers[w];
    var a, n := PlaceOf(worker), Held(s, worker);
    GivingUpFrees(s, w, a.pk);
    FetchingHolds(s1, w, v);
    hide Free, Waiting, Second, StoredLate;
    QueueingWaits(s2, w, v, a, worker.source, n);
    ClaimingStarts(s3, w, v, a, worker.source, n, s.nextJob);
    SecondFetches(s4, w, v, a, worker.source, n);
    SecondStores(s5, w, v, a, worker.source, n, s4.fetches + 1);
  }

  lemma ContinuationIs(s: State, w: nat, v: nat, r: nat)
    requires w in s.workers && s.workers[w].todo != []
    ensures var es, a := Continuation(s, w, v, r), PlaceOf(s.workers[w]);
            && es[0] == Recover(s.workers[w].job) && es[1] == Fetch(w) && es[2] == Queue(a.pk, [a.key])
            && es[3] == Claim(v, s.nextJob) && es[4] == Fetch(v) && es[5] == Store(v) && es[6] == CompleteJob(v)
            && es[7] == Store(w) && es[8] == Load(r, a.pk, a.key) && es[9] == LookUp(r)
            && es[10] == ReadStored(r) && es[11] == Fill(r)
  {
  }

  lemma LaterStart(es: seq<Event>, w: nat, v: nat, r: nat)
    requires w in Run(EMPTY, es).workers && Run(EMPTY, es).workers[w].todo != []
    ensures Later(es, w, v, r, 0) == Run(EMPTY, es)
    ensures Later(es, w, v, r, 12) == Run(EMPTY, es + Continuation(Run(EMPTY, es), w, v, r))
  {
    hide Run, Continuation;
    var tail := Continuation(Run(EMPTY, es), w, v, r);
    assert es + tail[..0] == es && es + tail[..12] == es + tail;
  }

  /** Up to the moment at which the second worker is about to complete. */
  lemma UntilStoredLate(es: seq<Event>, w: nat, v: nat, r: nat) returns (m: nat)
    requires AtWork(Run(EMPTY, es), w) && v !in Run(EMPTY, es).workers
    ensures var s := Run(EMPTY, es);
            var n := Held(s, s.workers[w]);
            m > n && StoredLate(Later(es, w, v, r, 6), w, v, PlaceOf(s.workers[w]), s.workers[w].source, n, m)
  {
    var s := Run(EMPTY, es);
    RunIsMatched(es);
    hide Step, Run, Later, Continuation, StoredLate, Matched, PksAreOld, Recorded, OneActive;
    LaterStart(es, w, v, r);
    ContinuationIs(s, w, v, r);
    LaterStep(es, w, v, r, 0);
    LaterStep(es, w, v, r, 1);
    LaterStep(es, w, v, r, 2);
    LaterStep(es, w, v, r, 3);
    LaterStep(es, w, v, r, 4);
    LaterStep(es, w, v, r, 5);
    SixSteps(s, w, v, Later(es, w, v, r, 1), Later(es, w, v, r, 2), Later(es, w, v, r, 3), Later(es, w, v, r, 4),
             Later(es, w, v, r, 5), Later(es, w, v, r, 6));
    m := Later(es, w, v, r, 4).fetches + 1;
  }

  lemma LaterIsGood(es: seq<Event>, w: nat, v: nat, r: nat, k: nat)
    requires w in Run(EMPTY, es).workers && Run(EMPTY, es).workers[w].todo != [] && k <= 12
    ensures Good(ByStore, Later(es, w, v, r, k))
  {
    hide Run, AllInOrder, Continuation;
    var all := es + Continuation(Run(EMPTY, es), w, v, r)[..k];
    StoresAreInOrder(all);
    RunIsGood(ByStore, all);
  }

  /** From the completion to the end. */
  lemma UntilTheEnd(es: seq<Event>, w: nat, v: nat, r: nat, m: nat) returns (e: Entry)
    requires AtWork(Run(EMPTY, es), w)
    requires var s := Run(EMPTY, es);
             StoredLate(Later(es, w, v, r, 6), w, v, PlaceOf(s.workers[w]), s.workers[w].source, Held(s, s.workers[w]), m)
    ensures var s := Run(EMPTY, es);
            var a := PlaceOf(s.workers[w]);
            && Raises(Later(es, w, v, r, 6), CompleteJob(v), a.pk)
            && a in Later(es, w, v, r, 7).snaps && Later(es, w, v, r, 7).snaps[a].fetched == m
            && a.pk in Later(es, w, v, r, 8).props
            && r in Later(es, w, v, r, 12).readers
            && Later(es, w, v, r, 12).readers[r].progress == Finished(Some(e))
            && e.snap.fetched == Held(s, s.workers[w])
  {
    var s := Run(EMPTY, es);
    var worker := s.workers[w];
    var a, n := PlaceOf(worker), Held(s, worker);
    hide Step, Run, Later, Continuation, StoredLate, Good, AtWork, Raises;
    ContinuationIs(s, w, v, r);
    LaterStep(es, w, v, r, 6);
    LaterStep(es, w, v, r, 7);
    LaterStep(es, w, v, r, 8);
    LaterStep(es, w, v, r, 9);
    LaterStep(es, w, v, r, 10);
    LaterStep(es, w, v, r, 11);
    LaterIsGood(es, w, v, r, 6);
    SecondCompletes(Later(es, w, v, r, 6), w, v, a, worker.source, n, m);
    FirstStores(Later(es, w, v, r, 7), w, a, worker.source, n, m);
    ReaderLoads(Later(es, w, v, r, 8), a, n, r);
    ReaderMisses(Later(es, w, v, r, 9), a, n, r);
    ReaderReads(Later(es, w, v, r, 10), a, n, r);
    var u := Later(es, w, v, r, 10);
    e := Entry(u.snaps[a], u.props[a.pk].revision);
    ReaderFinishes(Later(es, w, v, r, 11), a, n, r, e);
  }

  /** What the report order by fetch forbids: after a completed sync, a later reader gets what was fetched before the
      report that the sync left. */
  ghost predicate ReadsOlderFetch(es: seq<Event>, b: nat, l: nat, result: Option<Entry>) {
    && b < l && Returns(es, l, result) && result.Some? && es[b].CompleteJob?
    && Raises(Run(EMPTY, es[..b]), es[b], es[l].pk)
    && At(es[l].pk, es[l].key) in Run(EMPTY, es[..b + 1]).snaps
    && Run(EMPTY, es[..b + 1]).snaps[At(es[l].pk, es[l].key)].fetched > result.value.snap.fetched
  }

  lemma Prefix(es: seq<Event>, w: nat, v: nat, r: nat, k: nat)
    requires w in Run(EMPTY, es).workers && Run(EMPTY, es).workers[w].todo != [] && k <= 12
    ensures Run(EMPTY, (es + Continuation(Run(EMPTY, es), w, v, r))[..|es| + k]) == Later(es, w, v, r, k)
  {
    hide Run, Continuation;
    var tail := Continuation(Run(EMPTY, es), w, v, r);
    assert (es + tail)[..|es| + k] == es + tail[..k];
  }

  lemma ReaderReturns(all: seq<Event>, l: nat, e: Entry)
    requires |all| == l + 4 && all[l].Load? && all[l + 1].LookUp? && all[l + 2].ReadStored? && all[l + 3].Fill?
    requires all[l].pk in Run(EMPTY, all[..l]).props
    requires all[l].r in Run(EMPTY, all).readers && Run(EMPTY, all).readers[all[l].r].progress == Finished(Some(e))
    ensures Returns(all, l, Some(e))
  {
    hide Run;
  }

  /** The parts of the whole run that matter. */
  lemma WholeRun(es: seq<Event>, w: nat, v: nat, r: nat)
    requires w in Run(EMPTY, es).workers && Run(EMPTY, es).workers[w].todo != []
    ensures var tail := Continuation(Run(EMPTY, es), w, v, r);
            var all, n, a := es + tail, |es|, PlaceOf(Run(EMPTY, es).workers[w]);
            && all[n + 6] == CompleteJob(v) && all[n + 8] == Load(r, a.pk, a.key)
            && all[n + 9] == LookUp(r) && all[n + 10] == ReadStored(r) && all[n + 11] == Fill(r)
  {
    ContinuationIs(Run(EMPTY, es), w, v, r);
    hide Run, Continuation;
  }

  lemma OlderFetch(all: seq<Event>, b: nat, l: nat, m: nat, e: Entry)
    requires b < l && Returns(all, l, Some(e)) && all[b].CompleteJob? && m > e.snap.fetched
    requires Raises(Run(EMPTY, all[..b]), all[b], all[l].pk)
    requires var a, raised := At(all[l].pk, all[l].key), Run(EMPTY, all[..b + 1]);
             a in raised.snaps && raised.snaps[a].fetched == m
    ensures ReadsOlderFetch(all, b, l, Some(e))
  {
    hide Run, Returns, Raises;
  }

  lemma ContinuationOvertakes(es: seq<Event>, w: nat, v: nat) returns (e: Entry)
    requires AtWork(Run(EMPTY, es), w) && v !in Run(EMPTY, es).workers
    ensures var all := es + Continuation(Run(EMPTY, es), w, v, 0);
            ReadsOlderFetch(all, |es| + 6, |es| + 8, Some(e)) && all[|es| + 8].pk == Run(EMPTY, es).workers[w].prop
  {
    var m := UntilStoredLate(es, w, v, 0);
    e := UntilTheEnd(es, w, v, 0, m);
    WholeRun(es, w, v, 0);
    LaterStart(es, w, v, 0);
    Prefix(es, w, v, 0, 6);
    Prefix(es, w, v, 0, 7);
    Prefix(es, w, v, 0, 8);
    hide Run, Later, Continuation, StoredLate, Raises, Returns, ReadsOlderFetch, AtWork, Held;
    var n := |es|;
    var all := es + Continuation(Run(EMPTY, es), w, v, 0);
    ReaderReturns(all, n + 8, e);
    OlderFetch(all, n + 6, n + 8, m, e);
  }

  /** In every state in which a worker has a report to store for a property that is still linked as it was, giving
      up its active job can be followed by a completed sync after which a reader gets an older fetch. */
  lemma GivenUpJobsAreOvertaken(es: seq<Event>, w: nat)
    requires AtWork(Run(EMPTY, es), w)
    ensures exists all: seq<Event>, b: nat, l: nat, result: Option<Entry> ::
              && es + [Recover(Run(EMPTY, es).workers[w].job)] <= all
              && ReadsOlderFetch(all, b, l, result) && all[l].pk == Run(EMPTY, es).workers[w].prop
  {
    var s := Run(EMPTY, es);
    var v := Bound(s.workers.Keys);
    var e := ContinuationOvertakes(es, w, v);
    StartsWithRecovery(es, w, v);
    hide Run, Continuation, ReadsOlderFetch, AtWork;
    var all := es + Continuation(s, w, v, 0);
    assert ReadsOlderFetch(all, |es| + 6, |es| + 8, Some(e)) && all[|es| + 8].pk == s.workers[w].prop;
  }

  lemma StartsWithRecovery(es: seq<Event>, w: nat, v: nat)
    requires w in Run(EMPTY, es).workers && Run(EMPTY, es).workers[w].todo != []
    ensures var s := Run(EMPTY, es);
            es + [Recover(s.workers[w].job)] <= es + Continuation(s, w, v, 0)
  {
    hide Run;
    ContinuationIs(Run(EMPTY, es), w, v, 0);
    hide Continuation;
    var tail := Continuation(Run(EMPTY, es), w, v, 0);
    assert (es + tail)[..|es| + 1] == es + [tail[0]];
  }

  // A state in which this can happen

  const SLOT := Slot(1, Ga4)
  const LINKED := Source(1, 1)
  const REPORTS: seq<Key> := [7]
  const QUEUED := State(map[0 := Prop(LINKED, 1)], map[SLOT := 0], 1, map[0 := Job(0, REPORTS, Queued)], 1, map[], 0, 0,
                        map[], map[], map[], map[Version(0, 1) := Began(LINKED, map[])])

  lemma LinkStep()
    ensures Step(EMPTY, Link(SLOT, LINKED, false, REPORTS)) == QUEUED
  {
    var added := EMPTY.(props := map[0 := Prop(LINKED, 0)], slots := map[SLOT := 0], nextPk := 1);
    assert !Linked(EMPTY, SLOT);
    assert Bump(added, 0) == QUEUED.(jobs := map[], nextJob := 0);
    assert QueueSync(Bump(added, 0), 0, REPORTS) == QUEUED;
  }

  /** Two steps lead to one: a property is linked and a worker claims its first job. */
  lemma WorkersGetToWork()
    ensures AtWork(Run(EMPTY, [Link(SLOT, LINKED, false, REPORTS), Claim(1, 0)]), 1)
  {
    var link, claim := Link(SLOT, LINKED, false, REPORTS), Claim(1, 0);
    LinkStep();
    assert [link, claim][..1] == [link] && [link][..0] == [];
    hide Step;
    assert Run(EMPTY, [link]) == QUEUED;
    assert Run(EMPTY, [link, claim]) == Step(QUEUED, claim);
    ClaimStep();
  }

  lemma ClaimStep()
    ensures AtWork(Step(QUEUED, Claim(1, 0)), 1)
  {
  }
}
