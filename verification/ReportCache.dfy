/** How old a report can be that a reader of the revision-keyed cache gets. Age is counted by the order of the
    stores or, for one property, by the order of the fetches. */
module ReportCache {
  import opened Text
  import opened Sync
  import opened Provenance

  /** By which numbers snapshots are compared: by their stores, or by their fetches for one property. */
  datatype Order = ByStore | ByFetch(pk: nat)

  function Rank(order: Order, a: At, snap: Snap): nat {
    if order == ByFetch(a.pk) then snap.fetched else snap.stored
  }

  /** The version of each property is recorded, with what the property is linked to. */
  ghost predicate Current(s: State) {
    forall pk :: pk in s.props ==>
      var v := Version(pk, s.props[pk].revision); v in s.began && s.began[v].source == s.props[pk].source
  }

  ghost predicate Past(s: State) {
    forall v :: v in s.began ==> v.pk < s.nextPk && (v.pk in s.props ==> v.revision <= s.props[v.pk].revision)
  }

  ghost predicate NoOlder(order: Order, began: map<Version, Began>, v: Version, a: At, snap: Snap) {
    v in began && a in began[v].snaps && a.pk == v.pk ==> Rank(order, a, began[v].snaps[a]) <= Rank(order, a, snap)
  }

  /** No stored snapshot is older than one that a revision of its property began with. */
  ghost predicate Floors(order: Order, s: State) {
    forall v, a :: a in s.snaps ==> NoOlder(order, s.began, v, a, s.snaps[a])
  }

  /** What an entry is that a reader of `version` may have: read at that revision or a later one, from what the
      property was linked to then, and no older than what this revision or an earlier one began with. */
  ghost predicate Seen(order: Order, s: State, version: Version, key: Key, e: Entry) {
    && version in s.began
    && Version(version.pk, e.readAt) in s.began
    && s.began[Version(version.pk, e.readAt)].source == e.snap.source
    && version.revision <= e.readAt
    && (version.pk in s.props ==> e.readAt <= s.props[version.pk].revision)
    && (forall u: Version :: u.pk == version.pk && u.revision <= version.revision ==>
          NoOlder(order, s.began, u, At(version.pk, key), e.snap))
  }

  function EntryOf(p: Progress): Option<Entry> {
    match p
    case Read(e) => Some(e)
    case Finished(result) => result
    case _ => None
  }

  ghost predicate ReaderSeen(order: Order, s: State, reader: Reader) {
    reader.version in s.began
    && (EntryOf(reader.progress).Some? ==> Seen(order, s, reader.version, reader.key, EntryOf(reader.progress).value))
  }

  ghost predicate AllSeen(order: Order, s: State) {
    && (forall c :: c in s.cache ==> Seen(order, s, c.version, c.key, s.cache[c]))
    && (forall r :: r in s.readers ==> ReaderSeen(order, s, s.readers[r]))
  }

  ghost predicate Good(order: Order, s: State) {
    && Provenant(s.props, s.snaps) && PksAreOld(s)
    && Current(s) && Past(s) && Floors(order, s) && AllSeen(order, s)
  }

  // Rows

  /** How a step may change the rows and the record of revisions. */
  ghost predicate Grown(s: State, t: State) {
    && (forall v :: v in s.began ==> v in t.began && t.began[v] == s.began[v])
    && (forall v :: v in t.began && v !in s.began ==>
          v.pk >= s.nextPk || (v.pk in s.props && v.revision > s.props[v.pk].revision))
    && (forall pk :: pk in t.props ==>
          pk >= s.nextPk || (pk in s.props && t.props[pk].revision >= s.props[pk].revision))
  }

  lemma SeenGrows(order: Order, s: State, t: State, version: Version, key: Key, e: Entry)
    requires Grown(s, t) && Past(s) && Seen(order, s, version, key, e)
    ensures Seen(order, t, version, key, e)
  {
    hide Rank;
    forall u: Version | u.pk == version.pk && u.revision <= version.revision
      ensures NoOlder(order, t.began, u, At(version.pk, key), e.snap)
    {
      assert NoOlder(order, s.began, u, At(version.pk, key), e.snap);
    }
  }

  lemma GrownKeeps(s: State, t: State, v: Version)
    requires Grown(s, t) && v in s.began
    ensures v in t.began && t.began[v] == s.began[v]
  {
  }

  lemma AllSeenGrows(order: Order, s: State, t: State)
    requires Grown(s, t) && Past(s) && AllSeen(order, s)
    requires t.cache == s.cache && t.readers == s.readers
    ensures AllSeen(order, t)
  {
    hide Seen, Grown, Past;
    forall c | c in t.cache
      ensures Seen(order, t, c.version, c.key, t.cache[c])
    {
      SeenGrows(order, s, t, c.version, c.key, t.cache[c]);
    }
    forall r | r in t.readers
      ensures ReaderSeen(order, t, t.readers[r])
    {
      var reader := t.readers[r];
      GrownKeeps(s, t, reader.version);
      if EntryOf(reader.progress).Some? {
        SeenGrows(order, s, t, reader.version, reader.key, EntryOf(reader.progress).value);
      }
    }
  }

  lemma SameRowsGrow(s: State, t: State)
    requires SameRows(s, t)
    ensures Grown(s, t)
  {
  }

  /** A store in order: nothing recorded at its place is younger. */
  ghost predicate InOrder(order: Order, s: State, e: Event) {
    e.Store? && e.w in s.workers && Stores(s, s.workers[e.w]) ==>
      var a := At(s.workers[e.w].prop, s.workers[e.w].todo[0]);
      var snap := Stored(s, s.workers[e.w]);
      && (a in s.snaps ==> Rank(order, a, s.snaps[a]) <= Rank(order, a, snap))
      && (forall v :: NoOlder(order, s.began, v, a, snap))
  }

  lemma SnapIsGood(order: Order, s: State, t: State, a: At, snap: Snap)
    requires Good(order, s) && a.pk in s.props && snap.source == s.props[a.pk].source
    requires a in s.snaps ==> Rank(order, a, s.snaps[a]) <= Rank(order, a, snap)
    requires forall v :: NoOlder(order, s.began, v, a, snap)
    requires t.props == s.props && t.nextPk == s.nextPk && t.began == s.began && t.snaps == s.snaps[a := snap]
    requires t.cache == s.cache && t.readers == s.readers
    ensures Good(order, t)
  {
    AllSeenGrows(order, s, t);
    hide Rank, AllSeen, NoOlder;
    forall v, b | b in t.snaps
      ensures NoOlder(order, t.began, v, b, t.snaps[b])
    {
      if b != a {
        assert NoOlder(order, s.began, v, b, s.snaps[b]);
      }
    }
  }

  lemma StoreIsGood(order: Order, s: State, e: Event)
    requires Good(order, s) && InOrder(order, s, e) && e.Store? && e.w in s.workers
    ensures Good(order, StoreReport(s, e.w, s.workers[e.w]))
  {
    hide Good, Rank, NoOlder;
    var worker := s.workers[e.w];
    var t := StoreReport(s, e.w, worker);
    if worker.todo == [] || worker.holding.None? {
    } else if !Stores(s, worker) {
      SameRowsAreGood(order, s, t);
    } else {
      SnapIsGood(order, s, t, At(worker.prop, worker.todo[0]), Stored(s, worker));
    }
  }

  /** The rows and the record after the revision of `pk` was raised. */
  ghost predicate Bumped(s: State, t: State, pk: nat)
    requires pk in s.props
  {
    var v := Version(pk, s.props[pk].revision + 1);
    && t.props == s.props[pk := s.props[pk].(revision := v.revision)]
    && t.began == s.began[v := Began(s.props[pk].source, s.snaps)]
    && t.snaps == s.snaps && t.nextPk == s.nextPk && t.cache == s.cache && t.readers == s.readers
  }

  lemma BumpedGrows(s: State, t: State, pk: nat)
    requires Past(s) && PksAreOld(s) && pk in s.props && Bumped(s, t, pk)
    ensures Grown(s, t) && Version(pk, s.props[pk].revision + 1) !in s.began
    ensures Past(t) && PksAreOld(t)
  {
  }

  lemma BumpedIsCurrent(order: Order, s: State, t: State, pk: nat)
    requires Current(s) && Floors(order, s) && pk in s.props && Bumped(s, t, pk)
    requires Version(pk, s.props[pk].revision + 1) !in s.began
    ensures Current(t) && Floors(order, t)
  {
    hide Rank;
    var v := Version(pk, s.props[pk].revision + 1);
    forall u, a | a in t.snaps
      ensures NoOlder(order, t.began, u, a, t.snaps[a])
    {
      if u != v {
        assert NoOlder(order, s.began, u, a, s.snaps[a]);
      }
    }
  }

  lemma BumpIsGood(order: Order, s: State, t: State, pk: nat)
    requires Good(order, s) && pk in s.props && Bumped(s, t, pk)
    ensures Good(order, t)
  {
    BumpedGrows(s, t, pk);
    BumpedIsCurrent(order, s, t, pk);
    AllSeenGrows(order, s, t);
    hide Rank, AllSeen, Floors, Current, Past, PksAreOld;
  }

  lemma CompletedIsBumped(s: State, w: nat, worker: Worker)
    requires worker.prop in s.props
    ensures Bumped(s, Completed(s, w, worker), worker.prop)
  {
  }

  lemma FinishIsGood(order: Order, s: State, w: nat, worker: Worker)
    requires Good(order, s)
    ensures Good(order, Finish(s, w, worker))
  {
    hide Good, Provenant, PksAreOld, Current, Past, Floors, AllSeen, Completed, Bumped;
    var t := Finish(s, w, worker);
    if worker.todo != [] || worker.holding.Some? {
    } else if worker.prop !in s.props {
      SameRowsAreGood(order, s, t);
    } else {
      assert t == Completed(s, w, worker);
      CompletedIsBumped(s, w, worker);
      BumpIsGood(order, s, t, worker.prop);
    }
  }

  lemma SameRowsAreGood(order: Order, s: State, t: State)
    requires Good(order, s) && SameRows(s, t)
    requires t.cache == s.cache && t.readers == s.readers
    ensures Good(order, t)
  {
    AllSeenGrows(order, s, t);
    hide AllSeen, Rank;
  }

  /** The rows and the record after `pk` was linked to `source` and its snapshots wiped. */
  ghost predicate Relinked(s: State, t: State, pk: nat, source: Source)
    requires pk in s.props
  {
    var v := Version(pk, s.props[pk].revision + 1);
    && t.props == s.props[pk := Prop(source, v.revision)] && t.snaps == Wiped(s.snaps, pk)
    && t.began == s.began[v := Began(source, t.snaps)]
    && t.nextPk == s.nextPk && t.cache == s.cache && t.readers == s.readers
  }

  lemma RelinkedGrows(s: State, t: State, pk: nat, source: Source)
    requires Past(s) && PksAreOld(s) && pk in s.props && Relinked(s, t, pk, source)
    ensures Grown(s, t) && Version(pk, s.props[pk].revision + 1) !in s.began
    ensures Past(t) && PksAreOld(t)
  {
    hide Wiped;
  }

  lemma RelinkedIsCurrent(order: Order, s: State, t: State, pk: nat, source: Source)
    requires Current(s) && Floors(order, s) && pk in s.props && Relinked(s, t, pk, source)
    requires Version(pk, s.props[pk].revision + 1) !in s.began
    ensures Current(t) && Floors(order, t)
  {
    hide Rank;
    var v := Version(pk, s.props[pk].revision + 1);
    forall u, a | a in t.snaps
      ensures NoOlder(order, t.began, u, a, t.snaps[a])
    {
      if u != v {
        assert NoOlder(order, s.began, u, a, s.snaps[a]);
      }
    }
  }

  lemma RelinkedIsProvenant(s: State, t: State, pk: nat, source: Source)
    requires Provenant(s.props, s.snaps) && pk in s.props && Relinked(s, t, pk, source)
    ensures Provenant(t.props, t.snaps)
  {
  }

  lemma RelinkedIsGood(order: Order, s: State, t: State, pk: nat, source: Source)
    requires Good(order, s) && pk in s.props && Relinked(s, t, pk, source)
    ensures Good(order, t)
  {
    RelinkedGrows(s, t, pk, source);
    RelinkedIsCurrent(order, s, t, pk, source);
    RelinkedIsProvenant(s, t, pk, source);
    AllSeenGrows(order, s, t);
    hide Rank, AllSeen, Floors, Current, Past, PksAreOld, Provenant;
  }

  lemma RelinkIsGood(order: Order, s: State, pk: nat, source: Source, keys: seq<Key>)
    requires Good(order, s) && pk in s.props
    ensures Good(order, Relink(s, pk, source, keys))
  {
    hide Good, Busy;
    RelinkedIsGood(order, s, Relink(s, pk, source, keys), pk, source);
  }

  /** The rows and the record after a new row was added. */
  ghost predicate Added(s: State, t: State, source: Source) {
    && t.props == s.props[s.nextPk := Prop(source, 1)] && t.snaps == s.snaps
    && t.began == s.began[Version(s.nextPk, 1) := Began(source, t.snaps)]
    && t.nextPk == s.nextPk + 1 && t.cache == s.cache && t.readers == s.readers
  }

  lemma AddedGrows(s: State, t: State, source: Source)
    requires Past(s) && PksAreOld(s) && Provenant(s.props, s.snaps) && Added(s, t, source)
    ensures Grown(s, t) && Past(t) && PksAreOld(t) && Provenant(t.props, t.snaps)
  {
  }

  lemma AddedIsCurrent(order: Order, s: State, t: State, source: Source)
    requires Current(s) && PksAreOld(s) && Floors(order, s) && Provenant(s.props, s.snaps) && Added(s, t, source)
    ensures Current(t) && Floors(order, t)
  {
    hide Rank;
    forall u, a | a in t.snaps
      ensures NoOlder(order, t.began, u, a, t.snaps[a])
    {
      assert a.pk in s.props && a.pk != s.nextPk;
      assert NoOlder(order, s.began, u, a, s.snaps[a]);
    }
  }

  lemma NewRowIsGood(order: Order, s: State, t: State, source: Source)
    requires Good(order, s) && Added(s, t, source)
    ensures Good(order, t)
  {
    AddedGrows(s, t, source);
    AddedIsCurrent(order, s, t, source);
    AllSeenGrows(order, s, t);
    hide Rank, AllSeen, Floors, Current, Past, PksAreOld, Provenant;
  }

  lemma FirstLinkAdds(s: State, slot: Slot, source: Source, keys: seq<Key>)
    ensures Added(s, FirstLink(s, slot, source, keys), source)
  {
    hide FirstLink, QueueSync;
    FirstLinkMakesRow(s, slot, source, keys);
  }

  lemma FirstLinkIsGood(order: Order, s: State, slot: Slot, source: Source, keys: seq<Key>)
    requires Good(order, s)
    ensures Good(order, FirstLink(s, slot, source, keys))
  {
    hide Good, Busy, FirstLink, Added;
    FirstLinkAdds(s, slot, source, keys);
    NewRowIsGood(order, s, FirstLink(s, slot, source, keys), source);
  }

  lemma LinkIsGood(order: Order, s: State, slot: Slot, source: Source, timezoneChanges: bool, keys: seq<Key>)
    requires Good(order, s)
    ensures Good(order, LinkProperty(s, slot, source, timezoneChanges, keys))
  {
    hide Good, Busy, WebsiteBusy, Relink, FirstLink;
    if Linked(s, slot) && Busy(s.jobs, s.slots[slot]) {
    } else if timezoneChanges && WebsiteBusy(s, slot.website) {
    } else if Linked(s, slot) {
      RelinkIsGood(order, s, s.slots[slot], source, keys);
    } else {
      FirstLinkIsGood(order, s, slot, source, keys);
    }
  }

  lemma DeletionIsGood(order: Order, s: State, t: State, pk: nat)
    requires Good(order, s)
    requires t.props == s.props - {pk} && t.snaps == Wiped(s.snaps, pk) && t.began == s.began
    requires t.nextPk == s.nextPk && t.cache == s.cache && t.readers == s.readers
    ensures Good(order, t)
  {
    hide Rank, AllSeen;
    AllSeenGrows(order, s, t);
    forall u, a | a in t.snaps
      ensures NoOlder(order, t.began, u, a, t.snaps[a])
    {
      assert NoOlder(order, s.began, u, a, s.snaps[a]);
    }
  }

  lemma UnlinkIsGood(order: Order, s: State, slot: Slot)
    requires Good(order, s)
    ensures Good(order, UnlinkProperty(s, slot))
  {
    hide Good, Busy;
    if !Linked(s, slot) || Busy(s.jobs, s.slots[slot]) {
    } else {
      DeletionIsGood(order, s, UnlinkProperty(s, slot), s.slots[slot]);
    }
  }

  // Readers

  /** Reading the store gives a reader an entry it may have. */
  lemma ReadIsSeen(order: Order, s: State, reader: Reader)
    requires Good(order, s) && reader.version in s.began
    requires ReadReport(s, reader).Read?
    ensures Seen(order, s, reader.version, reader.key, ReadReport(s, reader).entry)
  {
    hide Rank, AllSeen;
    var a := At(reader.version.pk, reader.key);
    forall u: Version | u.pk == reader.version.pk && u.revision <= reader.version.revision
      ensures NoOlder(order, s.began, u, a, s.snaps[a])
    {
    }
  }

  lemma ProgressIsSeen(order: Order, s: State, reader: Reader, e: Event)
    requires Good(order, s) && ReaderSeen(order, s, reader)
    ensures ReaderSeen(order, s, reader.(progress := NextProgress(s, reader, e)))
    ensures var c := CacheKey(reader.version, reader.key);
            var cache := NextCache(s, reader, e);
            cache != s.cache ==>
              c in cache && cache == s.cache[c := cache[c]] && Seen(order, s, c.version, c.key, cache[c])
  {
    hide Seen;
    match reader.progress {
      case Loaded =>
      case Missed =>
        if ReadReport(s, reader).Read? {
          ReadIsSeen(order, s, reader);
        }
      case Read(_) =>
      case Finished(_) =>
    }
  }

  /** A step that leaves the rows alone and hands out only entries that its readers may have. */
  lemma HandingOutIsGood(order: Order, s: State, t: State)
    requires Good(order, s) && SameRows(s, t)
    requires forall c :: c in t.cache ==> Seen(order, s, c.version, c.key, t.cache[c])
    requires forall r :: r in t.readers ==> ReaderSeen(order, s, t.readers[r])
    ensures Good(order, t)
  {
    hide Seen, Rank, NoOlder;
    SameRowsGrow(s, t);
    forall c | c in t.cache
      ensures Seen(order, t, c.version, c.key, t.cache[c])
    {
      SeenGrows(order, s, t, c.version, c.key, t.cache[c]);
    }
    forall r | r in t.readers
      ensures ReaderSeen(order, t, t.readers[r])
    {
      var reader := t.readers[r];
      if EntryOf(reader.progress).Some? {
        SeenGrows(order, s, t, reader.version, reader.key, EntryOf(reader.progress).value);
      }
    }
  }

  lemma ReaderStepIsGood(order: Order, s: State, r: nat, e: Event)
    requires Good(order, s) && r in s.readers
    ensures Good(order, ReaderStep(s, r, s.readers[r], e))
  {
    var reader := s.readers[r];
    var t := ReaderStep(s, r, reader, e);
    ProgressIsSeen(order, s, reader, e);
    ReaderKeepsRows(s, r, reader, e);
    hide ReaderSeen, Seen, SameRows, NextProgress, NextCache, Provenant, PksAreOld, Current, Past, Floors;
    HandingOutIsGood(order, s, t);
  }

  lemma LoadIsGood(order: Order, s: State, r: nat, pk: nat, key: Key)
    requires Good(order, s)
    ensures Good(order, LoadRow(s, r, pk, key))
  {
    hide Seen, Provenant, PksAreOld, Past, Floors;
    if pk in s.props {
      HandingOutIsGood(order, s, LoadRow(s, r, pk, key));
    }
  }

  lemma PlainStepIsGood(order: Order, s: State, e: Event)
    requires Good(order, s) && !TouchesRows(e) && !OfWorker(e) && !OfReader(e)
    ensures Good(order, Step(s, e))
  {
    hide Seen, Provenant, PksAreOld, Past, Floors, Current, Busy, QueueSync, ClaimJob, RecoverJob, LoadRow;
    PlainKeepsRows(s, e);
    if e.Load? {
      LoadIsGood(order, s, e.r, e.pk, e.key);
    } else {
      JobsKeepReaders(s, e);
      HandingOutIsGood(order, s, Step(s, e));
    }
  }

  lemma JobsKeepReaders(s: State, e: Event)
    requires !TouchesRows(e) && !OfWorker(e) && !OfReader(e) && !e.Load?
    ensures Step(s, e).readers == s.readers
    ensures Step(s, e).cache == if e.Evict? then s.cache - {e.entry} else s.cache
  {
    hide Busy;
    match e {
      case Queue(pk, keys) =>
        if pk !in s.props || Busy(s.jobs, pk) {
        } else {
        }
      case Claim(w, job) =>
        if w in s.workers || job !in s.jobs || s.jobs[job].prop !in s.props {
        } else if s.jobs[job].status !in {Queued, Retrying} {
        } else {
        }
      case Recover(job) =>
        if job in s.jobs && Active(s.jobs[job].status) {
        } else {
        }
      case _ =>
    }
  }

  lemma WorkerStepIsGood(order: Order, s: State, e: Event)
    requires Good(order, s) && InOrder(order, s, e) && OfWorker(e) && e.w in s.workers
    ensures Good(order, WorkerStep(s, e.w, s.workers[e.w], e))
  {
    hide Good, InOrder, StoreReport, Finish, WorkerStep;
    var worker := s.workers[e.w];
    TouchingWorkerStep(s, e.w, worker, e);
    if e.Store? {
      StoreIsGood(order, s, e);
    } else if e.CompleteJob? {
      FinishIsGood(order, s, e.w, worker);
    } else {
      WorkerKeepsRows(s, e.w, worker, e);
      SameRowsAreGood(order, s, WorkerStep(s, e.w, worker, e));
    }
  }

  lemma StepIsGood(order: Order, s: State, e: Event)
    requires Good(order, s) && InOrder(order, s, e)
    ensures Good(order, Step(s, e))
  {
    hide Good, InOrder, WorkerStep, ReaderStep, LinkProperty, UnlinkProperty;
    if OfWorker(e) {
      if e.w in s.workers {
        WorkerStepIsGood(order, s, e);
      }
    } else if OfReader(e) {
      if e.r in s.readers {
        ReaderStepIsGood(order, s, e.r, e);
      }
    } else if e.Link? {
      LinkIsGood(order, s, e.slot, e.source, e.timezoneChanges, e.keys);
    } else if e.Unlink? {
      UnlinkIsGood(order, s, e.slot);
    } else {
      PlainStepIsGood(order, s, e);
    }
  }

  ghost predicate AllInOrder(order: Order, es: seq<Event>) {
    forall k :: 0 <= k < |es| ==> InOrder(order, Run(EMPTY, es[..k]), es[k])
  }

  lemma AllInOrderFront(order: Order, es: seq<Event>, n: nat)
    requires AllInOrder(order, es) && n <= |es|
    ensures AllInOrder(order, es[..n])
    ensures n < |es| ==> InOrder(order, Run(EMPTY, es[..n]), es[n])
  {
    hide InOrder, Run;
    assert forall k :: 0 <= k < n ==> es[..n][..k] == es[..k] && es[..n][k] == es[k];
  }

  lemma {:induction false} RunIsGood(order: Order, es: seq<Event>)
    requires AllInOrder(order, es)
    ensures Good(order, Run(EMPTY, es))
  {
    hide Step, InOrder;
    if es != [] {
      var n := |es| - 1;
      AllInOrderFront(order, es, n);
      RunIsGood(order, es[..n]);
      hide Good;
      StepIsGood(order, Run(EMPTY, es[..n]), es[n]);
    }
  }
}
