/** What readers get after a property was linked: only reports of the new link. */
module Relinks {
  import opened Text
  import opened Sync
  import opened Provenance
  import opened ReportCache
  import opened SyncOrder
  import opened Freshness

  /** How many stores, or fetches, there were so far. */
  function Count(order: Order, s: State): nat {
    if order.ByStore? then s.stores else s.fetches
  }

  ghost predicate SnapsLater(order: Order, s: State, from: Version, n: nat) {
    forall a :: a in s.snaps && a.pk == from.pk ==> Rank(order, a, s.snaps[a]) > n
  }

  predicate Since(version: Version, from: Version) {
    version.pk == from.pk && version.revision >= from.revision
  }

  ghost predicate EntryLater(order: Order, version: Version, key: Key, e: Entry, from: Version, n: nat) {
    Since(version, from) ==> Rank(order, At(version.pk, key), e.snap) > n
  }

  ghost predicate CacheLater(order: Order, s: State, from: Version, n: nat) {
    forall c :: c in s.cache ==> EntryLater(order, c.version, c.key, s.cache[c], from, n)
  }

  ghost predicate ReaderLater(order: Order, reader: Reader, from: Version, n: nat) {
    EntryOf(reader.progress).Some? ==>
      EntryLater(order, reader.version, reader.key, EntryOf(reader.progress).value, from, n)
  }

  ghost predicate ReadersLater(order: Order, s: State, from: Version, n: nat) {
    forall r :: r in s.readers ==> ReaderLater(order, s.readers[r], from, n)
  }

  ghost predicate HeldLater(order: Order, s: State, from: Version, n: nat) {
    order.ByFetch? ==>
      forall w :: w in s.workers && s.workers[w].prop == from.pk && s.workers[w].holding.Some? ==>
        s.workers[w].holding.value > n
  }

  /** Everything that readers of this version or a later one have or can get comes after number `n`. */
  ghost predicate AllLater(order: Order, s: State, from: Version, n: nat) {
    && order in {ByStore, ByFetch(from.pk)} && Count(order, s) >= n
    && SnapsLater(order, s, from, n) && CacheLater(order, s, from, n) && ReadersLater(order, s, from, n)
    && HeldLater(order, s, from, n)
  }

  // One step

  /** Stored snapshots were stored before, or in this step. */
  ghost predicate SnapsFrom(s: State, e: Event, t: State) {
    forall a :: a in t.snaps ==> (a in s.snaps && s.snaps[a] == t.snaps[a]) || StoredBy(s, e, a, t.snaps[a])
  }

  lemma LinkSnaps(s: State, e: Event)
    requires e.Link?
    ensures SnapsFrom(s, e, LinkProperty(s, e.slot, e.source, e.timezoneChanges, e.keys))
  {
    hide Busy, WebsiteBusy, Relink, FirstLink, StoredBy;
    if Linked(s, e.slot) && Busy(s.jobs, s.slots[e.slot]) {
    } else if e.timezoneChanges && WebsiteBusy(s, e.slot.website) {
    } else if Linked(s, e.slot) {
      RelinkWipes(s, s.slots[e.slot], e.source, e.keys);
    } else {
      FirstLinkKeepsSnaps(s, e.slot, e.source, e.keys);
    }
  }

  lemma RelinkWipes(s: State, pk: nat, source: Source, keys: seq<Key>)
    requires pk in s.props
    ensures var t := Relink(s, pk, source, keys);
            && t.snaps == Wiped(s.snaps, pk) && t.cache == s.cache && t.readers == s.readers && t.workers == s.workers
            && t.stores == s.stores && t.fetches == s.fetches && t.slots == s.slots
            && t.props == s.props[pk := Prop(source, s.props[pk].revision + 1)]
  {
    hide Busy, Wiped;
  }

  lemma FirstLinkKeepsSnaps(s: State, slot: Slot, source: Source, keys: seq<Key>)
    ensures var t := FirstLink(s, slot, source, keys);
            && t.snaps == s.snaps && t.cache == s.cache && t.readers == s.readers && t.workers == s.workers
            && t.stores == s.stores && t.fetches == s.fetches && t.slots == s.slots[slot := s.nextPk]
            && t.props == s.props[s.nextPk := Prop(source, 1)]
  {
    hide FirstLink, QueueSync;
    FirstLinkMakesRow(s, slot, source, keys);
  }

  lemma StoreSnaps(s: State, e: Event)
    requires e.Store? && e.w in s.workers
    ensures SnapsFrom(s, e, StoreReport(s, e.w, s.workers[e.w]))
  {
    var worker := s.workers[e.w];
    if worker.todo == [] || worker.holding.None? {
    } else if !Stores(s, worker) {
    } else {
    }
  }

  lemma FinishSnaps(s: State, w: nat, worker: Worker)
    ensures Finish(s, w, worker).snaps == s.snaps
  {
    hide SetStatus;
    if worker.todo != [] || worker.holding.Some? {
    } else if worker.prop !in s.props {
    } else {
    }
  }

  lemma UnlinkSnaps(s: State, e: Event)
    requires e.Unlink?
    ensures SnapsFrom(s, e, UnlinkProperty(s, e.slot))
  {
    hide Busy, StoredBy;
    if !Linked(s, e.slot) || Busy(s.jobs, s.slots[e.slot]) {
    } else {
    }
  }

  lemma StepSnaps(s: State, e: Event)
    ensures SnapsFrom(s, e, Step(s, e))
  {
    hide StoreReport, Finish, LinkProperty, UnlinkProperty, WorkerStep, ReaderStep, StoredBy;
    if !TouchesRows(e) {
      OthersKeepRows(s, e);
    } else if e.Link? {
      LinkSnaps(s, e);
    } else if e.Unlink? {
      UnlinkSnaps(s, e);
    } else if e.w in s.workers {
      TouchingWorkerStep(s, e.w, s.workers[e.w], e);
      if e.Store? {
        StoreSnaps(s, e);
      } else {
        FinishSnaps(s, e.w, s.workers[e.w]);
      }
    }
  }

  lemma SnapsStayLater(order: Order, s: State, e: Event, from: Version, n: nat)
    requires AllLater(order, s, from, n)
    ensures SnapsLater(order, Step(s, e), from, n)
  {
    hide Step, CacheLater, ReadersLater;
    StepSnaps(s, e);
  }

  lemma HeldStaysLater(order: Order, s: State, e: Event, from: Version, n: nat)
    requires AllLater(order, s, from, n)
    ensures HeldLater(order, Step(s, e), from, n) && Count(order, Step(s, e)) >= n
  {
    hide Step, CacheLater, ReadersLater, SnapsLater, Recorded, StoredBy, Stores;
    StepRecords(s, e);
    var t := Step(s, e);
    forall w | w in t.workers && t.workers[w].prop == from.pk && t.workers[w].holding.Some? && order.ByFetch?
      ensures t.workers[w].holding.value > n
    {
      StepHolds(s, e, w);
    }
  }

  // Readers and the cache

  /** What a step that is no reader's does to readers and cache: it may load a row or evict an entry. */
  ghost predicate ReadersKept(s: State, e: Event, t: State) {
    && (forall c :: c in t.cache ==> c in s.cache && t.cache[c] == s.cache[c])
    && (forall r :: r in t.readers ==>
          (r in s.readers && t.readers[r] == s.readers[r]) || t.readers[r].progress == Loaded)
  }

  lemma LinkKeepsReaders(s: State, e: Event)
    requires e.Link? || e.Unlink?
    ensures Step(s, e).readers == s.readers && Step(s, e).cache == s.cache
  {
    hide Busy, WebsiteBusy, Relink, FirstLink;
    if e.Unlink? {
      if !Linked(s, e.slot) || Busy(s.jobs, s.slots[e.slot]) {
      } else {
      }
    } else if Linked(s, e.slot) && Busy(s.jobs, s.slots[e.slot]) {
    } else if e.timezoneChanges && WebsiteBusy(s, e.slot.website) {
    } else if Linked(s, e.slot) {
      RelinkWipes(s, s.slots[e.slot], e.source, e.keys);
    } else {
      FirstLinkKeepsSnaps(s, e.slot, e.source, e.keys);
    }
  }

  lemma StoreKeepsCache(s: State, w: nat, worker: Worker)
    ensures StoreReport(s, w, worker).cache == s.cache && Finish(s, w, worker).cache == s.cache
  {
    hide Stores, SetStatus;
    if worker.todo == [] {
      if worker.holding.None? {
        if worker.prop in s.props {
        } else {
        }
      } else {
      }
    } else if worker.holding.None? {
    } else if !Stores(s, worker) {
    } else {
    }
  }

  lemma WorkerKeepsCache(s: State, e: Event)
    requires OfWorker(e) && e.w in s.workers
    ensures WorkerStep(s, e.w, s.workers[e.w], e).cache == s.cache
    ensures WorkerStep(s, e.w, s.workers[e.w], e).readers == s.readers
  {
    hide WorkerStep, StoreReport, Finish, SameRows;
    WorkerKeepsReaders(s, e);
    if !TouchesRows(e) {
      WorkerKeepsRows(s, e.w, s.workers[e.w], e);
    } else {
      TouchingWorkerStep(s, e.w, s.workers[e.w], e);
      StoreKeepsCache(s, e.w, s.workers[e.w]);
    }
  }

  lemma LoadKeeps(s: State, e: Event)
    requires e.Load?
    ensures ReadersKept(s, e, LoadRow(s, e.r, e.pk, e.key))
  {
    if e.pk in s.props {
    } else {
    }
  }

  lemma OthersKeepReaders(s: State, e: Event)
    requires !OfReader(e)
    ensures ReadersKept(s, e, Step(s, e))
  {
    hide WorkerStep, LinkProperty, UnlinkProperty, QueueSync, ClaimJob, RecoverJob, LoadRow;
    if OfWorker(e) {
      if e.w in s.workers {
        WorkerKeepsCache(s, e);
      }
    } else if e.Link? || e.Unlink? {
      LinkKeepsReaders(s, e);
    } else if e.Load? {
      LoadKeeps(s, e);
    } else {
      JobsKeepReaders(s, e);
    }
  }

  lemma ReaderStaysLater(order: Order, s: State, reader: Reader, e: Event, from: Version, n: nat)
    requires AllLater(order, s, from, n) && ReaderLater(order, reader, from, n)
    ensures ReaderLater(order, reader.(progress := NextProgress(s, reader, e)), from, n)
    ensures var c, cache := CacheKey(reader.version, reader.key), NextCache(s, reader, e);
            cache == s.cache
            || (c in cache && cache == s.cache[c := cache[c]] && EntryLater(order, c.version, c.key, cache[c], from, n))
  {
    hide Rank, HeldLater;
    match reader.progress {
      case Loaded =>
      case Missed =>
      case Read(_) =>
      case Finished(_) =>
    }
  }

  lemma ReadersStayLater(order: Order, s: State, e: Event, from: Version, n: nat)
    requires AllLater(order, s, from, n)
    ensures CacheLater(order, Step(s, e), from, n) && ReadersLater(order, Step(s, e), from, n)
  {
    hide EntryLater, HeldLater, SnapsLater, NextProgress, NextCache, WorkerStep;
    if OfReader(e) {
      if e.r in s.readers {
        ReaderStaysLater(order, s, s.readers[e.r], e, from, n);
      }
    } else {
      hide Step;
      OthersKeepReaders(s, e);
    }
  }

  lemma StepStaysLater(order: Order, s: State, e: Event, from: Version, n: nat)
    requires AllLater(order, s, from, n)
    ensures AllLater(order, Step(s, e), from, n)
  {
    SnapsStayLater(order, s, e, from, n);
    HeldStaysLater(order, s, e, from, n);
    ReadersStayLater(order, s, e, from, n);
    hide Step, CacheLater, ReadersLater, SnapsLater, HeldLater;
  }

  lemma {:induction false} RunStaysLater(order: Order, es: seq<Event>, b: nat, m: nat, from: Version, n: nat)
    requires b <= m <= |es| && AllLater(order, Run(EMPTY, es[..b]), from, n)
    ensures AllLater(order, Run(EMPTY, es[..m]), from, n)
  {
    hide Step, AllLater;
    if b < m {
      RunStaysLater(order, es, b, m - 1, from, n);
      RunStep(es, m - 1);
      StepStaysLater(order, Run(EMPTY, es[..m - 1]), es[m - 1], from, n);
    }
  }

  // The link itself

  lemma NothingCachedYet(order: Order, s: State, t: State, from: Version, n: nat)
    requires Good(ByStore, s) && from !in s.began
    requires from.pk in s.props ==> from.revision == s.props[from.pk].revision + 1
    requires from.pk !in s.props ==> from.pk >= s.nextPk
    requires t.cache == s.cache && t.readers == s.readers
    ensures CacheLater(order, t, from, n) && ReadersLater(order, t, from, n)
  {
    hide Rank, NoOlder;
    forall c | c in t.cache
      ensures EntryLater(order, c.version, c.key, t.cache[c], from, n)
    {
      assert Seen(ByStore, s, c.version, c.key, s.cache[c]);
      assert c.version in s.began;
    }
    forall r | r in t.readers
      ensures ReaderLater(order, t.readers[r], from, n)
    {
      assert ReaderSeen(ByStore, s, s.readers[r]);
      assert s.readers[r].version in s.began;
    }
  }

  /** The property that a link raises. */
  function LinkedPk(s: State, slot: Slot): nat {
    if Linked(s, slot) then s.slots[slot] else s.nextPk
  }

  /** What a link that is not refused leaves: a new revision of its property, without snapshots of it. */
  ghost predicate LinkedAfresh(s: State, t: State, pk: nat) {
    && pk in t.props && t.props[pk].revision == (if pk in s.props then s.props[pk].revision + 1 else 1)
    && (pk in s.props || pk == s.nextPk)
    && (forall p :: p in t.props && p != pk ==> p in s.props && t.props[p] == s.props[p])
    && (forall key :: At(pk, key) !in t.snaps)
    && t.cache == s.cache && t.readers == s.readers && t.workers == s.workers
    && t.stores == s.stores && t.fetches == s.fetches
  }

  lemma LinkIsAfresh(s: State, e: Event)
    requires e.Link? && Provenant(s.props, s.snaps) && PksAreOld(s)
    ensures Step(s, e) == s || LinkedAfresh(s, Step(s, e), LinkedPk(s, e.slot))
    ensures Step(s, e) != s ==> e.slot in Step(s, e).slots && Step(s, e).slots[e.slot] == LinkedPk(s, e.slot)
  {
    hide Busy, WebsiteBusy, Relink, FirstLink;
    if Linked(s, e.slot) && Busy(s.jobs, s.slots[e.slot]) {
    } else if e.timezoneChanges && WebsiteBusy(s, e.slot.website) {
    } else if Linked(s, e.slot) {
      RelinkWipes(s, s.slots[e.slot], e.source, e.keys);
      assert Step(s, e) == Relink(s, s.slots[e.slot], e.source, e.keys);
    } else {
      FirstLinkKeepsSnaps(s, e.slot, e.source, e.keys);
      assert Step(s, e) == FirstLink(s, e.slot, e.source, e.keys);
    }
  }

  lemma LinkRaises(s: State, e: Event, pk: nat)
    requires e.Link? && Good(ByStore, s)
    ensures Raises(s, e, pk) <==> Step(s, e) != s && pk == LinkedPk(s, e.slot)
  {
    LinkIsAfresh(s, e);
    hide Step, Floors, AllSeen, Provenant;
    if Step(s, e) == s {
      NoneRaised(s, pk);
    }
  }

  /** In every run a link is refused and changes nothing, or raises the property of its slot, and no other. */
  lemma LinkingRaises(es: seq<Event>, e: Event, pk: nat)
    requires e.Link?
    ensures var s := Run(EMPTY, es);
            Raises(s, e, pk) <==> Step(s, e) != s && e.slot in Step(s, e).slots && pk == Step(s, e).slots[e.slot]
  {
    hide Step, Run, Raises, AllInOrder;
    StoresAreInOrder(es);
    RunIsGood(ByStore, es);
    LinkIsAfresh(Run(EMPTY, es), e);
    LinkRaises(Run(EMPTY, es), e, pk);
  }

  lemma NoneRaised(s: State, pk: nat)
    requires Current(s)
    ensures pk in s.props ==> Version(pk, s.props[pk].revision) in s.began
  {
  }

  lemma LinkStartsAfresh(order: Order, s: State, e: Event, pk: nat)
    requires e.Link? && Good(ByStore, s) && Raises(s, e, pk) && order in {ByStore, ByFetch(pk)}
    requires order.ByFetch? ==> Orderly(s, pk)
    ensures pk in Step(s, e).props
    ensures AllLater(order, Step(s, e), Version(pk, Step(s, e).props[pk].revision), Count(order, Step(s, e)))
  {
    LinkRaises(s, e, pk);
    LinkIsAfresh(s, e);
    if order.ByFetch? {
      LinkWaits(s, e, pk);
    }
    hide Step, Orderly, Floors, Rank;
    var t := Step(s, e);
    var from := Version(pk, t.props[pk].revision);
    NothingCachedYet(order, s, t, from, Count(order, t));
  }

  lemma WorkersMakeBusy(s: State, w: nat, pk: nat)
    requires Orderly(s, pk) && w in s.workers && s.workers[w].prop == pk
    ensures Busy(s.jobs, pk)
  {
    var j := s.workers[w].job;
    assert j in s.jobs && s.jobs[j].prop == pk && Active(s.jobs[j].status);
  }

  /** A link that is made while only abandoned jobs are given up finds no worker on its property. */
  lemma LinkWaits(s: State, e: Event, pk: nat)
    requires e.Link? && Orderly(s, pk) && Step(s, e) != s && pk == LinkedPk(s, e.slot)
    ensures forall w :: w in s.workers ==> s.workers[w].prop != pk
  {
    hide Relink, FirstLink, WebsiteBusy;
    if Linked(s, e.slot) {
      assert !Busy(s.jobs, pk);
      forall w | w in s.workers
        ensures s.workers[w].prop != pk
      {
        if s.workers[w].prop == pk {
          WorkersMakeBusy(s, w, pk);
        }
      }
    }
  }

  // What readers get

  lemma ReadsAfterLink(order: Order, es: seq<Event>, b: nat, l: nat, result: Option<Entry>)
    requires b < l && Returns(es, l, result) && result.Some? && order in {ByStore, ByFetch(es[l].pk)}
    requires es[b].Link? && Raises(Run(EMPTY, es[..b]), es[b], es[l].pk)
    requires order.ByFetch? ==> Orderly(Run(EMPTY, es[..b]), es[l].pk)
    ensures Rank(order, At(es[l].pk, es[l].key), result.value.snap) > Count(order, Run(EMPTY, es[..b + 1]))
  {
    hide Step, Run, AllInOrder, Good, Raises, Orderly, SnapsLater, CacheLater, HeldLater, Rank;
    var pk := es[l].pk;
    var linked := Run(EMPTY, es[..b + 1]);
    StoresAreInOrder(es);
    AllInOrderFront(ByStore, es, b);
    AllInOrderFront(ByStore, es, l);
    RunIsGood(ByStore, es[..b]);
    RunIsGood(ByStore, es[..l]);
    RunStep(es, b);
    LinkStartsAfresh(order, Run(EMPTY, es[..b]), es[b], pk);
    var from := Version(pk, linked.props[pk].revision);
    assert es[..|es|] == es;
    RunStaysLater(order, es, b + 1, |es|, from, Count(order, linked));
    var version := Version(pk, Run(EMPTY, es[..l]).props[pk].revision);
    ReaderKeepsRow(es, l, |es|, version);
    RevisionsOnlyRise(es, b + 1, l, pk);
    assert ReaderLater(order, Run(EMPTY, es).readers[es[l].r], from, Count(order, linked));
  }

  lemma RevisionsOnlyRise(es: seq<Event>, b: nat, l: nat, pk: nat)
    requires b <= l <= |es| && pk in Run(EMPTY, es[..b]).props && pk in Run(EMPTY, es[..l]).props
    ensures Run(EMPTY, es[..b]).props[pk].revision <= Run(EMPTY, es[..l]).props[pk].revision
  {
    hide Run, AllInOrder, Floors, AllSeen, Provenant;
    StoresAreInOrder(es);
    AllInOrderFront(ByStore, es, b);
    AllInOrderFront(ByStore, es, l);
    RunIsGood(ByStore, es[..b]);
    RunIsGood(ByStore, es[..l]);
    RunRemembers(ByStore, es, b, l);
  }

  /** After a property was linked, whoever loads its row gets no report that was stored before, wherever that one
      had been fetched from and whatever earlier readers cached. */
  lemma ReportsAreOfTheLink(es: seq<Event>, b: nat, l: nat, result: Option<Entry>)
    requires b < l && Returns(es, l, result) && result.Some?
    requires es[b].Link? && Raises(Run(EMPTY, es[..b]), es[b], es[l].pk)
    ensures result.value.snap.stored > Run(EMPTY, es[..b + 1]).stores
  {
    hide Step, Run, Raises;
    ReadsAfterLink(ByStore, es, b, l, result);
  }

  /** Nor one that was fetched before, if only abandoned jobs of the property were given up. */
  lemma ReportsAreFetchedSinceTheLink(es: seq<Event>, b: nat, l: nat, result: Option<Entry>)
    requires b < l && Returns(es, l, result) && result.Some? && AllAbandoned(es, es[l].pk)
    requires es[b].Link? && Raises(Run(EMPTY, es[..b]), es[b], es[l].pk)
    ensures result.value.snap.fetched > Run(EMPTY, es[..b + 1]).fetches
  {
    hide Step, Run, Raises, AllAbandoned, Orderly;
    AllAbandonedFront(es, b, es[l].pk);
    RunIsOrderly(es[..b], es[l].pk);
    ReadsAfterLink(ByFetch(es[l].pk), es, b, l, result);
  }
}
