/** Synchronization jobs, relinking and the revision-keyed report cache, as atomic steps that interleave freely:
    each step is one transaction, one provider call or one cache access. */
module Sync {
  import opened Text

  datatype Provider = Ga4 | Gsc

  datatype Slot = Slot(website: nat, provider: Provider)

  /** What a property is linked to, and so what a report was fetched from. */
  datatype Source = Source(connection: nat, external: nat)

  datatype Prop = Prop(source: Source, revision: nat)

  /** A report and its window. */
  type Key = nat

  datatype Status = Queued | Running | Retrying | Complete | Failed

  datatype Job = Job(prop: nat, keys: seq<Key>, status: Status)

  /** A stored report of a property. */
  datatype At = At(pk: nat, key: Key)

  /** A stored payload, by where it came from and by the numbers of its fetch and of its store. */
  datatype Snap = Snap(source: Source, fetched: nat, stored: nat)

  /** A worker inside `sync_job`: what it read when it claimed the job, the reports still to do, and the number
      of the fetch whose payload it holds. */
  datatype Worker = Worker(job: nat, prop: nat, source: Source, todo: seq<Key>, holding: Option<nat>)

  /** A cache key: the row a reader loaded, and a report. */
  datatype Version = Version(pk: nat, revision: nat)

  datatype CacheKey = CacheKey(version: Version, key: Key)

  /** A payload with the revision the property had when the payload was read from the store. */
  datatype Entry = Entry(snap: Snap, readAt: nat)

  datatype Progress = Loaded | Missed | Read(entry: Entry) | Finished(result: Option<Entry>)

  /** A reader inside `snapshot`. */
  datatype Reader = Reader(version: Version, key: Key, progress: Progress)

  /** What the store held for a property when a revision of it began. */
  datatype Began = Began(source: Source, snaps: map<At, Snap>)

  /** The rows, with `slots` as the unique index on website and provider, and whoever is at work on them.
      `began`, the numbers in snapshots and `readAt` in entries only record the run. */
  datatype State = State(
    props: map<nat, Prop>, slots: map<Slot, nat>, nextPk: nat,
    jobs: map<nat, Job>, nextJob: nat,
    snaps: map<At, Snap>, fetches: nat, stores: nat,
    workers: map<nat, Worker>,
    cache: map<CacheKey, Entry>,
    readers: map<nat, Reader>,
    began: map<Version, Began>)

  const EMPTY := State(map[], map[], 0, map[], 0, map[], 0, 0, map[], map[], map[], map[])

  datatype Event =
    | Queue(pk: nat, keys: seq<Key>)
    | Claim(w: nat, job: nat)
    | Keep(w: nat)
    | Fetch(w: nat)
    | Store(w: nat)
    | CompleteJob(w: nat)
    | FailJob(w: nat, retry: bool)
    | Die(w: nat)
    | Recover(job: nat)
    | Link(slot: Slot, source: Source, timezoneChanges: bool, keys: seq<Key>)
    | Unlink(slot: Slot)
    | Load(r: nat, pk: nat, key: Key)
    | LookUp(r: nat)
    | ReadStored(r: nat)
    | Fill(r: nat)
    | Evict(entry: CacheKey)

  predicate Active(status: Status) {
    status in {Queued, Running, Retrying}
  }

  predicate Busy(jobs: map<nat, Job>, pk: nat) {
    exists j :: j in jobs && jobs[j].prop == pk && Active(jobs[j].status)
  }

  /** A property of the website has an active job. */
  predicate WebsiteBusy(s: State, website: nat) {
    exists slot :: slot in s.slots && slot.website == website && Busy(s.jobs, s.slots[slot])
  }

  /** `queue_sync`: the unique index on active jobs turns a second one into the first. */
  function QueueSync(s: State, pk: nat, keys: seq<Key>): State {
    if pk !in s.props || Busy(s.jobs, pk) then s
    else s.(jobs := s.jobs[s.nextJob := Job(pk, keys, Queued)], nextJob := s.nextJob + 1)
  }

  function SetStatus(jobs: map<nat, Job>, j: nat, status: Status): map<nat, Job> {
    if j in jobs then jobs[j := jobs[j].(status := status)] else jobs
  }

  function ClaimJob(s: State, w: nat, j: nat): State {
    if w in s.workers || j !in s.jobs || s.jobs[j].prop !in s.props then s
    else if s.jobs[j].status !in {Queued, Retrying} then s
    else
      var pk := s.jobs[j].prop;
      s.(jobs := SetStatus(s.jobs, j, Running),
         workers := s.workers[w := Worker(j, pk, s.props[pk].source, s.jobs[j].keys, None)])
  }

  function Leave(s: State, w: nat): State {
    s.(workers := s.workers - {w})
  }

  function Put(s: State, w: nat, worker: Worker): State {
    s.(workers := s.workers[w := worker])
  }

  /** A stored report of an old window is kept as it is. */
  function KeepReport(s: State, w: nat, worker: Worker): State {
    if worker.todo != [] && worker.holding.None? && At(worker.prop, worker.todo[0]) in s.snaps then
      Put(s, w, worker.(todo := worker.todo[1..]))
    else s
  }

  function FetchReport(s: State, w: nat, worker: Worker): State {
    if worker.todo != [] && worker.holding.None? then
      s.(fetches := s.fetches + 1, workers := s.workers[w := worker.(holding := Some(s.fetches + 1))])
    else s
  }

  /** The guard of the store finds the row as the worker read it. */
  predicate Stores(s: State, worker: Worker) {
    && worker.todo != [] && worker.holding.Some?
    && worker.prop in s.props && s.props[worker.prop].source == worker.source
  }

  function Stored(s: State, worker: Worker): Snap
    requires worker.holding.Some?
  {
    Snap(worker.source, worker.holding.value, s.stores + 1)
  }

  /** The guarded store. A deleted row raises; a row that is linked to something else ends the job quietly. */
  function StoreReport(s: State, w: nat, worker: Worker): State {
    if worker.todo == [] || worker.holding.None? then s
    else if !Stores(s, worker) then Leave(s, w)
    else
      s.(snaps := s.snaps[At(worker.prop, worker.todo[0]) := Stored(s, worker)],
         stores := s.stores + 1,
         workers := s.workers[w := worker.(todo := worker.todo[1..], holding := None)])
  }

  /** Raises the revision; `began` records what the new one starts with. */
  function Bump(s: State, pk: nat): State
    requires pk in s.props
  {
    var prop := s.props[pk].(revision := s.props[pk].revision + 1);
    s.(props := s.props[pk := prop], began := s.began[Version(pk, prop.revision) := Began(prop.source, s.snaps)])
  }

  function Completed(s: State, w: nat, worker: Worker): State
    requires worker.prop in s.props
  {
    Bump(s, worker.prop).(jobs := SetStatus(s.jobs, worker.job, Complete), workers := s.workers - {w})
  }

  /** The last transaction of `sync_job`. */
  function Finish(s: State, w: nat, worker: Worker): State {
    if worker.todo != [] || worker.holding.Some? then s
    else if worker.prop !in s.props then Leave(s, w)
    else Completed(s, w, worker)
  }

  /** The unique index lets a job become active again only while no other one of its property is. */
  predicate MayRetry(s: State, j: nat) {
    j in s.jobs && (Active(s.jobs[j].status) || !Busy(s.jobs, s.jobs[j].prop))
  }

  /** The error branches of `synchronize`. */
  function Fail(s: State, w: nat, worker: Worker, retry: bool): State {
    var jobs := if !retry then SetStatus(s.jobs, worker.job, Failed)
                else if MayRetry(s, worker.job) then SetStatus(s.jobs, worker.job, Retrying)
                else s.jobs;
    s.(jobs := jobs, workers := s.workers - {w})
  }

  /** The recovery in `enqueue_syncs`, for one abandoned job. */
  function RecoverJob(s: State, j: nat): State {
    if j in s.jobs && Active(s.jobs[j].status) then s.(jobs := SetStatus(s.jobs, j, Failed)) else s
  }

  function Wiped(snaps: map<At, Snap>, pk: nat): map<At, Snap> {
    map a | a in snaps && a.pk != pk :: snaps[a]
  }

  /** What the transaction of `link_property` makes of an existing row. */
  function Relink(s: State, pk: nat, source: Source, keys: seq<Key>): State
    requires pk in s.props
  {
    var changed := s.(props := s.props[pk := s.props[pk].(source := source)], snaps := Wiped(s.snaps, pk));
    QueueSync(Bump(changed, pk), pk, keys)
  }

  /** What it makes of a slot without one. */
  function FirstLink(s: State, slot: Slot, source: Source, keys: seq<Key>): State {
    var pk := s.nextPk;
    var added := s.(props := s.props[pk := Prop(source, 0)], slots := s.slots[slot := pk], nextPk := pk + 1);
    QueueSync(Bump(added, pk), pk, keys)
  }

  /** A slot with a new row, at its first revision. */
  function NewRow(s: State, slot: Slot, source: Source): State {
    s.(props := s.props[s.nextPk := Prop(source, 1)], slots := s.slots[slot := s.nextPk], nextPk := s.nextPk + 1,
       began := s.began[Version(s.nextPk, 1) := Began(source, s.snaps)])
  }

  /** A first link makes such a row and then only queues a job. */
  lemma FirstLinkMakesRow(s: State, slot: Slot, source: Source, keys: seq<Key>)
    ensures var t := FirstLink(s, slot, source, keys);
            t == QueueSync(NewRow(s, slot, source), s.nextPk, keys)
            && t == NewRow(s, slot, source).(jobs := t.jobs, nextJob := t.nextJob)
  {
    hide QueueSync;
    var pk := s.nextPk;
    var added := s.(props := s.props[pk := Prop(source, 0)], slots := s.slots[slot := pk], nextPk := pk + 1);
    assert Bump(added, pk) == NewRow(s, slot, source);
    QueueKeepsRows(NewRow(s, slot, source), pk, keys);
  }

  lemma QueueKeepsRows(s: State, pk: nat, keys: seq<Key>)
    ensures QueueSync(s, pk, keys) == s.(jobs := QueueSync(s, pk, keys).jobs, nextJob := QueueSync(s, pk, keys).nextJob)
  {
    hide Busy;
  }

  predicate Linked(s: State, slot: Slot) {
    slot in s.slots && s.slots[slot] in s.props
  }

  /** The two conflicts that `link_property` answers with. */
  predicate LinkRefused(s: State, slot: Slot, timezoneChanges: bool) {
    || (Linked(s, slot) && Busy(s.jobs, s.slots[slot]))
    || (timezoneChanges && WebsiteBusy(s, slot.website))
  }

  function LinkProperty(s: State, slot: Slot, source: Source, timezoneChanges: bool, keys: seq<Key>): State {
    if Linked(s, slot) && Busy(s.jobs, s.slots[slot]) then s
    else if timezoneChanges && WebsiteBusy(s, slot.website) then s
    else if Linked(s, slot) then Relink(s, s.slots[slot], source, keys)
    else FirstLink(s, slot, source, keys)
  }

  /** `unlink_property`. Deleting the row takes its snapshots and its jobs along. */
  function UnlinkProperty(s: State, slot: Slot): State {
    if !Linked(s, slot) || Busy(s.jobs, s.slots[slot]) then s
    else
      var pk := s.slots[slot];
      s.(props := s.props - {pk},
         slots := s.slots - {slot},
         snaps := Wiped(s.snaps, pk),
         jobs := map j | j in s.jobs && s.jobs[j].prop != pk :: s.jobs[j])
  }

  // The report cache

  function LoadRow(s: State, r: nat, pk: nat, key: Key): State {
    if pk !in s.props then s
    else s.(readers := s.readers[r := Reader(Version(pk, s.props[pk].revision), key, Loaded)])
  }

  /** `cache.get`, under the revision of the loaded row. */
  function LookUpCache(s: State, reader: Reader): Progress {
    var key := CacheKey(reader.version, reader.key);
    if key in s.cache then Finished(Some(s.cache[key])) else Missed
  }

  function ReadReport(s: State, reader: Reader): Progress {
    var a := At(reader.version.pk, reader.key);
    if a !in s.snaps || a.pk !in s.props then Finished(None) else Read(Entry(s.snaps[a], s.props[a.pk].revision))
  }

  function NextProgress(s: State, reader: Reader, e: Event): Progress {
    match reader.progress
    case Loaded => if e.LookUp? then LookUpCache(s, reader) else Loaded
    case Missed => if e.ReadStored? then ReadReport(s, reader) else Missed
    case Read(entry) => if e.Fill? then Finished(Some(entry)) else Read(entry)
    case Finished(result) => Finished(result)
  }

  /** `cache.set`, under the revision of the loaded row too. */
  function NextCache(s: State, reader: Reader, e: Event): map<CacheKey, Entry> {
    if e.Fill? && reader.progress.Read? then s.cache[CacheKey(reader.version, reader.key) := reader.progress.entry]
    else s.cache
  }

  // Runs

  function WorkerStep(s: State, w: nat, worker: Worker, e: Event): State {
    match e
    case Keep(_) => KeepReport(s, w, worker)
    case Fetch(_) => FetchReport(s, w, worker)
    case Store(_) => StoreReport(s, w, worker)
    case CompleteJob(_) => Finish(s, w, worker)
    case FailJob(_, retry) => Fail(s, w, worker, retry)
    case _ => Leave(s, w)
  }

  function ReaderStep(s: State, r: nat, reader: Reader, e: Event): State {
    s.(readers := s.readers[r := reader.(progress := NextProgress(s, reader, e))], cache := NextCache(s, reader, e))
  }

  predicate OfWorker(e: Event) {
    e.Keep? || e.Fetch? || e.Store? || e.CompleteJob? || e.FailJob? || e.Die?
  }

  predicate OfReader(e: Event) {
    e.LookUp? || e.ReadStored? || e.Fill?
  }

  /** A step of a worker or a reader that is not there does nothing. */
  function Step(s: State, e: Event): State {
    if OfWorker(e) then if e.w in s.workers then WorkerStep(s, e.w, s.workers[e.w], e) else s
    else if OfReader(e) then if e.r in s.readers then ReaderStep(s, e.r, s.readers[e.r], e) else s
    else
      match e
      case Queue(pk, keys) => QueueSync(s, pk, keys)
      case Claim(w, job) => ClaimJob(s, w, job)
      case Recover(job) => RecoverJob(s, job)
      case Link(slot, source, timezoneChanges, keys) => LinkProperty(s, slot, source, timezoneChanges, keys)
      case Unlink(slot) => UnlinkProperty(s, slot)
      case Load(r, pk, key) => LoadRow(s, r, pk, key)
      case Evict(entry) => s.(cache := s.cache - {entry})
      case _ => s
  }

  function Run(s: State, es: seq<Event>): State {
    if es == [] then s else Step(Run(s, es[..|es| - 1]), es[|es| - 1])
  }
}
