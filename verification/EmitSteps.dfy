/** Every step of the emit protocol keeps the invariant, and what follows for whole runs. */
module EmitSteps {
  import opened Kinds
  import opened Rules
  import opened Dedup
  import opened TrackState
  import opened Recognizer
  import opened EmitGate
  import opened Publisher
  import opened EmitProtocol
  import opened EmitSafety

  // ---------------------------------------------------------------------------------------------
  // The probe thread

  lemma StaleKeepsInv(s: State, now: real, pub: PublisherConfig)
    requires Inv(s) && Enabled(s, Stale(now))
    ensures Inv(Step(s, Stale(now), pub))
  {
    var s' := Step(s, Stale(now), pub);
    forall inc: nat, k: EventKind ensures OnceOk(s', inc, k) {
      assert OnceOk(s, inc, k);
    }
    forall id, k: EventKind | id in s'.rec.tracks ensures CountOk(s', id, k) && PostedOk(s', id, k) {
      StaleKeepsLive(s, s', now, id, k);
    }
    forall j | j in OpenJobs(s') ensures JobOk(s', j) {
      assert JobOk(s, j);
    }
  }

  lemma StaleKeepsLive(s: State, s': State, now: real, id: nat, k: EventKind)
    requires Inv(s) && id in s.rec.tracks
    requires s' == s.(rec := ClearStale(s.rec, now), tainted := s.tainted + TaintedBy(s, now))
    ensures CountOk(s', id, k) && PostedOk(s', id, k)
  {
    assert CountOk(s, id, k) && PostedOk(s, id, k);
    var t := s.rec.tracks[id];
    if k == WrongWay && StaleWrongWay(t, s.rec.cfg, now) && t.kinds.wrongWay.pushed {
      assert s.incOf[id] in TaintedBy(s, now);
    }
  }

  lemma AskEffect(t: Track, seen: map<Key, real>, cfg: Config, now: real, k: EventKind)
    ensures var t' := AfterAsk(t, seen, cfg, now);
            && t'.id == t.id && t'.final == t.final
            && (InFlight(t'.kinds.Get(k)) ==> InFlight(t.kinds.Get(k)))
            && (InFlight(t.kinds.Get(k)) && (t.final.chosen ==> ShouldEmitPlate(t.final.emitPlate, cfg.sendMode)) ==>
                  InFlight(t'.kinds.Get(k)))
            && (t.kinds.Get(k).posted ==> t'.kinds.Get(k).posted)
            && (k in ReadyKinds(t, seen, cfg, now) ==> !t'.kinds.Get(k).pushed && !t'.kinds.Get(k).posted)
  {
  }

  lemma AskKeepsInv(s: State, now: real, list: seq<ReadyEmit>, pub: PublisherConfig)
    requires Inv(s) && Enabled(s, Ask(now, list))
    ensures Inv(Step(s, Ask(now, list), pub))
  {
    var s' := Step(s, Ask(now, list), pub);
    forall inc: nat, k: EventKind ensures OnceOk(s', inc, k) {
      assert OnceOk(s, inc, k);
    }
    forall id, k: EventKind | id in s'.rec.tracks ensures CountOk(s', id, k) && PostedOk(s', id, k) {
      assert CountOk(s, id, k) && PostedOk(s, id, k);
      AskEffect(s.rec.tracks[id], s.rec.dedup.seen, s.rec.cfg, now, k);
    }
    forall j | j in OpenJobs(s') ensures JobOk(s', j) {
      assert JobOk(s, j);
    }
    forall i | 0 <= i < |list| ensures EntryOk(s', list[i], now) {
      AskedEntryOk(s, s', list[i], now);
    }
  }

  lemma AskedEntryOk(s: State, s': State, e: ReadyEmit, now: real)
    requires Registry(s) && s'.rec == Collect(s.rec, now) && s'.incOf == s.incOf && ListedRight(s.rec, s.rec.tracks.Keys, now, e)
    ensures EntryOk(s', e, now)
  {
    var t := s.rec.tracks[e.trackId];
    forall k | k in e.ready
      ensures IsOpen(s'.rec.tracks[e.trackId].kinds.Get(k))
      ensures !AlreadyEmitted(s'.rec.dedup.seen, Key(e.trackId, e.plate, k), now)
    {
      AskEffect(t, s.rec.dedup.seen, s.rec.cfg, now, k);
    }
    var k :| k in e.ready;
    AskEffect(t, s.rec.dedup.seen, s.rec.cfg, now, k);
  }

  /** Committing an entry of the ready list takes every wanted kind. */
  lemma EntryCommits(s: State, e: ReadyEmit, want: KindSet, now: real)
    requires Registry(s) && EntryOk(s, e, now) && want <= e.ready && want != {}
    ensures var t := s.rec.tracks[e.trackId];
            var c := CommitKinds(t, s.rec.dedup, e.plate, want, now, 4);
            && c.committed == want
            && Commit(s.rec, e.trackId, e.plate, want, now) ==
                 (s.rec.(tracks := s.rec.tracks[e.trackId := c.track], dedup := c.dedup), true)
            && Pushed(t, c.track, want)
            && OnlyAdds(s.rec.dedup, c.dedup, KeysFor(e.trackId, e.plate, want))
  {
    var t := s.rec.tracks[e.trackId];
    AllKindsComplete();
    CommitMarks(t, s.rec.dedup, e.plate, want, now, 4);
    CommitRemembers(t, s.rec.dedup, e.plate, want, now, 4);
    forall k | k in want ensures k in CommitKinds(t, s.rec.dedup, e.plate, want, now, 4).committed {
      CommitTakes(t, s.rec.dedup, e.plate, want, now, 4, k);
    }
  }

  /** The other entries of the list are unaffected by the commit of one track. */
  lemma CommitKeepsEntry(s: State, rec': Rec, id: nat, plate: string, want: KindSet, e: ReadyEmit, now: real)
    requires Registry(s) && EntryOk(s, e, now) && e.trackId != id
    requires rec'.cfg == s.rec.cfg && e.trackId in rec'.tracks && rec'.tracks[e.trackId] == s.rec.tracks[e.trackId]
    requires OnlyAdds(s.rec.dedup, rec'.dedup, KeysFor(id, plate, want))
    ensures EntryOk(s.(rec := rec'), e, now)
  {
    forall k | k in e.ready ensures !AlreadyEmitted(rec'.dedup.seen, Key(e.trackId, e.plate, k), now) {
      assert Key(e.trackId, e.plate, k) !in KeysFor(id, plate, want);
    }
  }

  /** The state after committing `want` for the entry e, with the job in the probe's hand. */
  ghost predicate Committed(s: State, s': State, e: ReadyEmit, want: KindSet, hasCrop: bool) {
    && s.probe.Emitting? && s.probe.rest != [] && e == s.probe.rest[0]
    && EntryOk(s, e, s.probe.now) && want <= e.ready && want != {}
    && e.trackId in s.incOf
    && s' == s.(rec := Commit(s.rec, e.trackId, e.plate, want, s.probe.now).0,
                probe := Holding(Own(s.incOf[e.trackId], want, BuildEmit(e, want, hasCrop)), s.probe.rest[1..], s.probe.now))
  }

  lemma CommitTotals(s: State, s': State, e: ReadyEmit, want: KindSet, hasCrop: bool, inc: nat, k: EventKind)
    requires Inv(s) && Committed(s, s', e, want, hasCrop)
    ensures Total(s', inc, k) == Total(s, inc, k) + (if inc == s.incOf[e.trackId] && k in want then 1 else 0)
    ensures Unpublished(s', inc, k) == Unpublished(s, inc, k) + (if inc == s.incOf[e.trackId] && k in want then 1 else 0)
    ensures inc == s.incOf[e.trackId] && k in want && Guarded(s, inc, k) ==>
              Total(s, inc, k) == 0 && (Exclusive(s, inc, k) ==> Published(s, inc, k) == 0)
  {
    HeldOne(s'.probe.job, inc, k);
    assert CountOk(s, e.trackId, k) && PostedOk(s, e.trackId, k);
  }

  lemma CommitKeepsLive(s: State, s': State, e: ReadyEmit, want: KindSet, hasCrop: bool, id: nat, k: EventKind)
    requires Inv(s) && Committed(s, s', e, want, hasCrop) && id in s.rec.tracks
    ensures id in s'.rec.tracks && CountOk(s', id, k) && PostedOk(s', id, k)
  {
    EntryCommits(s, e, want, s.probe.now);
    CommitTotals(s, s', e, want, hasCrop, s.incOf[id], k);
    assert CountOk(s, id, k) && PostedOk(s, id, k);
  }

  lemma CommitKeepsList(s: State, s': State, e: ReadyEmit, want: KindSet, hasCrop: bool, i: nat)
    requires Inv(s) && Committed(s, s', e, want, hasCrop) && i < |s'.probe.rest|
    ensures EntryOk(s', s'.probe.rest[i], s.probe.now)
  {
    var x := s'.probe.rest[i];
    assert x == s.probe.rest[i + 1] && EntryOk(s, x, s.probe.now);
    EntryCommits(s, e, want, s.probe.now);
    CommitKeepsEntry(s, s'.rec, e.trackId, e.plate, want, x, s.probe.now);
    assert EntryOk(s.(rec := s'.rec), x, s.probe.now);
  }

  lemma CommittedKeepsInv(s: State, s': State, e: ReadyEmit, want: KindSet, hasCrop: bool)
    requires Inv(s) && Committed(s, s', e, want, hasCrop)
    ensures Inv(s')
  {
    EntryCommits(s, e, want, s.probe.now);
    forall inc: nat, k: EventKind ensures OnceOk(s', inc, k) {
      assert OnceOk(s, inc, k);
      CommitTotals(s, s', e, want, hasCrop, inc, k);
    }
    forall id, k: EventKind | id in s'.rec.tracks ensures CountOk(s', id, k) && PostedOk(s', id, k) {
      CommitKeepsLive(s, s', e, want, hasCrop, id, k);
    }
    forall j | j in OpenJobs(s') ensures JobOk(s', j) {
      CommitKeepsJob(s, s', e, want, hasCrop, j);
    }
    forall i | 0 <= i < |s'.probe.rest| ensures EntryOk(s', s'.probe.rest[i], s'.probe.now) {
      CommitKeepsList(s, s', e, want, hasCrop, i);
    }
  }

  lemma CommitKeepsJob(s: State, s': State, e: ReadyEmit, want: KindSet, hasCrop: bool, j: Job)
    requires Inv(s) && Committed(s, s', e, want, hasCrop) && j in OpenJobs(s')
    ensures JobOk(s', j)
  {
    EntryCommits(s, e, want, s.probe.now);
    if j == s'.probe.job {
      BuiltJobOk(s', j, e, want, hasCrop);
    } else {
      assert j in OpenJobs(s) && JobOk(s, j);
    }
  }

  lemma BuiltJobOk(s: State, j: Job, e: ReadyEmit, want: KindSet, hasCrop: bool)
    requires Registry(s) && e.trackId in s.incOf && j == Own(s.incOf[e.trackId], want, BuildEmit(e, want, hasCrop))
    ensures JobOk(s, j)
  {
  }

  lemma CommitKeepsInv(s: State, hasImages: bool, hasCrop: bool, pub: PublisherConfig)
    requires Inv(s) && Enabled(s, CommitNext(hasImages, hasCrop))
    ensures Inv(Step(s, CommitNext(hasImages, hasCrop), pub))
  {
    var s' := Step(s, CommitNext(hasImages, hasCrop), pub);
    var e := s.probe.rest[0];
    assert EntryOk(s, e, s.probe.now);
    var want := Wanted(e.ready, hasCrop);
    if !hasImages || want == {} {
      ProbeChangeKeepsInv(s, s');
    } else {
      EntryCommits(s, e, want, s.probe.now);
      CommittedKeepsInv(s, s', e, want, hasCrop);
    }
  }

  /** Only the probe's place in its list changes, and only to a shorter list. */
  lemma ProbeChangeKeepsInv(s: State, s': State)
    requires Inv(s) && s' == s.(probe := s'.probe) && ProbeOk(s') && !s.probe.Holding? && !s'.probe.Holding?
    ensures Inv(s')
  {
    forall inc: nat, k: EventKind ensures OnceOk(s', inc, k) {
      assert OnceOk(s, inc, k);
    }
    forall id, k: EventKind | id in s'.rec.tracks ensures CountOk(s', id, k) && PostedOk(s', id, k) {
      assert CountOk(s, id, k) && PostedOk(s, id, k);
    }
    forall j | j in OpenJobs(s') ensures JobOk(s', j) {
      assert j in OpenJobs(s) && JobOk(s, j);
    }
  }

  // ---------------------------------------------------------------------------------------------
  // The queue

  lemma SplitHeld(js: seq<Job>, n: nat, inc: nat, k: EventKind)
    requires n <= |js|
    ensures Held(js, inc, k) == Held(js[..n], inc, k) + Held(js[n..], inc, k)
  {
    HeldConcat(js[..n], js[n..], inc, k);
    assert js == js[..n] + js[n..];
  }

  lemma EnqueuedTotals(s: State, job: Job, inc: nat, k: EventKind)
    ensures Total(Enqueued(s, job), inc, k) == Total(s, inc, k) + Holds(job, inc, k)
    ensures Unpublished(Enqueued(s, job), inc, k) == Unpublished(s, inc, k) + Holds(job, inc, k)
  {
    var n := Overflow(s.queue);
    SplitHeld(s.queue, n, inc, k);
    HeldConcat(s.queue[n..], [job], inc, k);
    HeldConcat(s.dropped, s.queue[..n], inc, k);
  }

  /** A step that moves jobs around but loses none: same recognizer, same worker, same counts. */
  ghost predicate Shuffled(s: State, s': State) {
    && s' == s.(probe := s'.probe, queue := s'.queue, dropped := s'.dropped)
    && (forall inc: nat, k: EventKind :: Total(s', inc, k) == Total(s, inc, k))
    && (forall inc: nat, k: EventKind :: Unpublished(s', inc, k) == Unpublished(s, inc, k))
    && (forall j :: j in OpenJobs(s') && j.Own? ==> j in OpenJobs(s))
    && (ProbeOk(s) ==> ProbeOk(s'))
  }

  lemma ShuffledKeepsInv(s: State, s': State)
    requires Inv(s) && Shuffled(s, s')
    ensures Inv(s')
  {
    forall inc: nat, k: EventKind ensures OnceOk(s', inc, k) {
      assert OnceOk(s, inc, k);
      assert Total(s', inc, k) == Total(s, inc, k) && Unpublished(s', inc, k) == Unpublished(s, inc, k);
    }
    forall id, k: EventKind | id in s'.rec.tracks ensures CountOk(s', id, k) && PostedOk(s', id, k) {
      assert CountOk(s, id, k) && PostedOk(s, id, k);
      assert Total(s', s.incOf[id], k) == Total(s, s.incOf[id], k);
    }
    forall j | j in OpenJobs(s') ensures JobOk(s', j) {
      if j.Own? {
        assert JobOk(s, j);
      }
    }
  }

  lemma QueueKeepsInv(s: State, pub: PublisherConfig)
    requires Inv(s) && Enabled(s, Queue)
    ensures Inv(Step(s, Queue, pub))
  {
    var s' := Step(s, Queue, pub);
    forall inc: nat, k: EventKind
      ensures Total(s', inc, k) == Total(s, inc, k) && Unpublished(s', inc, k) == Unpublished(s, inc, k)
    {
      EnqueuedTotals(s.(probe := s'.probe), s.probe.job, inc, k);
      assert s' == Enqueued(s.(probe := s'.probe), s.probe.job);
      HeldOne(s.probe.job, inc, k);
    }
    forall j | j in OpenJobs(s') ensures j in OpenJobs(s) {
    }
    ShuffledKeepsInv(s, s');
  }

  lemma QueueForeignKeepsInv(s: State, pub: PublisherConfig)
    requires Inv(s) && Enabled(s, QueueForeign)
    ensures Inv(Step(s, QueueForeign, pub))
  {
    var s' := Step(s, QueueForeign, pub);
    forall inc: nat, k: EventKind
      ensures Total(s', inc, k) == Total(s, inc, k) && Unpublished(s', inc, k) == Unpublished(s, inc, k)
    {
      EnqueuedTotals(s, Foreign, inc, k);
    }
    ShuffledKeepsInv(s, s');
  }

  // ---------------------------------------------------------------------------------------------
  // The worker thread

  lemma TakeKeepsInv(s: State, pub: PublisherConfig)
    requires Inv(s) && Enabled(s, Take)
    ensures Inv(Step(s, Take, pub))
  {
    var s' := Step(s, Take, pub);
    forall inc: nat, k: EventKind
      ensures Total(s', inc, k) == Total(s, inc, k) && Unpublished(s', inc, k) == Unpublished(s, inc, k)
    {
    }
    forall inc: nat, k: EventKind ensures OnceOk(s', inc, k) {
      assert OnceOk(s, inc, k);
    }
    forall id, k: EventKind | id in s'.rec.tracks ensures CountOk(s', id, k) && PostedOk(s', id, k) {
      assert CountOk(s, id, k) && PostedOk(s, id, k);
      assert Total(s', s.incOf[id], k) == Total(s, s.incOf[id], k);
    }
    forall j | j in OpenJobs(s') ensures JobOk(s', j) {
      assert JobOk(s, j);
    }
  }

  /** Without a publisher the worker loses the job it has taken. */
  lemma DiscardKeepsInv(s: State, pub: PublisherConfig)
    requires Inv(s) && Enabled(s, Discard)
    ensures Inv(Step(s, Discard, pub))
  {
    var s' := Step(s, Discard, pub);
    forall inc: nat, k: EventKind
      ensures Total(s', inc, k) == Total(s, inc, k) && Unpublished(s', inc, k) == Unpublished(s, inc, k)
    {
      HeldConcat(s.dropped, [s.worker.job], inc, k);
      HeldOne(s.worker.job, inc, k);
    }
    forall inc: nat, k: EventKind ensures OnceOk(s', inc, k) {
      assert OnceOk(s, inc, k);
    }
    forall id, k: EventKind | id in s'.rec.tracks ensures CountOk(s', id, k) && PostedOk(s', id, k) {
      assert CountOk(s, id, k) && PostedOk(s, id, k);
      assert Total(s', s.incOf[id], k) == Total(s, s.incOf[id], k);
    }
    forall j | j in OpenJobs(s') ensures JobOk(s', j) {
      assert JobOk(s, j);
    }
  }

  /** s' is s after the worker has published its job. */
  ghost predicate Delivered(s: State, s': State, world: World, pub: PublisherConfig) {
    && s.worker.Publishing? && s.worker.job.Own?
    && var job := s.worker.job;
       s' == s.(worker := Settling(job, DoneMask(pub, job.emit, world)),
                wire := s.wire + Tagged(job.inc, SentEvents(pub, job.emit, world)),
                stray := s.stray + if Stray(pub, job, world) then {job.inc} else {})
  }

  /** What is published was wanted by its job, and is reported done - unless it is a stray vehicle event. */
  lemma SentWasWanted(s: State, world: World, pub: PublisherConfig, k: EventKind)
    requires JobsOk(s) && Loaded(pub) && s.worker.Publishing? && s.worker.job.Own?
    ensures var job := s.worker.job;
            var n := multiset(SentEvents(pub, job.emit, world))[k];
            && n <= 1
            && (n > 0 && !(k == Plate && Stray(pub, job, world)) ==> k in job.want && k in DoneMask(pub, job.emit, world))
  {
    var job := s.worker.job;
    assert job in OpenJobs(s) && JobOk(s, job);
    SentOnce(pub, job.emit, world, k);
    DoneIffFinished(pub, job.emit, world, k);
  }

  /** A kind that is published and not a stray vehicle event is being settled afterwards. */
  lemma SentIsSettled(s: State, s': State, world: World, pub: PublisherConfig, k: EventKind)
    requires JobsOk(s) && Loaded(pub) && Delivered(s, s', world, pub)
    ensures var inc := s.worker.job.inc;
            var sent := multiset(SentEvents(pub, s.worker.job.emit, world))[k];
            sent <= 1 && (sent > 0 && Exclusive(s', inc, k) ==> BeingSettled(s', inc, k))
  {
    SentWasWanted(s, world, pub, k);
  }

  lemma DeliveredTotals(s: State, s': State, world: World, pub: PublisherConfig, inc: nat, k: EventKind)
    requires Delivered(s, s', world, pub)
    ensures Total(s', inc, k) == Total(s, inc, k)
    ensures Unpublished(s', inc, k) == Unpublished(s, inc, k) - Holds(s.worker.job, inc, k)
  {
  }

  lemma DeliveredCounts(s: State, s': State, world: World, pub: PublisherConfig, inc: nat, k: EventKind)
    requires JobsOk(s) && Loaded(pub) && Delivered(s, s', world, pub)
    ensures var sent := if inc == s.worker.job.inc then multiset(SentEvents(pub, s.worker.job.emit, world))[k] else 0;
            && Published(s', inc, k) == Published(s, inc, k) + sent
            && sent <= 1
            && (sent > 0 && Exclusive(s', inc, k) ==> BeingSettled(s', inc, k))
  {
    TaggedCount(s.worker.job.inc, SentEvents(pub, s.worker.job.emit, world), inc, k);
    SentIsSettled(s, s', world, pub, k);
  }

  lemma PublishKeepsOnce(s: State, s': State, world: World, pub: PublisherConfig, inc: nat, k: EventKind)
    requires Inv(s) && Loaded(pub) && Delivered(s, s', world, pub)
    ensures OnceOk(s', inc, k)
  {
    assert s.worker.job in OpenJobs(s) && JobOk(s, s.worker.job);
    assert OnceOk(s, inc, k);
    DeliveredTotals(s, s', world, pub, inc, k);
    DeliveredCounts(s, s', world, pub, inc, k);
    OnceCarriesOver(s, s', inc, k, Published(s', inc, k) - Published(s, inc, k));
  }

  /** At most once stays at most once when a job that holds the kind publishes it, and says so. */
  lemma OnceCarriesOver(s: State, s': State, inc: nat, k: EventKind, sent: int)
    requires OnceOk(s, inc, k) && s.worker.Publishing? && s'.worker.Settling? && s'.worker.job == s.worker.job
    requires s'.tainted == s.tainted && s.stray <= s'.stray && s'.nextInc == s.nextInc && 0 <= sent <= 1
    requires Total(s', inc, k) == Total(s, inc, k)
    requires Unpublished(s', inc, k) == Unpublished(s, inc, k) - Holds(s.worker.job, inc, k)
    requires Published(s', inc, k) == Published(s, inc, k) + sent
    requires sent > 0 && Exclusive(s', inc, k) ==> Holds(s.worker.job, inc, k) == 1 && k in s'.worker.done
    requires sent > 0 ==> inc < s.nextInc
    ensures OnceOk(s', inc, k)
  {
  }

  lemma PublishKeepsCount(s: State, s': State, world: World, pub: PublisherConfig, id: nat, k: EventKind)
    requires Inv(s) && Loaded(pub) && Delivered(s, s', world, pub) && id in s.rec.tracks
    ensures CountOk(s', id, k)
  {
    assert CountOk(s, id, k);
    DeliveredTotals(s, s', world, pub, s.incOf[id], k);
  }

  lemma PublishKeepsPosted(s: State, s': State, world: World, pub: PublisherConfig, id: nat, k: EventKind)
    requires Inv(s) && Loaded(pub) && Delivered(s, s', world, pub) && id in s.rec.tracks
    ensures PostedOk(s', id, k)
  {
    DeliveredCounts(s, s', world, pub, s.incOf[id], k);
    PostedCarriesOver(s, s', id, k);
  }

  lemma PostedCarriesOver(s: State, s': State, id: nat, k: EventKind)
    requires s.incOf.Keys == s.rec.tracks.Keys && LiveOk(s) && id in s.rec.tracks && s.worker.Publishing?
    requires s'.rec == s.rec && s'.incOf == s.incOf && s'.tainted == s.tainted && s.stray <= s'.stray
    requires Published(s', s.incOf[id], k) > Published(s, s.incOf[id], k) && Exclusive(s', s.incOf[id], k) ==>
               BeingSettled(s', s.incOf[id], k)
    ensures PostedOk(s', id, k)
  {
    assert PostedOk(s, id, k);
  }

  lemma PublishKeepsInv(s: State, world: World, pub: PublisherConfig)
    requires Inv(s) && Loaded(pub) && Enabled(s, Publish(world))
    ensures Inv(Step(s, Publish(world), pub))
  {
    var s' := Step(s, Publish(world), pub);
    if s.worker.job.Own? {
      forall inc: nat, k: EventKind ensures OnceOk(s', inc, k) {
        PublishKeepsOnce(s, s', world, pub, inc, k);
      }
      forall id, k: EventKind | id in s'.rec.tracks ensures CountOk(s', id, k) && PostedOk(s', id, k) {
        PublishKeepsCount(s, s', world, pub, id, k);
        PublishKeepsPosted(s, s', world, pub, id, k);
      }
      forall j | j in OpenJobs(s') ensures JobOk(s', j) {
        assert JobOk(s, j);
      }
    } else {
      DiscardForeignKeepsInv(s, s');
    }
  }

  lemma DiscardForeignKeepsInv(s: State, s': State)
    requires Inv(s) && !s.worker.Resting? && s.worker.job.Foreign? && s' == s.(worker := Resting)
    ensures Inv(s')
  {
    forall inc: nat, k: EventKind ensures OnceOk(s', inc, k) {
      assert OnceOk(s, inc, k);
    }
    forall id, k: EventKind | id in s'.rec.tracks ensures CountOk(s', id, k) && PostedOk(s', id, k) {
      assert CountOk(s, id, k) && PostedOk(s, id, k);
      assert !BeingSettled(s, s.incOf[id], k);
    }
    forall j | j in OpenJobs(s') ensures JobOk(s', j) {
      assert JobOk(s, j);
    }
  }

  lemma SettleKeepsEntry(s: State, rec': Rec, e: ReadyEmit, now: real)
    requires EntryOk(s, e, now) && Settling?(s)
    requires var job := s.worker.job; rec' == Settle(s.rec, job.emit.trackId, job.want, s.worker.done)
    requires OwnIds(s.rec)
    requires e.trackId == s.worker.job.emit.trackId ==>
               forall k :: k in e.ready && k in s.worker.job.want ==> !Guarded(s, s.incOf[e.trackId], k)
    ensures EntryOk(s.(rec := rec'), e, now)
  {
    var job := s.worker.job;
    var id := job.emit.trackId;
    if id in s.rec.tracks {
      AllKindsComplete();
      SettleFacts(s.rec.tracks[id], s.rec.dedup, job.want, s.worker.done, 4);
    }
  }

  /** A kind that is being settled is in flight, so it is not on the ready list. */
  lemma NotReadyWhileSettling(s: State, e: ReadyEmit, now: real)
    requires Inv(s) && EntryOk(s, e, now) && Settling?(s) && SettlesOwn(s) && e.trackId == s.worker.job.emit.trackId
    ensures forall k :: k in e.ready && k in s.worker.job.want ==> !Guarded(s, s.incOf[e.trackId], k)
  {
    var job := s.worker.job;
    assert job in OpenJobs(s) && JobOk(s, job);
    forall k | k in e.ready && k in job.want ensures !Guarded(s, s.incOf[e.trackId], k) {
      assert CountOk(s, e.trackId, k);
      assert Holds(job, s.incOf[e.trackId], k) == 1;
    }
  }

  ghost predicate Settling?(s: State) { s.worker.Settling? && s.worker.job.Own? }

  lemma SettleTrack(s: State, rec': Rec, id: nat, k: EventKind)
    requires OwnIds(s.rec) && Settling?(s) && id in s.rec.tracks
    requires var job := s.worker.job; rec' == Settle(s.rec, job.emit.trackId, job.want, s.worker.done)
    ensures var job := s.worker.job;
            var v := s.rec.tracks[id].kinds.Get(k);
            && rec'.cfg == s.rec.cfg && rec'.tracks.Keys == s.rec.tracks.Keys
            && rec'.tracks[id].id == id && rec'.tracks[id].final == s.rec.tracks[id].final
            && rec'.tracks[id].kinds.Get(k) ==
                 (if id != job.emit.trackId || k !in job.want then v
                  else if k in s.worker.done then v.(pushed := true, posted := true)
                  else v.(pushed := false))
  {
    var job := s.worker.job;
    if job.emit.trackId in s.rec.tracks {
      AllKindsComplete();
      SettleFacts(s.rec.tracks[job.emit.trackId], s.rec.dedup, job.want, s.worker.done, 4);
    }
  }

  lemma SettledTotals(s: State, rec': Rec, inc: nat, k: EventKind)
    requires Settling?(s)
    ensures var s' := s.(rec := rec', worker := Resting);
            && Total(s', inc, k) == Total(s, inc, k) - Holds(s.worker.job, inc, k)
            && Unpublished(s', inc, k) == Unpublished(s, inc, k)
  {
  }

  lemma SettledKeepsLive(s: State, s': State, id: nat, k: EventKind)
    requires Inv(s) && Settling?(s) && SettlesOwn(s) && id in s.rec.tracks
    requires var job := s.worker.job;
             s' == s.(rec := Settle(s.rec, job.emit.trackId, job.want, s.worker.done), worker := Resting)
    ensures id in s'.rec.tracks && CountOk(s', id, k) && PostedOk(s', id, k)
  {
    var job := s.worker.job;
    assert job in OpenJobs(s) && JobOk(s, job);
    assert CountOk(s, id, k) && PostedOk(s, id, k);
    SettleTrack(s, s'.rec, id, k);
    SettledTotals(s, s'.rec, s.incOf[id], k);
    assert OnceOk(s, s.incOf[id], k);
  }

  lemma SettledKeepsInv(s: State, pub: PublisherConfig)
    requires Inv(s) && Enabled(s, Settled)
    ensures Inv(Step(s, Settled, pub))
  {
    var s' := Step(s, Settled, pub);
    if s.worker.job.Foreign? {
      DiscardForeignKeepsInv(s, s');
    } else {
      forall inc: nat, k: EventKind ensures OnceOk(s', inc, k) {
        assert OnceOk(s, inc, k);
        SettledTotals(s, s'.rec, inc, k);
      }
      forall id, k: EventKind | id in s'.rec.tracks ensures CountOk(s', id, k) && PostedOk(s', id, k) {
        SettledKeepsLive(s, s', id, k);
      }
      forall id | id in s.rec.tracks ensures id in s'.rec.tracks && s'.rec.tracks[id].id == id {
        SettleTrack(s, s'.rec, id, Plate);
      }
      forall j | j in OpenJobs(s') ensures JobOk(s', j) {
        assert JobOk(s, j);
      }
      var rest, now := RestOf(s.probe), AskedAt(s.probe);
      forall i | 0 <= i < |rest| ensures EntryOk(s', rest[i], now) {
        assert EntryOk(s, rest[i], now);
        if rest[i].trackId == s.worker.job.emit.trackId {
          NotReadyWhileSettling(s, rest[i], now);
        }
        SettleKeepsEntry(s, s'.rec, rest[i], now);
        assert EntryOk(s.(rec := s'.rec), rest[i], now);
      }
    }
  }

  // ---------------------------------------------------------------------------------------------
  // Whole runs

  lemma ObservationKeepsInv(s: State, ev: Event, pub: PublisherConfig)
    requires Inv(s) && Enabled(s, ev)
    requires ev.Helmet? || ev.Lane? || ev.Way? || ev.Reading? || ev.Snapshot? || ev.Missed?
    ensures Inv(Step(s, ev, pub))
  {
    match ev
    case Helmet(id, people) =>
      if id in s.rec.tracks {
        HelmetBenign(s.rec.tracks[id], people);
        BenignUpdate(s, id, AddHelmet(s.rec.tracks[id], people));
      }
    case Lane(id, zone) =>
      if id in s.rec.tracks {
        KindHitBenign(s.rec.tracks[id], WrongLane, 0.0, 0, zone);
        BenignUpdate(s, id, AddWrongLane(s.rec.tracks[id], zone));
      }
    case Way(id, line, now) =>
      if id in s.rec.tracks {
        WrongWayBenign(s.rec.tracks[id], line, now);
        BenignUpdate(s, id, AddWrongWay(s.rec.tracks[id], line, now));
      }
    case Reading(id, chars, raw, now, meanConf, sampleArea, plateArea) =>
      if id in s.rec.tracks {
        ReadingBenign(s.rec.tracks[id], chars, raw, now, meanConf, sampleArea, plateArea);
        BenignUpdate(s, id, AddOcr(s.rec.tracks[id], chars, raw, now, meanConf, sampleArea, plateArea).0);
      }
    case Snapshot(id, k) =>
      if id in s.rec.tracks {
        KindChangeBenign(s.rec.tracks[id], k, s.rec.tracks[id].kinds.Get(k).(needsSnapshot := false, hasSnapshot := true));
        BenignUpdate(s, id, MarkSnapshot(s.rec.tracks[id], k));
      }
    case Missed(now) =>
      forall id | id in s.rec.tracks ensures Benign(s.rec.tracks[id], TryFinalizeMiss(s.rec.tracks[id], now).0) {
        MissBenign(s.rec.tracks[id], now);
      }
      ObservedKeepsInv(s, Step(s, ev, pub));
  }

  lemma StepKeepsInv(s: State, ev: Event, pub: PublisherConfig)
    requires Inv(s) && Loaded(pub) && Enabled(s, ev)
    ensures Inv(Step(s, ev, pub))
  {
    match ev
    case Sight(id, cls, conf, inZone, now) => SightKeepsInv(s, id, cls, conf, inZone, now, pub);
    case Stale(now) => StaleKeepsInv(s, now, pub);
    case Clean(now) => CleanKeepsInv(s, now, pub);
    case Ask(now, list) => AskKeepsInv(s, now, list, pub);
    case CommitNext(hasImages, hasCrop) => CommitKeepsInv(s, hasImages, hasCrop, pub);
    case Queue => QueueKeepsInv(s, pub);
    case QueueForeign => QueueForeignKeepsInv(s, pub);
    case EndFrame => ProbeChangeKeepsInv(s, Step(s, EndFrame, pub));
    case Take => TakeKeepsInv(s, pub);
    case Discard => DiscardKeepsInv(s, pub);
    case Publish(world) => PublishKeepsInv(s, world, pub);
    case Settled => SettledKeepsInv(s, pub);
    case _ => ObservationKeepsInv(s, ev, pub);
  }

  ghost predicate RunsTo(s0: State, evs: seq<Event>, s: State, pub: PublisherConfig)
    decreases |evs|
  {
    if evs == [] then s == s0
    else
      && s0.incOf.Keys == s0.rec.tracks.Keys
      && Enabled(s0, evs[0])
      && RunsTo(Step(s0, evs[0], pub), evs[1..], s, pub)
  }

  lemma {:induction false} RunKeepsInv(s0: State, evs: seq<Event>, s: State, pub: PublisherConfig)
    requires Inv(s0) && Loaded(pub) && RunsTo(s0, evs, s, pub)
    ensures Inv(s)
    decreases |evs|
  {
    if evs == [] {
    } else {
      StepKeepsInv(s0, evs[0], pub);
      RunKeepsInv(Step(s0, evs[0], pub), evs[1..], s, pub);
    }
  }

  /** Over every interleaving from the start, no incarnation of a track has its NO_HELMET or its WRONG_LANE published
      twice; the same holds for WRONG_WAY unless its state was thrown away while a job for it was under way. */
  lemma ViolationsPublishedAtMostOnce(cfg: Config, evs: seq<Event>, s: State, pub: PublisherConfig, inc: nat, k: EventKind)
    requires Loaded(pub) && RunsTo(InitState(cfg), evs, s, pub)
    requires k == NoHelmet || k == WrongLane || (k == WrongWay && inc !in s.tainted)
    ensures Published(s, inc, k) <= 1
  {
    InitInv(cfg);
    RunKeepsInv(InitState(cfg), evs, s, pub);
    assert OnceOk(s, inc, k);
  }

  // ---------------------------------------------------------------------------------------------
  // The vehicle event

  /** On this run no job of the incarnation comes as far as sending the vehicle event without wanting PLATE. */
  ghost predicate NeverStray(s0: State, evs: seq<Event>, pub: PublisherConfig, inc: nat)
    decreases |evs|
  {
    evs != [] && s0.incOf.Keys == s0.rec.tracks.Keys && CanStep(s0, evs[0]) ==>
      && !(evs[0].Publish? && s0.worker.job.Own? && s0.worker.job.inc == inc && Stray(pub, s0.worker.job, evs[0].world))
      && NeverStray(Step(s0, evs[0], pub), evs[1..], pub, inc)
  }

  lemma {:induction false} StrayIsNoted(s0: State, evs: seq<Event>, s: State, pub: PublisherConfig, inc: nat)
    requires RunsTo(s0, evs, s, pub)
    ensures inc in s.stray <==> inc in s0.stray || !NeverStray(s0, evs, pub, inc)
    decreases |evs|
  {
    if evs == [] {
    } else {
      StrayIsNoted(Step(s0, evs[0], pub), evs[1..], s, pub, inc);
    }
  }

  /** Over every interleaving the vehicle event of an incarnation goes out at most once, as long as no job of it that
      does not want PLATE passes the two questions asked before that send: is an image stored, and is there no
      violation to publish. */
  lemma VehicleEventAtMostOnce(cfg: Config, evs: seq<Event>, s: State, pub: PublisherConfig, inc: nat)
    requires Loaded(pub) && RunsTo(InitState(cfg), evs, s, pub) && NeverStray(InitState(cfg), evs, pub, inc)
    ensures Published(s, inc, Plate) <= 1
  {
    InitInv(cfg);
    RunKeepsInv(InitState(cfg), evs, s, pub);
    StrayIsNoted(InitState(cfg), evs, s, pub, inc);
    assert OnceOk(s, inc, Plate);
  }

  /** Exactly when a publish puts a vehicle event on the wire. */
  lemma VehicleEventCondition(s: State, world: World, pub: PublisherConfig)
    requires Inv(s) && Loaded(pub) && s.worker.Publishing? && s.worker.job.Own?
    ensures var job := s.worker.job;
            Published(Step(s, Publish(world), pub), job.inc, Plate) ==
              Published(s, job.inc, Plate) +
              if Keyed(pub, job.emit, world) && !HasViolation(pub, job.emit, world.allowedLater)
                 && SendOk(pub, world, Plate) then 1 else 0
  {
    TaggedCount(s.worker.job.inc, SentEvents(pub, s.worker.job.emit, world), s.worker.job.inc, Plate);
    SentOnce(pub, s.worker.job.emit, world, Plate);
  }

  /** And the condition is needed: after a first vehicle event, a publish adds a second one exactly when its job is
      such a stray one and the send succeeds. */
  lemma SecondVehicleEvent(cfg: Config, evs: seq<Event>, s: State, world: World, s': State, pub: PublisherConfig)
    requires Loaded(pub) && RunsTo(InitState(cfg), evs, s, pub) && s.worker.Publishing? && s.worker.job.Own?
    requires NeverStray(InitState(cfg), evs, pub, s.worker.job.inc) && Published(s, s.worker.job.inc, Plate) == 1
    requires RunsTo(s, [Publish(world)], s', pub)
    ensures Published(s', s.worker.job.inc, Plate) == 2 <==>
              Stray(pub, s.worker.job, world) && SendOk(pub, world, Plate)
  {
    InitInv(cfg);
    RunKeepsInv(InitState(cfg), evs, s, pub);
    StrayIsNoted(InitState(cfg), evs, s, pub, s.worker.job.inc);
    VehicleEventCondition(s, world, pub);
    PublishKeepsInv(s, world, pub);
    assert s' == Step(s, Publish(world), pub) && OnceOk(s', s.worker.job.inc, Plate);
  }

  // ---------------------------------------------------------------------------------------------
  // What follows for live tracks

  /** A published kind of a live track is closed: it is not ready at any time. */
  lemma PublishedIsClosed(cfg: Config, evs: seq<Event>, s: State, pub: PublisherConfig, id: nat, k: EventKind, now: real)
    requires Loaded(pub) && RunsTo(InitState(cfg), evs, s, pub) && id in s.rec.tracks && id in s.incOf
    requires Exclusive(s, s.incOf[id], k) && Published(s, s.incOf[id], k) > 0
    ensures !ReadyAt(s.rec, id, k, now)
  {
    InitInv(cfg);
    RunKeepsInv(InitState(cfg), evs, s, pub);
    assert CountOk(s, id, k) && PostedOk(s, id, k);
  }

  /** Conservation in every reachable state: a kind of a live track is in flight (pushed, not posted) exactly when
      one job holds it, and that job is still open or was lost: dropped from the full queue, or taken by a worker
      without a publisher. So the only kinds that stay pushed for ever are those of lost jobs. */
  lemma InFlightIsOneJob(cfg: Config, evs: seq<Event>, s: State, pub: PublisherConfig, id: nat, k: EventKind)
    requires Loaded(pub) && RunsTo(InitState(cfg), evs, s, pub) && id in s.rec.tracks
    ensures id in s.incOf
    ensures Guarded(s, s.incOf[id], k) ==>
              && (InFlight(s.rec.tracks[id].kinds.Get(k)) <==>
                    Held(OpenJobs(s), s.incOf[id], k) + Held(s.dropped, s.incOf[id], k) == 1)
              && Held(OpenJobs(s), s.incOf[id], k) + Held(s.dropped, s.incOf[id], k) <= 1
  {
    InitInv(cfg);
    RunKeepsInv(InitState(cfg), evs, s, pub);
    var inc := s.incOf[id];
    assert CountOk(s, id, k) && OnceOk(s, inc, k);
    HeldConcat(s.queue + ProbeJobs(s.probe), WorkerJobs(s.worker), inc, k);
    HeldConcat(s.queue, ProbeJobs(s.probe), inc, k);
    if !s.worker.Resting? {
      HeldOne(s.worker.job, inc, k);
    }
  }

  /** A kind whose job was lost stays lost: it is never published, and never ready again, in any later state. */
  lemma DroppedKindIsLost(cfg: Config, evs: seq<Event>, s: State, pub: PublisherConfig, id: nat, k: EventKind, now: real)
    requires Loaded(pub) && RunsTo(InitState(cfg), evs, s, pub) && id in s.rec.tracks && id in s.incOf
    requires Guarded(s, s.incOf[id], k) && Held(s.dropped, s.incOf[id], k) > 0
    ensures Exclusive(s, s.incOf[id], k) ==> Published(s, s.incOf[id], k) == 0
    ensures !ReadyAt(s.rec, id, k, now)
  {
    InitInv(cfg);
    RunKeepsInv(InitState(cfg), evs, s, pub);
    assert CountOk(s, id, k) && OnceOk(s, s.incOf[id], k);
  }

  /** What was lost stays lost. */
  lemma DroppedOnlyGrows(s: State, ev: Event, pub: PublisherConfig)
    requires s.incOf.Keys == s.rec.tracks.Keys && Enabled(s, ev)
    ensures s.dropped <= Step(s, ev, pub).dropped
  {
  }

  // ---------------------------------------------------------------------------------------------
  // A job settled on another vehicle's track

  /** What a settlement does to the kinds of the track that has the id now, whoever the job was made for: it opens exactly
      the kinds in flight that the job wanted and that are not done, and closes exactly those it wanted that are done. */
  lemma SettlementTouches(s: State, s': State, pub: PublisherConfig, k: EventKind)
    requires Registry(s) && Settling?(s) && s.worker.job.emit.trackId in s.rec.tracks && s' == Step(s, Settled, pub)
    ensures var id := s.worker.job.emit.trackId;
            var v := s.rec.tracks[id].kinds.Get(k);
            && id in s'.rec.tracks
            && var v' := s'.rec.tracks[id].kinds.Get(k);
               && (!IsOpen(v) && IsOpen(v') <==> InFlight(v) && k in s.worker.job.want && k !in s.worker.done)
               && (!v.posted && v'.posted <==> !v.posted && k in s.worker.job.want && k in s.worker.done)
  {
    SettleTrack(s, s'.rec, s.worker.job.emit.trackId, k);
  }

  /** Without the assumption on ids: the settlement of an earlier vehicle's job takes no job from the vehicle that has the
      id now. So from a state in which the law of one job per kind in flight holds, the law breaks for kind k of that
      vehicle exactly when k is in flight and the old job wanted it: not done, it is open while its own job exists; done,
      it is posted although nobody published it. */
  lemma StaleSettlementBreaks(s: State, s': State, pub: PublisherConfig, k: EventKind)
    requires Registry(s) && Settling?(s) && s.worker.job.emit.trackId in s.rec.tracks && !SettlesOwn(s)
    requires s' == Step(s, Settled, pub) && CountOk(s, s.worker.job.emit.trackId, k)
    requires Guarded(s, s.incOf[s.worker.job.emit.trackId], k)
    ensures var id := s.worker.job.emit.trackId;
            && id in s'.rec.tracks && s'.incOf == s.incOf
            && Total(s', s.incOf[id], k) == Total(s, s.incOf[id], k)
            && (Total(s', s'.incOf[id], k) != (if InFlight(s'.rec.tracks[id].kinds.Get(k)) then 1 else 0) <==>
                  InFlight(s.rec.tracks[id].kinds.Get(k)) && k in s.worker.job.want)
  {
    var id := s.worker.job.emit.trackId;
    SettleTrack(s, s'.rec, id, k);
    SettledTotals(s, s'.rec, s.incOf[id], k);
  }

  // ---------------------------------------------------------------------------------------------
  // Posted kinds stay closed

  ghost predicate Alive(s: State, id: nat, inc: nat) {
    id in s.rec.tracks && id in s.incOf && s.incOf[id] == inc
  }

  lemma SettleKeepsPosted(r: Rec, id: nat, want: KindSet, done: KindSet, x: nat, k: EventKind)
    requires OwnIds(r) && x in r.tracks && r.tracks[x].kinds.Get(k).posted
    ensures Settle(r, id, want, done).tracks[x].kinds.Get(k).posted
  {
    if id in r.tracks {
      AllKindsComplete();
      SettleFacts(r.tracks[id], r.dedup, want, done, 4);
    }
  }

  lemma CommitKeepsPosted(r: Rec, id: nat, plate: string, want: KindSet, now: real, x: nat, k: EventKind)
    requires x in r.tracks && r.tracks[x].kinds.Get(k).posted
    ensures Commit(r, id, plate, want, now).0.tracks[x].kinds.Get(k).posted
  {
    if want != {} && id in r.tracks {
      CommitMarks(r.tracks[id], r.dedup, plate, want, now, 4);
    }
  }

  lemma ObservationKeepsPosted(s: State, ev: Event, pub: PublisherConfig, id: nat, k: EventKind)
    requires Inv(s) && Enabled(s, ev) && id in s.rec.tracks && s.rec.tracks[id].kinds.Get(k).posted
    requires ev.Sight? || ev.Helmet? || ev.Lane? || ev.Way? || ev.Reading? || ev.Snapshot? || ev.Missed?
    ensures var s' := Step(s, ev, pub); id in s'.rec.tracks && s'.rec.tracks[id].kinds.Get(k).posted
  {
    var t := s.rec.tracks[id];
    match ev
    case Sight(x, cls, conf, inZone, now) => SightingBenign(t, cls, conf, inZone, now);
    case Helmet(x, people) => HelmetBenign(t, people);
    case Lane(x, zone) => KindHitBenign(t, WrongLane, 0.0, 0, zone);
    case Way(x, line, now) => WrongWayBenign(t, line, now);
    case Reading(x, chars, raw, now, meanConf, sampleArea, plateArea) =>
      ReadingBenign(t, chars, raw, now, meanConf, sampleArea, plateArea);
    case Snapshot(x, j) =>
      KindChangeBenign(t, j, t.kinds.Get(j).(needsSnapshot := false, hasSnapshot := true));
    case Missed(now) => MissBenign(t, now);
  }

  lemma StepKeepsPosted(s: State, ev: Event, pub: PublisherConfig, id: nat, inc: nat, k: EventKind)
    requires Inv(s) && Enabled(s, ev) && Alive(s, id, inc) && s.rec.tracks[id].kinds.Get(k).posted
    ensures Alive(Step(s, ev, pub), id, inc) ==> Step(s, ev, pub).rec.tracks[id].kinds.Get(k).posted
  {
    match ev
    case Ask(now, list) => AskEffect(s.rec.tracks[id], s.rec.dedup.seen, s.rec.cfg, now, k);
    case CommitNext(_, hasCrop) =>
      var e := s.probe.rest[0];
      CommitKeepsPosted(s.rec, e.trackId, e.plate, Wanted(e.ready, hasCrop), s.probe.now, id, k);
    case Settled =>
      if s.worker.job.Own? {
        SettleKeepsPosted(s.rec, s.worker.job.emit.trackId, s.worker.job.want, s.worker.done, id, k);
      }
    case Stale(_) =>
    case Clean(_) =>
    case Queue =>
    case QueueForeign =>
    case EndFrame =>
    case Take =>
    case Discard =>
    case Publish(_) =>
    case _ => ObservationKeepsPosted(s, ev, pub, id, k);
  }

  /** An incarnation that is gone, or whose id now belongs to another one, never comes back. */
  lemma {:induction false} GoneForGood(s0: State, evs: seq<Event>, s: State, pub: PublisherConfig, id: nat, inc: nat)
    requires RunsTo(s0, evs, s, pub) && !Alive(s0, id, inc) && inc < s0.nextInc
    ensures !Alive(s, id, inc)
    decreases |evs|
  {
    if evs == [] {
    } else {
      GoneForGood(Step(s0, evs[0], pub), evs[1..], s, pub, id, inc);
    }
  }

  /** Once a kind is posted it never appears in a ready mask again, whatever happens, as long as the track lives. */
  lemma {:induction false} PostedNeverReady(s0: State, evs: seq<Event>, s: State, pub: PublisherConfig, id: nat, inc: nat,
                                            k: EventKind, now: real)
    requires Inv(s0) && Loaded(pub) && RunsTo(s0, evs, s, pub)
    requires Alive(s0, id, inc) && s0.rec.tracks[id].kinds.Get(k).posted && Alive(s, id, inc)
    ensures s.rec.tracks[id].kinds.Get(k).posted && k !in ReadyOf(s.rec, id, now)
    decreases |evs|
  {
    if evs == [] {
    } else {
      var s1 := Step(s0, evs[0], pub);
      StepKeepsInv(s0, evs[0], pub);
      StepKeepsPosted(s0, evs[0], pub, id, inc, k);
      if !Alive(s1, id, inc) {
        assert s0.incOf[id] < s0.nextInc;
        GoneForGood(s1, evs[1..], s, pub, id, inc);
      }
      PostedNeverReady(s1, evs[1..], s, pub, id, inc, k, now);
    }
  }
}
