/** Building blocks for concrete runs of the emit protocol with one track. */
module EmitRuns {
  import opened Kinds
  import opened Dedup
  import opened TrackState
  import opened Recognizer
  import opened EmitGate
  import opened Publisher
  import opened EmitProtocol
  import opened EmitSafety
  import opened EmitSteps

  // ---------------------------------------------------------------------------------------------
  // Reachability

  ghost predicate Reaches(s0: State, s: State, pub: PublisherConfig) {
    exists evs :: RunsTo(s0, evs, s, pub)
  }

  /** Runs without the assumption on track ids. */
  ghost predicate RunsLoosely(s0: State, evs: seq<Event>, s: State, pub: PublisherConfig)
    decreases |evs|
  {
    if evs == [] then s == s0
    else
      && s0.incOf.Keys == s0.rec.tracks.Keys
      && CanStep(s0, evs[0])
      && RunsLoosely(Step(s0, evs[0], pub), evs[1..], s, pub)
  }

  ghost predicate ReachesLoosely(s0: State, s: State, pub: PublisherConfig) {
    exists evs :: RunsLoosely(s0, evs, s, pub)
  }

  lemma {:induction false} RunConcat(s0: State, a: seq<Event>, s1: State, b: seq<Event>, s2: State, pub: PublisherConfig)
    requires RunsTo(s0, a, s1, pub) && RunsTo(s1, b, s2, pub)
    ensures RunsTo(s0, a + b, s2, pub)
    decreases |a|
  {
    if a == [] {
      assert a + b == b;
    } else {
      RunConcat(Step(s0, a[0], pub), a[1..], s1, b, s2, pub);
      assert (a + b)[0] == a[0] && (a + b)[1..] == a[1..] + b;
    }
  }

  lemma {:induction false} LooseConcat(s0: State, a: seq<Event>, s1: State, b: seq<Event>, s2: State, pub: PublisherConfig)
    requires RunsLoosely(s0, a, s1, pub) && RunsLoosely(s1, b, s2, pub)
    ensures RunsLoosely(s0, a + b, s2, pub)
    decreases |a|
  {
    if a == [] {
      assert a + b == b;
    } else {
      LooseConcat(Step(s0, a[0], pub), a[1..], s1, b, s2, pub);
      assert (a + b)[0] == a[0] && (a + b)[1..] == a[1..] + b;
    }
  }

  lemma Then(s0: State, s1: State, s2: State, pub: PublisherConfig)
    requires Reaches(s0, s1, pub) && Reaches(s1, s2, pub)
    ensures Reaches(s0, s2, pub)
  {
    var a :| RunsTo(s0, a, s1, pub);
    var b :| RunsTo(s1, b, s2, pub);
    RunConcat(s0, a, s1, b, s2, pub);
  }

  lemma ThenLoosely(s0: State, s1: State, s2: State, pub: PublisherConfig)
    requires ReachesLoosely(s0, s1, pub) && ReachesLoosely(s1, s2, pub)
    ensures ReachesLoosely(s0, s2, pub)
  {
    var a :| RunsLoosely(s0, a, s1, pub);
    var b :| RunsLoosely(s1, b, s2, pub);
    LooseConcat(s0, a, s1, b, s2, pub);
  }

  lemma {:induction false} RunIsLoose(s0: State, evs: seq<Event>, s: State, pub: PublisherConfig)
    requires RunsTo(s0, evs, s, pub)
    ensures RunsLoosely(s0, evs, s, pub)
    decreases |evs|
  {
    if evs == [] {
    } else {
      RunIsLoose(Step(s0, evs[0], pub), evs[1..], s, pub);
    }
  }

  lemma ReachIsLoose(s0: State, s: State, pub: PublisherConfig)
    requires Reaches(s0, s, pub)
    ensures ReachesLoosely(s0, s, pub)
  {
    var evs :| RunsTo(s0, evs, s, pub);
    RunIsLoose(s0, evs, s, pub);
  }

  lemma OneStep(s: State, ev: Event, s': State, pub: PublisherConfig)
    requires s.incOf.Keys == s.rec.tracks.Keys && Enabled(s, ev) && s' == Step(s, ev, pub)
    ensures Reaches(s, s', pub)
  {
    assert [ev][1..] == [];
    assert RunsTo(s, [ev], s', pub);
  }

  lemma OneLooseStep(s: State, ev: Event, s': State, pub: PublisherConfig)
    requires s.incOf.Keys == s.rec.tracks.Keys && CanStep(s, ev) && s' == Step(s, ev, pub)
    ensures ReachesLoosely(s, s', pub)
  {
    assert [ev][1..] == [];
    assert RunsLoosely(s, [ev], s', pub);
  }

  // ---------------------------------------------------------------------------------------------
  // Ids that are not reused while a job is open

  /** No open job carries this id. */
  ghost predicate IdFree(s: State, id: nat) {
    forall j :: j in OpenJobs(s) && j.Own? ==> j.emit.trackId != id
  }

  /** On this run the tracker gives an id to a new vehicle only when no job with that id is open. */
  ghost predicate FreshIds(s0: State, evs: seq<Event>, pub: PublisherConfig)
    decreases |evs|
  {
    evs != [] && s0.incOf.Keys == s0.rec.tracks.Keys && CanStep(s0, evs[0]) ==>
      && (evs[0].Sight? && evs[0].id !in s0.rec.tracks ==> IdFree(s0, evs[0].id))
      && FreshIds(Step(s0, evs[0], pub), evs[1..], pub)
  }

  /** Each open job belongs to the vehicle that has its id, if there is one. */
  ghost predicate JobsAreCurrent(s: State) {
    forall j :: j in OpenJobs(s) && j.Own? && j.emit.trackId in s.incOf ==> s.incOf[j.emit.trackId] == j.inc
  }

  lemma StepKeepsCurrent(s: State, ev: Event, pub: PublisherConfig)
    requires s.incOf.Keys == s.rec.tracks.Keys && CanStep(s, ev) && JobsAreCurrent(s)
    requires ev.Sight? && ev.id !in s.rec.tracks ==> IdFree(s, ev.id)
    ensures JobsAreCurrent(Step(s, ev, pub))
  {
    var s' := Step(s, ev, pub);
    forall j | j in OpenJobs(s') && j.Own? && j.emit.trackId in s'.incOf ensures s'.incOf[j.emit.trackId] == j.inc {
      if !(ev.CommitNext? && s'.probe.Holding? && j == s'.probe.job) {
        assert j in OpenJobs(s);
      }
    }
  }

  /** Then every job is settled on its own vehicle's track or on none: fresh ids are enough for the assumption on which
      the safety results rest. */
  lemma {:induction false} FreshIdsSuffice(s0: State, evs: seq<Event>, s: State, pub: PublisherConfig)
    requires RunsLoosely(s0, evs, s, pub) && FreshIds(s0, evs, pub) && JobsAreCurrent(s0)
    ensures RunsTo(s0, evs, s, pub)
    decreases |evs|
  {
    if evs == [] {
    } else {
      StepKeepsCurrent(s0, evs[0], pub);
      if evs[0].Settled? && s0.worker.job.Own? {
        assert s0.worker.job in OpenJobs(s0);
      }
      FreshIdsSuffice(Step(s0, evs[0], pub), evs[1..], s, pub);
    }
  }

  // ---------------------------------------------------------------------------------------------
  // A frame that queues one job

  /** No frame is being worked on, and the camera sees one vehicle. */
  ghost predicate Calm(s: State, id: nat) {
    Registry(s) && s.probe.Idle? && s.rec.tracks.Keys == {id}
  }

  /** Everything new in the cache expires a lifetime after `now`. */
  ghost predicate AddsAt(c: Cache, c': Cache, keys: set<Key>, now: real) {
    && c'.ttl == c.ttl && c'.maxlen == c.maxlen
    && forall key :: key in c'.seen ==>
         (key in c.seen && c'.seen[key] == c.seen[key]) || (key in keys && c'.seen[key] == ExpiryOf(c.ttl, now))
  }

  lemma AddOneAt(c: Cache, c1: Cache, keys: set<Key>, key: Key, now: real)
    requires AddsAt(c, c1, keys, now)
    ensures AddsAt(c, Remember(c1, key, now), keys + {key}, now)
  {
    RememberFacts(c1, key, now);
  }

  lemma {:induction false} CommitAddsAt(t: Track, c: Cache, plate: string, kinds: KindSet, now: real, n: nat)
    requires n <= 4
    ensures AddsAt(c, CommitKinds(t, c, plate, kinds, now, n).dedup, KeysFor(t.id, plate, kinds), now)
  {
    if n == 0 {
    } else {
      CommitAddsAt(t, c, plate, kinds, now, n - 1);
      var prev := CommitKinds(t, c, plate, kinds, now, n - 1);
      AddOneAt(c, prev.dedup, KeysFor(t.id, plate, kinds), Key(t.id, plate, ALL_KINDS[n - 1]), now);
    }
  }

  function AskedKind(t: Track, k: EventKind, seen: map<Key, real>, cfg: Config, now: real, want: KindSet): ViolationState {
    var v := KindAfterAsk(t, k, seen, cfg, now);
    if k in want then v.(pushed := true) else v
  }

  /** What one frame does that asks, commits the wanted kinds of track id, and queues the job. */
  ghost predicate JobQueued(s: State, s': State, id: nat, now: real, hasCrop: bool, want: KindSet)
    requires id in s.rec.tracks && id in s.incOf
  {
    var t := s.rec.tracks[id];
    && id in s'.rec.tracks
    && var t' := s'.rec.tracks[id];
    && s' == s.(rec := s'.rec,
                queue := s.queue + [Own(s.incOf[id], want, BuildEmit(EmitOf(t, ReadyOf(s.rec, id, now)), want, hasCrop))])
    && s'.rec == Rec(s.rec.cfg, map[id := t'], s'.rec.dedup)
    && t' == t.(kinds := t'.kinds)
    && (forall k: EventKind :: t'.kinds.Get(k) == AskedKind(t, k, s.rec.dedup.seen, s.rec.cfg, now, want))
    && AddsAt(s.rec.dedup, s'.rec.dedup, KeysFor(id, t.final.emitPlate, want), now)
  }

  lemma AskOne(s: State, id: nat, now: real, s1: State, entry: ReadyEmit, pub: PublisherConfig)
    requires Calm(s, id) && ReadyOf(s.rec, id, now) != {}
    requires entry == EmitOf(s.rec.tracks[id], ReadyOf(s.rec, id, now))
    requires s1 == s.(rec := Collect(s.rec, now), probe := Emitting([entry], now))
    ensures Reaches(s, s1, pub)
    ensures entry.trackId == id && Registry(s1) && EntryOk(s1, entry, now)
  {
    assert IsReadyList(s.rec, now, [entry]) by {
      assert ListedRight(s.rec, s.rec.tracks.Keys, now, entry);
      forall x | x in s.rec.tracks.Keys && x in s.rec.tracks ensures exists i :: 0 <= i < |[entry]| && [entry][i].trackId == x {
        assert [entry][0].trackId == x;
      }
    }
    OneStep(s, Ask(now, [entry]), s1, pub);
    AskedEntryOk(s, s1, entry, now);
  }

  lemma CommitOne(s1: State, s2: State, entry: ReadyEmit, now: real, hasCrop: bool, want: KindSet, pub: PublisherConfig)
    requires Registry(s1) && s1.probe == Emitting([entry], now) && EntryOk(s1, entry, now)
    requires want == Wanted(entry.ready, hasCrop) && want != {}
    requires s2 == s1.(rec := Commit(s1.rec, entry.trackId, entry.plate, want, now).0,
                       probe := Holding(Own(s1.incOf[entry.trackId], want, BuildEmit(entry, want, hasCrop)), [], now))
    ensures Reaches(s1, s2, pub)
    ensures s2.rec.cfg == s1.rec.cfg && s2.rec.tracks.Keys == s1.rec.tracks.Keys
    ensures Pushed(s1.rec.tracks[entry.trackId], s2.rec.tracks[entry.trackId], want)
    ensures AddsAt(s1.rec.dedup, s2.rec.dedup, KeysFor(entry.trackId, entry.plate, want), now)
  {
    EntryCommits(s1, entry, want, now);
    CommitAddsAt(s1.rec.tracks[entry.trackId], s1.rec.dedup, entry.plate, want, now, 4);
    assert [entry][1..] == [];
    OneStep(s1, CommitNext(true, hasCrop), s2, pub);
  }

  lemma QueueOne(s2: State, s': State, pub: PublisherConfig)
    requires s2.incOf.Keys == s2.rec.tracks.Keys && s2.probe.Holding? && s2.probe.rest == []
    requires |s2.queue| < MAX_EMIT_QUEUE && s' == s2.(probe := Idle, queue := s2.queue + [s2.probe.job])
    ensures Reaches(s2, s', pub)
  {
    var s3 := Step(s2, Queue, pub);
    OneStep(s2, Queue, s3, pub);
    assert s2.queue[0..] == s2.queue && s2.dropped + s2.queue[..0] == s2.dropped;
    OneStep(s3, EndFrame, s', pub);
    Then(s2, s3, s', pub);
  }

  /** One frame with a ready kind, an image, and room in the queue. */
  lemma QueueJob(s: State, id: nat, now: real, hasCrop: bool, want: KindSet, pub: PublisherConfig) returns (s': State)
    requires Calm(s, id) && |s.queue| < MAX_EMIT_QUEUE
    requires want == Wanted(ReadyOf(s.rec, id, now), hasCrop) && want != {}
    ensures Reaches(s, s', pub) && Calm(s', id) && JobQueued(s, s', id, now, hasCrop, want)
  {
    var entry := EmitOf(s.rec.tracks[id], ReadyOf(s.rec, id, now));
    var s1 := s.(rec := Collect(s.rec, now), probe := Emitting([entry], now));
    AskOne(s, id, now, s1, entry, pub);
    s' := CommitAndQueue(s1, entry, now, hasCrop, want, pub);
    Then(s, s1, s', pub);
    QueuedIs(s, s', id, now, hasCrop, want, entry);
  }

  lemma QueuedIs(s: State, s': State, id: nat, now: real, hasCrop: bool, want: KindSet, entry: ReadyEmit)
    requires Calm(s, id) && want <= ReadyOf(s.rec, id, now) && want != {}
    requires entry == EmitOf(s.rec.tracks[id], ReadyOf(s.rec, id, now))
    requires s' == s.(rec := s'.rec, probe := Idle,
                      queue := s.queue + [Own(s.incOf[id], want, BuildEmit(entry, want, hasCrop))])
    requires var r1 := Collect(s.rec, now);
             && s'.rec.cfg == r1.cfg && s'.rec.tracks.Keys == r1.tracks.Keys
             && Pushed(r1.tracks[id], s'.rec.tracks[id], want)
             && AddsAt(r1.dedup, s'.rec.dedup, KeysFor(id, entry.plate, want), now)
    ensures Calm(s', id) && JobQueued(s, s', id, now, hasCrop, want)
  {
    QueuedKinds(s, Collect(s.rec, now), s'.rec, id, now, want);
  }

  lemma CommitAndQueue(s1: State, entry: ReadyEmit, now: real, hasCrop: bool, want: KindSet, pub: PublisherConfig)
    returns (s': State)
    requires Registry(s1) && s1.probe == Emitting([entry], now) && EntryOk(s1, entry, now)
    requires want == Wanted(entry.ready, hasCrop) && want != {} && |s1.queue| < MAX_EMIT_QUEUE
    ensures Reaches(s1, s', pub)
    ensures s' == s1.(rec := s'.rec, probe := Idle,
                      queue := s1.queue + [Own(s1.incOf[entry.trackId], want, BuildEmit(entry, want, hasCrop))])
    ensures s'.rec.cfg == s1.rec.cfg && s'.rec.tracks.Keys == s1.rec.tracks.Keys
    ensures Pushed(s1.rec.tracks[entry.trackId], s'.rec.tracks[entry.trackId], want)
    ensures AddsAt(s1.rec.dedup, s'.rec.dedup, KeysFor(entry.trackId, entry.plate, want), now)
  {
    var job := Own(s1.incOf[entry.trackId], want, BuildEmit(entry, want, hasCrop));
    var s2 := s1.(rec := Commit(s1.rec, entry.trackId, entry.plate, want, now).0, probe := Holding(job, [], now));
    CommitOne(s1, s2, entry, now, hasCrop, want, pub);
    s' := s2.(probe := Idle, queue := s2.queue + [job]);
    QueueOne(s2, s', pub);
    Then(s1, s2, s', pub);
  }

  lemma QueuedKinds(s: State, r1: Rec, r': Rec, id: nat, now: real, want: KindSet)
    requires Calm(s, id) && r1 == Collect(s.rec, now) && r'.cfg == r1.cfg && r'.tracks.Keys == r1.tracks.Keys
    requires want <= ReadyOf(s.rec, id, now) && want != {} && Pushed(r1.tracks[id], r'.tracks[id], want)
    ensures r' == Rec(s.rec.cfg, map[id := r'.tracks[id]], r'.dedup)
    ensures r'.tracks[id] == s.rec.tracks[id].(kinds := r'.tracks[id].kinds) && OwnIds(r')
    ensures forall k: EventKind ::
              r'.tracks[id].kinds.Get(k) == AskedKind(s.rec.tracks[id], k, s.rec.dedup.seen, s.rec.cfg, now, want)
  {
    var k0 :| k0 in want;
    assert Ready(s.rec.tracks[id], k0, s.rec.dedup.seen, s.rec.cfg, now);
    forall k: EventKind
      ensures r'.tracks[id].kinds.Get(k) == AskedKind(s.rec.tracks[id], k, s.rec.dedup.seen, s.rec.cfg, now, want)
    {
      AskFacts(s.rec.tracks[id], s.rec.dedup.seen, s.rec.cfg, now, k);
    }
  }

  // ---------------------------------------------------------------------------------------------
  // The worker

  lemma TakeJob(s: State, s': State, pub: PublisherConfig)
    requires s.incOf.Keys == s.rec.tracks.Keys && s.worker.Resting? && s.queue != [] && s.queue[0].Own?
    requires s' == s.(queue := s.queue[1..], worker := Publishing(s.queue[0]))
    ensures Reaches(s, s', pub)
  {
    OneStep(s, Take, s', pub);
  }

  lemma PublishJob(s: State, s': State, world: World, pub: PublisherConfig)
    requires s.incOf.Keys == s.rec.tracks.Keys && Delivered(s, s', world, pub)
    ensures Reaches(s, s', pub)
  {
    OneStep(s, Publish(world), s', pub);
  }

  /** The kinds of the job are settled: the done ones are posted, the others are open again and forgotten. */
  ghost predicate JobSettled(s: State, s': State, id: nat)
    requires Settling?(s) && id in s.rec.tracks
  {
    var t := s.rec.tracks[id];
    var (want, done) := (s.worker.job.want, s.worker.done);
    && id in s'.rec.tracks
    && var t' := s'.rec.tracks[id];
    && s' == s.(rec := s'.rec, worker := Resting)
    && s'.rec == Rec(s.rec.cfg, map[id := t'], s'.rec.dedup)
    && t' == t.(kinds := t'.kinds)
    && (forall k: EventKind :: t'.kinds.Get(k) ==
          (if k !in want then t.kinds.Get(k)
           else if k in done then t.kinds.Get(k).(pushed := true, posted := true)
           else t.kinds.Get(k).(pushed := false)))
    && s'.rec.dedup == s.rec.dedup.(seen := s.rec.dedup.seen - KeysFor(id, t.final.emitPlate, want - done))
  }

  lemma SettleJob(s: State, id: nat, pub: PublisherConfig) returns (s': State)
    requires Registry(s) && s.rec.tracks.Keys == {id} && Settling?(s) && s.worker.job.emit.trackId == id
    ensures ReachesLoosely(s, s', pub) && (SettlesOwn(s) ==> Reaches(s, s', pub))
    ensures Registry(s') && JobSettled(s, s', id)
  {
    s' := Step(s, Settled, pub);
    OneLooseStep(s, Settled, s', pub);
    if SettlesOwn(s) {
      OneStep(s, Settled, s', pub);
    }
    SettledIs(s, s', id);
  }

  lemma SettledIs(s: State, s': State, id: nat)
    requires Registry(s) && s.rec.tracks.Keys == {id} && Settling?(s) && s.worker.job.emit.trackId == id
    requires s' == s.(rec := Settle(s.rec, id, s.worker.job.want, s.worker.done), worker := Resting)
    ensures Registry(s') && JobSettled(s, s', id)
  {
    AllKindsComplete();
    var (want, done) := (s.worker.job.want, s.worker.done);
    SettleFacts(s.rec.tracks[id], s.rec.dedup, want, done, 4);
    assert want * FirstKinds(4) == want;
    assert s'.rec.tracks == map[id := s'.rec.tracks[id]];
  }
}
