/** What the emit protocol does not promise, shown on runs from start-up. */
module EmitLimits {
  import opened Kinds
  import opened Rules
  import opened Dedup
  import opened TrackState
  import opened Recognizer
  import opened EmitGate
  import opened Publisher
  import opened EmitProtocol
  import opened EmitSafety
  import opened EmitSteps
  import opened EmitRuns

  const DEMO_CONFIG := Config(1, ["N"], 2, 1.0, 0.0, 10.0)
  const DEMO_PUBLISHER := PublisherConfig(true, false, Threshold(true, 1), Threshold(true, 1), Threshold(true, 1))
  const DEMO_CHARS: CharSequence := [CharReading("7", 0.9)]

  /** The broker works; the camera allows no violation code. */
  const PLATES_ONLY := World(true, true, {Plate}, {}, {})

  /** The broker works; the camera allows the wrong-way code. */
  const WAYS_ALLOWED := World(true, true, {Plate, WrongWay}, {WrongWay}, {WrongWay})

  /** No picture can be uploaded. */
  const NO_UPLOAD := World(false, false, {}, {}, {})

  // ---------------------------------------------------------------------------------------------
  // A vehicle with a final plate that has crossed a forbidden line

  ghost predicate Crossed(s: State, seen: real) {
    && Calm(s, 7) && s.rec.cfg == DEMO_CONFIG && s.rec.dedup.ttl == DEDUP_TTL_S
    && seen > 0.0 && HasCrossed(s.rec.tracks[7], seen)
  }

  predicate HasCrossed(t: Track, seen: real) {
    && t.createdAt == seen && t.final.chosen
    && t.kinds.plate == FRESH_KIND && t.kinds.noHelmet == FRESH_KIND && t.kinds.wrongLane == FRESH_KIND
    && IsCrossing(t.kinds.wrongWay, seen) && t.kinds.wrongWay.pairedAt == seen
  }

  /** One reading makes a plate final. */
  predicate OneReading(cfg: Config) { cfg.maxTimes == 1 && cfg.styles == ["N"] }

  predicate IsCrossing(v: ViolationState, at: real) {
    v.hits == 1 && v.firstHitAt == at && v.lastAttempt == 0.0 && IsOpen(v)
  }

  /** A track as it is just after its first sighting in the zone. */
  predicate JustSeen(t: Track, at: real) {
    && t.id == 7 && t.maxTimes == 1 && t.createdAt == at && t.zone.inPolygon && t.ocr == NO_OCR && t.final == NO_PLATE
    && t.kinds == Uniform(FRESH_KIND)
  }

  lemma ReadingFinishes(t: Track, at: real)
    requires JustSeen(t, at)
    ensures var t' := AddOcr(t, DEMO_CHARS, "7", at, 0.9, 1.0, 1.0).0;
            && t'.id == 7 && t'.createdAt == at && t'.final.chosen && t'.kinds == t.kinds
  {
  }

  /** In the same frame the vehicle is read once, which makes its plate final, and crosses a line. */
  lemma ReadAndCross(s: State, at: real) returns (s': State)
    requires Calm(s, 7) && JustSeen(s.rec.tracks[7], at) && at > 0.0
    ensures Reaches(s, s', DEMO_PUBLISHER) && Calm(s', 7) && HasCrossed(s'.rec.tracks[7], at)
    ensures s' == s.(rec := s.rec.(tracks := s'.rec.tracks))
  {
    var t := s.rec.tracks[7];
    var t1 := AddOcr(t, DEMO_CHARS, "7", at, 0.9, 1.0, 1.0).0;
    ReadingFinishes(t, at);
    var s1 := s.(rec := s.rec.(tracks := s.rec.tracks[7 := t1]));
    OneStep(s, Reading(7, DEMO_CHARS, "7", at, 0.9, 1.0, 1.0), s1, DEMO_PUBLISHER);
    s' := Cross(s1, at);
    Then(s, s1, s', DEMO_PUBLISHER);
  }

  lemma Cross(s: State, at: real) returns (s': State)
    requires Registry(s) && s.rec.tracks.Keys == {7} && s.rec.tracks[7].kinds.wrongWay == FRESH_KIND && at > 0.0
    ensures Reaches(s, s', DEMO_PUBLISHER) && Registry(s')
    ensures 7 in s'.rec.tracks && s' == s.(rec := s.rec.(tracks := map[7 := s'.rec.tracks[7]]))
    ensures var t, t' := s.rec.tracks[7], s'.rec.tracks[7];
            && t' == t.(kinds := t'.kinds, labels := t'.labels)
            && t'.kinds == t.kinds.(wrongWay := t'.kinds.wrongWay) && IsCrossing(t'.kinds.wrongWay, at)
            && (t.final.chosen ==> t'.kinds.wrongWay.pairedAt == at)
  {
    var t := s.rec.tracks[7];
    var t' := AddWrongWay(t, "L", at);
    s' := s.(rec := s.rec.(tracks := s.rec.tracks[7 := t']));
    OneStep(s, Way(7, "L", at), s', DEMO_PUBLISHER);
    assert s.rec.tracks[7 := t'] == map[7 := t'];
  }

  lemma FirstSight(s: State, at: real, s': State)
    requires Registry(s) && OneReading(s.rec.cfg) && s.rec.tracks == map[] && s.probe.Idle?
    requires s' == s.(rec := s.rec.(tracks := s'.rec.tracks), incOf := map[7 := s.nextInc], nextInc := s.nextInc + 1)
    requires s'.rec.tracks == map[7 := OnEnter(NewTrack(7, at, 1, ["N"]), at).(classes := [(1, 1.0)])]
    ensures s' == Step(s, Sight(7, 1, 1.0, true, at), DEMO_PUBLISHER)
    ensures Calm(s', 7) && JustSeen(s'.rec.tracks[7], at)
  {
    var t := NewTrack(7, at, 1, ["N"]);
    assert t.classes + [(1, 1.0)] == [(1, 1.0)];
    assert SightingOf(t, 1, 1.0, true, at).0 == s'.rec.tracks[7];
    assert s.rec.tracks[7 := s'.rec.tracks[7]] == s'.rec.tracks;
    assert s.incOf == map[] && s.incOf[7 := s.nextInc] == s'.incOf;
  }

  /** The first vehicle. */
  lemma FirstVehicle(cfg: Config) returns (s: State)
    requires OneReading(cfg)
    ensures Reaches(InitState(cfg), s, DEMO_PUBLISHER) && Calm(s, 7) && HasCrossed(s.rec.tracks[7], 1.0)
    ensures s == InitState(cfg).(rec := s.rec, incOf := map[7 := 0], nextInc := 1)
    ensures s.rec == InitState(cfg).rec.(tracks := s.rec.tracks)
  {
    var s0 := InitState(cfg);
    var t := OnEnter(NewTrack(7, 1.0, 1, ["N"]), 1.0).(classes := [(1, 1.0)]);
    var s1 := s0.(rec := s0.rec.(tracks := map[7 := t]), incOf := map[7 := 0], nextInc := 1);
    FirstSight(s0, 1.0, s1);
    OneStep(s0, Sight(7, 1, 1.0, true, 1.0), s1, DEMO_PUBLISHER);
    s := ReadAndCross(s1, 1.0);
    Then(s0, s1, s, DEMO_PUBLISHER);
  }

  // ---------------------------------------------------------------------------------------------
  // A settling time longer than the wait

  const SLOW_CONFIG := Config(1, ["N"], 2, 1.0, 20.0, 10.0)

  /** Plate and violation are there in the same frame, but with 20 seconds to settle and 10 to wait WRONG_WAY is not ready
      in any later frame. */
  lemma SlowSettlingSilences() returns (s: State)
    ensures Reaches(InitState(SLOW_CONFIG), s, DEMO_PUBLISHER) && HasKindAndPlate(s)
    ensures forall now :: now >= 1.0 ==> !ReadyAt(ClearStale(s.rec, now), 7, WrongWay, now)
  {
    s := FirstVehicle(SLOW_CONFIG);
    forall now | now >= 1.0 ensures !ReadyAt(ClearStale(s.rec, now), 7, WrongWay, now) {
      if now < 11.0 {
        assert !StaleWrongWay(s.rec.tracks[7], SLOW_CONFIG, now);
      } else {
        assert StaleWrongWay(s.rec.tracks[7], SLOW_CONFIG, now);
      }
    }
  }

  predicate HasKindAndPlate(s: State) {
    7 in s.rec.tracks && s.rec.tracks[7].final.chosen && s.rec.tracks[7].kinds.wrongWay.hits == 1
  }

  // ---------------------------------------------------------------------------------------------
  // Two vehicle events for one track

  /** With no violation code allowed, every job sends the vehicle event, whatever it wants. */
  lemma PlatesOnlySendsVehicleEvent(emit: PlateEmit)
    requires emit.hasFull
    ensures SentEvents(DEMO_PUBLISHER, emit, PLATES_ONLY) == [Plate]
    ensures DoneMask(DEMO_PUBLISHER, emit, PLATES_ONLY) == {Plate, NoHelmet, WrongLane, WrongWay}
  {
  }

  /** The only job is through the worker, with this outcome. */
  ghost predicate WorkedOff(s: State, s': State, done: KindSet)
    requires 7 in s.rec.tracks && s.queue != [] && s.queue[0].Own?
  {
    JobSettled(s.(worker := Settling(s.queue[0], done)), s'.(queue := s.queue, wire := s.wire, stray := s.stray), 7)
  }

  /** Taking, publishing and settling the only job of a quiet state. */
  lemma WorkOff(s: State, world: World) returns (s': State)
    requires Calm(s, 7) && s.worker.Resting? && |s.queue| == 1 && s.queue[0].Own? && s.queue[0].emit.trackId == 7
    requires s.queue[0].inc == s.incOf[7]
    ensures Reaches(s, s', DEMO_PUBLISHER) && Calm(s', 7)
    ensures var job := s.queue[0];
            && s'.wire == s.wire + Tagged(job.inc, SentEvents(DEMO_PUBLISHER, job.emit, world))
            && WorkedOff(s, s', DoneMask(DEMO_PUBLISHER, job.emit, world))
            && s'.queue == []
  {
    var job := s.queue[0];
    var s1 := s.(queue := s.queue[1..], worker := Publishing(job));
    TakeJob(s, s1, DEMO_PUBLISHER);
    var s2 := Step(s1, Publish(world), DEMO_PUBLISHER);
    PublishJob(s1, s2, world, DEMO_PUBLISHER);
    s' := SettleJob(s2, 7, DEMO_PUBLISHER);
    Then(s, s1, s2, DEMO_PUBLISHER);
    Then(s, s2, s', DEMO_PUBLISHER);
  }

  /** Nothing in the cache counts at this time. */
  ghost predicate Forgotten(s: State, now: real) {
    forall key :: key in s.rec.dedup.seen ==> !AlreadyEmitted(s.rec.dedup.seen, key, now)
  }

  lemma BothReady(s: State, seen: real, now: real)
    requires Crossed(s, seen) && Forgotten(s, now)
    ensures ReadyOf(s.rec, 7, now) == {Plate, WrongWay}
  {
  }

  lemma OnlyWrongWayReady(s: State, now: real)
    requires Calm(s, 7) && s.rec.cfg == DEMO_CONFIG
    requires var t := s.rec.tracks[7];
             && t.final.chosen && t.kinds.plate.pushed && t.kinds.noHelmet.hits == 0 && t.kinds.wrongLane.hits == 0
             && t.kinds.wrongWay.hits == 1 && IsOpen(t.kinds.wrongWay)
             && (t.kinds.wrongWay.lastAttempt <= 0.0 || now - t.kinds.wrongWay.lastAttempt >= 1.0)
             && !AlreadyEmitted(s.rec.dedup.seen, KeyOf(t, WrongWay), now)
    ensures ReadyOf(s.rec, 7, now) == {WrongWay}
  {
  }

  /** The plate alone: WRONG_WAY still waits for the crop. */
  lemma PlateAlone(s: State) returns (s': State)
    requires Crossed(s, 1.0) && s.rec.dedup.seen == map[] && s.queue == [] && s.worker.Resting?
    ensures Reaches(s, s', DEMO_PUBLISHER) && Calm(s', 7) && s'.queue == [] && s'.worker.Resting?
    ensures s'.incOf == s.incOf && s'.wire == s.wire + [(s.incOf[7], Plate)] && ReadyOf(s'.rec, 7, 6.0) == {WrongWay}
  {
    BothReady(s, 1.0, 1.0);
    assert Wanted({Plate, WrongWay}, false) == {Plate};
    var s1 := QueueJob(s, 7, 1.0, false, {Plate}, DEMO_PUBLISHER);
    s' := WorkOff(s1, PLATES_ONLY);
    Then(s, s1, s', DEMO_PUBLISHER);
    PlatesOnlySendsVehicleEvent(s1.queue[0].emit);
    WayStillReady(s, s1, s');
  }

  lemma WayStillReady(s: State, s1: State, s': State)
    requires Crossed(s, 1.0) && s.rec.dedup.seen == map[] && JobQueued(s, s1, 7, 1.0, false, {Plate}) && Calm(s1, 7)
    requires s1.queue != [] && s1.queue[0].Own? && s1.queue[0].want == {Plate} && Calm(s', 7)
    requires WorkedOff(s1, s', {Plate, NoHelmet, WrongLane, WrongWay})
    ensures ReadyOf(s'.rec, 7, 6.0) == {WrongWay}
  {
    assert s'.rec.tracks[7].kinds.Get(Plate).pushed;
    assert s'.rec.tracks[7].kinds.Get(NoHelmet).hits == 0 && s'.rec.tracks[7].kinds.Get(WrongLane).hits == 0;
    assert s'.rec.tracks[7].kinds.Get(WrongWay) == s.rec.tracks[7].kinds.wrongWay.(lastAttempt := 1.0);
    OnlyWrongWayReady(s', 6.0);
  }

  lemma WrongWayAlone(s: State) returns (s': State)
    requires Calm(s, 7) && s.queue == [] && s.worker.Resting? && ReadyOf(s.rec, 7, 6.0) == {WrongWay}
    ensures Reaches(s, s', DEMO_PUBLISHER) && s'.wire == s.wire + [(s.incOf[7], Plate)]
  {
    assert Wanted({WrongWay}, true) == {WrongWay};
    var s1 := QueueJob(s, 7, 6.0, true, {WrongWay}, DEMO_PUBLISHER);
    s' := WorkOff(s1, PLATES_ONLY);
    Then(s, s1, s', DEMO_PUBLISHER);
    PlatesOnlySendsVehicleEvent(s1.queue[0].emit);
  }

  /** At most one vehicle event per track is not promised: the publisher never looks at what its job wants. Here
      the plate is published first, because WRONG_WAY still waits for its crop; when the crop is there, the job
      for WRONG_WAY alone publishes the vehicle event a second time. */
  lemma VehicleEventTwice() returns (s: State)
    ensures Reaches(InitState(DEMO_CONFIG), s, DEMO_PUBLISHER) && Published(s, 0, Plate) == 2
  {
    var s0 := FirstVehicle(DEMO_CONFIG);
    s := TwoRounds(s0);
    Then(InitState(DEMO_CONFIG), s0, s, DEMO_PUBLISHER);
    assert s.wire == [(0, Plate), (0, Plate)];
  }

  lemma TwoRounds(s: State) returns (s': State)
    requires Crossed(s, 1.0) && s.rec.dedup.seen == map[] && s.queue == [] && s.worker.Resting?
    ensures Reaches(s, s', DEMO_PUBLISHER) && s'.wire == s.wire + [(s.incOf[7], Plate), (s.incOf[7], Plate)]
  {
    var s1 := PlateAlone(s);
    s' := WrongWayAlone(s1);
    Then(s, s1, s', DEMO_PUBLISHER);
  }

  // ---------------------------------------------------------------------------------------------
  // Two jobs for one violation

  /** A job with a wrong-way hit, published while the code is allowed, sends exactly that event. */
  lemma WaySendsWay(emit: PlateEmit)
    requires emit.hasFull && emit.wrongWayHits >= 1 && emit.noHelmetFrames == 0 && emit.wrongLaneFrames == 0
    ensures SentEvents(DEMO_PUBLISHER, emit, WAYS_ALLOWED) == [WrongWay]
    ensures DoneMask(DEMO_PUBLISHER, emit, WAYS_ALLOWED) == {Plate, NoHelmet, WrongLane, WrongWay}
  {
    assert CanPublish(DEMO_PUBLISHER, emit, WrongWay, {WrongWay});
  }

  predicate IsWayJob(job: Job, inc: nat) {
    && job.Own? && job.inc == inc && job.emit.trackId == 7 && job.emit.hasFull
    && job.emit.wrongWayHits == 1 && job.emit.noHelmetFrames == 0 && job.emit.wrongLaneFrames == 0
  }

  /** The worker publishes its job, settles it, takes the next one and publishes that. */
  lemma PublishBoth(s: State, inc: nat) returns (s': State)
    requires s.incOf.Keys == s.rec.tracks.Keys && (7 in s.incOf ==> s.incOf[7] == inc)
    requires s.worker.Publishing? && IsWayJob(s.worker.job, inc) && s.queue != [] && IsWayJob(s.queue[0], inc)
    ensures Reaches(s, s', DEMO_PUBLISHER)
    ensures s'.wire == s.wire + [(inc, WrongWay), (inc, WrongWay)] && s'.tainted == s.tainted
  {
    var s2 := PublishAndSettle(s, inc);
    s' := TakeAndPublish(s2, inc);
    Then(s, s2, s', DEMO_PUBLISHER);
  }

  lemma PublishAndSettle(s: State, inc: nat) returns (s': State)
    requires s.incOf.Keys == s.rec.tracks.Keys && (7 in s.incOf ==> s.incOf[7] == inc)
    requires s.worker.Publishing? && IsWayJob(s.worker.job, inc)
    ensures Reaches(s, s', DEMO_PUBLISHER) && s'.incOf.Keys == s'.rec.tracks.Keys && s'.worker.Resting?
    ensures s'.wire == s.wire + [(inc, WrongWay)] && s'.tainted == s.tainted && s'.queue == s.queue
  {
    WaySendsWay(s.worker.job.emit);
    var s1 := Step(s, Publish(WAYS_ALLOWED), DEMO_PUBLISHER);
    PublishJob(s, s1, WAYS_ALLOWED, DEMO_PUBLISHER);
    s' := JustSettle(s1, inc);
    Then(s, s1, s', DEMO_PUBLISHER);
  }

  lemma JustSettle(s: State, inc: nat) returns (s': State)
    requires s.incOf.Keys == s.rec.tracks.Keys && (7 in s.incOf ==> s.incOf[7] == inc)
    requires s.worker.Settling? && IsWayJob(s.worker.job, inc)
    ensures Reaches(s, s', DEMO_PUBLISHER)
    ensures s' == s.(rec := s'.rec, worker := Resting) && s'.rec.tracks.Keys == s.rec.tracks.Keys
  {
    s' := s.(rec := Settle(s.rec, 7, s.worker.job.want, s.worker.done), worker := Resting);
    OneStep(s, Settled, s', DEMO_PUBLISHER);
  }

  lemma TakeAndPublish(s: State, inc: nat) returns (s': State)
    requires s.incOf.Keys == s.rec.tracks.Keys && s.worker.Resting? && s.queue != [] && IsWayJob(s.queue[0], inc)
    ensures Reaches(s, s', DEMO_PUBLISHER) && s'.wire == s.wire + [(inc, WrongWay)] && s'.tainted == s.tainted
  {
    WaySendsWay(s.queue[0].emit);
    var s1 := s.(queue := s.queue[1..], worker := Publishing(s.queue[0]));
    TakeJob(s, s1, DEMO_PUBLISHER);
    s' := Step(s1, Publish(WAYS_ALLOWED), DEMO_PUBLISHER);
    PublishJob(s1, s', WAYS_ALLOWED, DEMO_PUBLISHER);
    Then(s, s1, s', DEMO_PUBLISHER);
  }

  /** The first job of a vehicle, in the frame in which it has crossed: it wants PLATE and WRONG_WAY, and what the cache keeps of it
      lives for five minutes. */
  lemma FirstJob(s: State, now: real) returns (s': State)
    requires Crossed(s, now) && Forgotten(s, now) && s.queue == []
    ensures Reaches(s, s', DEMO_PUBLISHER) && Calm(s', 7)
    ensures |s'.queue| == 1 && IsWayJob(s'.queue[0], s.incOf[7]) && s'.queue[0].want == {Plate, WrongWay}
    ensures s' == s.(rec := s'.rec, queue := s'.queue) && s'.rec.cfg == DEMO_CONFIG && s'.rec.dedup.ttl == DEDUP_TTL_S
    ensures Forgotten(s', now + DEDUP_TTL_S)
    ensures var t, t' := s.rec.tracks[7], s'.rec.tracks[7];
            && t' == t.(kinds := t'.kinds) && t'.kinds == t.kinds.(plate := t'.kinds.plate, wrongWay := t'.kinds.wrongWay)
            && t'.kinds.plate == FRESH_KIND.(lastAttempt := now, pushed := true)
            && t'.kinds.wrongWay == t.kinds.wrongWay.(lastAttempt := now, pushed := true)
  {
    BothReady(s, now, now);
    assert Wanted({Plate, WrongWay}, true) == {Plate, WrongWay};
    s' := QueueJob(s, 7, now, true, {Plate, WrongWay}, DEMO_PUBLISHER);
    assert s'.rec.tracks[7].kinds.Get(Plate) == FRESH_KIND.(lastAttempt := now, pushed := true);
    assert s'.rec.tracks[7].kinds.Get(NoHelmet) == FRESH_KIND && s'.rec.tracks[7].kinds.Get(WrongLane) == FRESH_KIND;
    assert s'.rec.tracks[7].kinds.Get(WrongWay) == s.rec.tracks[7].kinds.wrongWay.(lastAttempt := now, pushed := true);
  }

  lemma ForgottenLater(s: State, s': State, now: real, later: real)
    requires Forgotten(s, now) && s'.rec.dedup.seen == s.rec.dedup.seen && 0.0 < now <= later
    ensures Forgotten(s', later)
  {
    forall key | key in s'.rec.dedup.seen ensures !AlreadyEmitted(s'.rec.dedup.seen, key, later) {
      assert !AlreadyEmitted(s.rec.dedup.seen, key, now);
    }
  }

  lemma ClearWay(s: State, now: real, s': State)
    requires Calm(s, 7) && StaleWrongWay(s.rec.tracks[7], s.rec.cfg, now) && s.rec.tracks[7].kinds.wrongWay.pushed
    requires s' == s.(rec := s.rec.(tracks := map[7 := ClearKind(s.rec.tracks[7], WrongWay)]),
                      tainted := s.tainted + {s.incOf[7]})
    ensures Reaches(s, s', DEMO_PUBLISHER) && Calm(s', 7)
  {
    assert TaintedBy(s, now) == {s.incOf[7]};
    assert ClearStale(s.rec, now) == s'.rec;
    OneStep(s, Stale(now), s', DEMO_PUBLISHER);
  }

  /** The end of a frame two minutes after the only track was made: the track goes. */
  lemma CleanOld(s: State, now: real, s': State)
    requires Registry(s) && s.rec.tracks.Keys == {7} && s.probe.Idle? && now - s.rec.tracks[7].createdAt > FORCE_DELETE_AGE_S
    requires s' == s.(rec := s.rec.(tracks := map[]), incOf := map[])
    ensures Reaches(s, s', DEMO_PUBLISHER) && Registry(s')
  {
    assert Doomed(s.rec.tracks, now) == {7};
    assert s.rec.tracks - {7} == map[] && s.incOf - {7} == map[];
    OneStep(s, Clean(now), s', DEMO_PUBLISHER);
  }

  /** A frame five minutes after the first violation was cleared while its job was under way: the vehicle crosses again, a
      job is queued, and at the end of the frame the track is deleted for its age. */
  lemma CrossAgain(s: State) returns (s': State)
    requires Calm(s, 7) && s.rec.cfg == DEMO_CONFIG && Forgotten(s, 301.0) && |s.queue| < MAX_EMIT_QUEUE
    requires var t := s.rec.tracks[7];
             && t.createdAt == 1.0 && t.final.chosen && t.kinds.plate.pushed
             && t.kinds.noHelmet == FRESH_KIND && t.kinds.wrongLane == FRESH_KIND && t.kinds.wrongWay == FRESH_KIND
    ensures Reaches(s, s', DEMO_PUBLISHER) && Registry(s') && s'.rec.tracks == map[]
    ensures s' == s.(rec := s'.rec, incOf := map[], queue := s'.queue)
    ensures |s'.queue| == |s.queue| + 1 && s'.queue[..|s.queue|] == s.queue && IsWayJob(s'.queue[|s.queue|], s.incOf[7])
  {
    var s1 := Cross(s, 400.0);
    ForgottenLater(s, s1, 301.0, 400.0);
    OnlyWrongWayReady(s1, 400.0);
    assert Wanted({WrongWay}, true) == {WrongWay};
    var s2 := QueueJob(s1, 7, 400.0, true, {WrongWay}, DEMO_PUBLISHER);
    s' := s2.(rec := s2.rec.(tracks := map[]), incOf := map[]);
    CleanOld(s2, 400.0, s');
    Then(s, s1, s2, DEMO_PUBLISHER);
    Then(s, s2, s', DEMO_PUBLISHER);
  }

  /** The first job is with the worker. */
  lemma FirstJobTaken() returns (s: State)
    ensures Reaches(InitState(DEMO_CONFIG), s, DEMO_PUBLISHER) && Calm(s, 7) && s.rec.cfg == DEMO_CONFIG
    ensures s == InitState(DEMO_CONFIG).(rec := s.rec, incOf := map[7 := 0], nextInc := 1, worker := s.worker)
    ensures s.worker.Publishing? && IsWayJob(s.worker.job, 0) && s.worker.job.want == {Plate, WrongWay}
    ensures Forgotten(s, 301.0) && s.rec.dedup.ttl == DEDUP_TTL_S
    ensures var t := s.rec.tracks[7];
            && t.createdAt == 1.0 && t.final.chosen && t.kinds.plate.pushed
            && t.kinds.noHelmet == FRESH_KIND && t.kinds.wrongLane == FRESH_KIND
            && t.kinds.wrongWay.hits == 1 && t.kinds.wrongWay.firstHitAt == 1.0
            && t.kinds.wrongWay.pushed && !t.kinds.wrongWay.posted
  {
    var s0 := FirstVehicle(DEMO_CONFIG);
    var s1 := FirstJob(s0, 1.0);
    s := s1.(queue := s1.queue[1..], worker := Publishing(s1.queue[0]));
    TakeJob(s1, s, DEMO_PUBLISHER);
    Then(InitState(DEMO_CONFIG), s0, s1, DEMO_PUBLISHER);
    Then(InitState(DEMO_CONFIG), s1, s, DEMO_PUBLISHER);
  }

  /** Clearing a stale WRONG_WAY while its job is under way lets it be published twice for one track. The camera
      drops out for some minutes; when it is back the vehicle crosses again, the key of the first job has expired
      in the cache, and a second job is committed. Then the worker publishes both. */
  lemma ClearedWayTwice() returns (s: State)
    ensures Reaches(InitState(DEMO_CONFIG), s, DEMO_PUBLISHER) && Published(s, 0, WrongWay) == 2 && s.tainted == {0}
  {
    var s0 := FirstJobTaken();
    var s1 := s0.(rec := s0.rec.(tracks := map[7 := ClearKind(s0.rec.tracks[7], WrongWay)]), tainted := {0});
    ClearWay(s0, 11.0, s1);
    ForgottenLater(s0, s1, 301.0, 301.0);
    var s2 := CrossAgain(s1);
    s := PublishBoth(s2, 0);
    Then(InitState(DEMO_CONFIG), s0, s1, DEMO_PUBLISHER);
    Then(InitState(DEMO_CONFIG), s1, s2, DEMO_PUBLISHER);
    Then(InitState(DEMO_CONFIG), s2, s, DEMO_PUBLISHER);
    assert s.wire == [(0, WrongWay), (0, WrongWay)];
  }

  // ---------------------------------------------------------------------------------------------
  // Why ids must not be reused while a job is open

  /** The first job fails to upload; before the failure is settled the track is deleted for its age. */
  lemma FailAndForget() returns (s: State)
    ensures Reaches(InitState(DEMO_CONFIG), s, DEMO_PUBLISHER) && Registry(s) && s.rec.cfg == DEMO_CONFIG
    ensures s.rec.tracks == map[] && s.nextInc == 1 && s.probe.Idle? && s.queue == [] && s.wire == [] && s.tainted == {}
    ensures Settling?(s) && s.worker.job.emit.trackId == 7 && s.worker.job.want == {Plate, WrongWay} && s.worker.done == {}
    ensures Forgotten(s, 301.0) && s.rec.dedup.ttl == DEDUP_TTL_S
  {
    var s0 := FirstJobTaken();
    var job := s0.worker.job;
    assert DoneMask(DEMO_PUBLISHER, job.emit, NO_UPLOAD) == {} && SentEvents(DEMO_PUBLISHER, job.emit, NO_UPLOAD) == [];
    var s1 := Step(s0, Publish(NO_UPLOAD), DEMO_PUBLISHER);
    PublishJob(s0, s1, NO_UPLOAD, DEMO_PUBLISHER);
    s := s1.(rec := s1.rec.(tracks := map[]), incOf := map[]);
    CleanOld(s1, 200.0, s);
    Then(InitState(DEMO_CONFIG), s0, s1, DEMO_PUBLISHER);
    Then(InitState(DEMO_CONFIG), s1, s, DEMO_PUBLISHER);
    ForgottenLater(s0, s, 301.0, 301.0);
  }

  /** A new vehicle gets the id while the old job is still open. */
  lemma SecondVehicle(s: State) returns (s': State)
    requires Registry(s) && s.rec.cfg == DEMO_CONFIG && s.rec.tracks == map[] && s.probe.Idle? && s.nextInc == 1
    requires Forgotten(s, 301.0) && s.rec.dedup.ttl == DEDUP_TTL_S
    ensures Reaches(s, s', DEMO_PUBLISHER) && Crossed(s', 400.0) && Forgotten(s', 400.0)
    ensures s' == s.(rec := s'.rec, incOf := map[7 := 1], nextInc := 2)
  {
    var t := OnEnter(NewTrack(7, 400.0, 1, ["N"]), 400.0).(classes := [(1, 1.0)]);
    var s1 := s.(rec := s.rec.(tracks := map[7 := t]), incOf := map[7 := 1], nextInc := 2);
    FirstSight(s, 400.0, s1);
    OneStep(s, Sight(7, 1, 1.0, true, 400.0), s1, DEMO_PUBLISHER);
    s' := ReadAndCross(s1, 400.0);
    Then(s, s1, s', DEMO_PUBLISHER);
    ForgottenLater(s, s', 301.0, 400.0);
  }

  /** Settling the failed old job, the step that the assumption excludes, opens the new vehicle's kinds again although
      their own job is queued. */
  lemma OldJobReopens(s: State) returns (s': State)
    requires Crossed(s, 400.0) && Forgotten(s, 400.0) && s.queue == []
    requires Settling?(s) && s.worker.job.emit.trackId == 7 && s.worker.job.want == {Plate, WrongWay} && s.worker.done == {}
    ensures ReachesLoosely(s, s', DEMO_PUBLISHER) && Calm(s', 7) && s'.worker.Resting?
    ensures s' == s.(rec := s'.rec, queue := s'.queue, worker := Resting)
    ensures |s'.queue| == 1 && IsWayJob(s'.queue[0], s.incOf[7]) && WrongWay in s'.queue[0].want
    ensures ReadyOf(s'.rec, 7, 402.0) == {Plate, WrongWay}
    ensures s'.rec.tracks[7].kinds.wrongWay.hits == 1
    ensures s'.rec.tracks[7].kinds.noHelmet == FRESH_KIND && s'.rec.tracks[7].kinds.wrongLane == FRESH_KIND
  {
    var s1 := FirstJob(s, 400.0);
    s' := SettleJob(s1, 7, DEMO_PUBLISHER);
    ReachIsLoose(s, s1, DEMO_PUBLISHER);
    ThenLoosely(s, s1, s', DEMO_PUBLISHER);
    ReopenedKinds(s1, s');
  }

  lemma ReopenedKinds(s: State, s': State)
    requires Calm(s, 7) && Calm(s', 7) && s.rec.cfg == DEMO_CONFIG && Settling?(s) && JobSettled(s, s', 7)
    requires s.worker.job.want == {Plate, WrongWay} && s.worker.done == {}
    requires var t := s.rec.tracks[7];
             && t.final.chosen && t.kinds.noHelmet == FRESH_KIND && t.kinds.wrongLane == FRESH_KIND
             && t.kinds.plate == FRESH_KIND.(lastAttempt := 400.0, pushed := true)
             && t.kinds.wrongWay.hits == 1 && t.kinds.wrongWay.lastAttempt == 400.0 && !t.kinds.wrongWay.posted
    ensures ReadyOf(s'.rec, 7, 402.0) == {Plate, WrongWay}
    ensures s'.rec.tracks[7].kinds.wrongWay.hits == 1
    ensures s'.rec.tracks[7].kinds.noHelmet == FRESH_KIND && s'.rec.tracks[7].kinds.wrongLane == FRESH_KIND
  {
    var t, t' := s.rec.tracks[7], s'.rec.tracks[7];
    assert t'.kinds.Get(Plate) == t.kinds.plate.(pushed := false);
    assert t'.kinds.Get(WrongWay) == t.kinds.wrongWay.(pushed := false);
    assert t'.kinds.Get(NoHelmet) == FRESH_KIND && t'.kinds.Get(WrongLane) == FRESH_KIND;
    assert KeyOf(t', Plate) in KeysFor(7, t.final.emitPlate, {Plate, WrongWay} - {});
    assert KeyOf(t', WrongWay) in KeysFor(7, t.final.emitPlate, {Plate, WrongWay} - {});
  }

  lemma CommitAgain(s: State) returns (s': State)
    requires Calm(s, 7) && s.worker.Resting? && |s.queue| == 1 && IsWayJob(s.queue[0], s.incOf[7])
    requires ReadyOf(s.rec, 7, 402.0) == {Plate, WrongWay} && s.rec.tracks[7].kinds.wrongWay.hits == 1
    requires s.rec.tracks[7].kinds.noHelmet == FRESH_KIND && s.rec.tracks[7].kinds.wrongLane == FRESH_KIND
    ensures Reaches(s, s', DEMO_PUBLISHER) && Registry(s') && s'.rec.tracks.Keys == {7}
    ensures s'.worker == Publishing(s.queue[0]) && |s'.queue| == 1 && IsWayJob(s'.queue[0], s.incOf[7])
    ensures s'.wire == s.wire && s'.tainted == s.tainted && s'.incOf == s.incOf
  {
    assert Wanted({Plate, WrongWay}, true) == {Plate, WrongWay};
    var s1 := QueueJob(s, 7, 402.0, true, {Plate, WrongWay}, DEMO_PUBLISHER);
    s' := s1.(queue := s1.queue[1..], worker := Publishing(s1.queue[0]));
    TakeJob(s1, s', DEMO_PUBLISHER);
    Then(s, s1, s', DEMO_PUBLISHER);
  }

  lemma SecondVehicleTwice(s: State) returns (s': State)
    requires Crossed(s, 400.0) && Forgotten(s, 400.0) && s.queue == [] && s.incOf[7] == 1
    requires Settling?(s) && s.worker.job.emit.trackId == 7 && s.worker.job.want == {Plate, WrongWay} && s.worker.done == {}
    ensures ReachesLoosely(s, s', DEMO_PUBLISHER)
    ensures s'.wire == s.wire + [(1, WrongWay), (1, WrongWay)] && s'.tainted == s.tainted
  {
    var s2 := OldJobReopens(s);
    var s3 := CommitAgain(s2);
    s' := PublishBoth(s3, 1);
    Then(s2, s3, s', DEMO_PUBLISHER);
    ReachIsLoose(s2, s', DEMO_PUBLISHER);
    ThenLoosely(s, s2, s', DEMO_PUBLISHER);
  }

  /** Without the assumption on track ids a violation is published twice: the open job of an earlier vehicle with the
      same id is settled as failed, which opens the new vehicle's WRONG_WAY again although its own job is queued. It
      is committed a second time, and the worker publishes both. Nothing was cleared on this run. */
  lemma ReusedIdTwice() returns (s: State)
    ensures ReachesLoosely(InitState(DEMO_CONFIG), s, DEMO_PUBLISHER) && Published(s, 1, WrongWay) == 2 && s.tainted == {}
  {
    var s0 := FailAndForget();
    var s1 := SecondVehicle(s0);
    s := SecondVehicleTwice(s1);
    Then(InitState(DEMO_CONFIG), s0, s1, DEMO_PUBLISHER);
    ReachIsLoose(InitState(DEMO_CONFIG), s1, DEMO_PUBLISHER);
    ThenLoosely(InitState(DEMO_CONFIG), s1, s, DEMO_PUBLISHER);
    assert s.wire == [(1, WrongWay), (1, WrongWay)];
  }

  // ---------------------------------------------------------------------------------------------
  // Jobs that are lost

  lemma {:induction false} ForeignJobs(s: State, n: nat) returns (s': State)
    requires s.incOf.Keys == s.rec.tracks.Keys && |s.queue| + n <= MAX_EMIT_QUEUE
    ensures Reaches(s, s', DEMO_PUBLISHER) && s' == s.(queue := s'.queue)
    ensures |s'.queue| == |s.queue| + n && s.queue <= s'.queue
  {
    if n == 0 {
      s' := s;
      assert RunsTo(s, [], s, DEMO_PUBLISHER);
    } else {
      var s1 := ForeignJobs(s, n - 1);
      s' := s1.(queue := s1.queue + [Foreign]);
      assert s1.queue[0..] == s1.queue && s1.dropped + s1.queue[..0] == s1.dropped;
      OneStep(s1, QueueForeign, s', DEMO_PUBLISHER);
      Then(s, s1, s', DEMO_PUBLISHER);
    }
  }

  /** The kind is pushed and stays so: its job is among the lost ones and nobody else has one. */
  ghost predicate LostForGood(s: State) {
    && 7 in s.rec.tracks && 7 in s.incOf && s.incOf[7] == 0
    && |s.dropped| == 1 && IsWayJob(s.dropped[0], 0) && WrongWay in s.dropped[0].want
    && Held(s.dropped, 0, WrongWay) == 1 && Published(s, 0, WrongWay) == 0
    && forall now :: !ReadyAt(s.rec, 7, WrongWay, now)
  }

  lemma LostWithItsJob(s: State, job: Job)
    requires 7 in s.rec.tracks && s.incOf == map[7 := 0] && s.dropped == [job] && s.wire == []
    requires IsWayJob(job, 0) && WrongWay in job.want && s.rec.tracks[7].kinds.wrongWay.pushed
    ensures LostForGood(s)
  {
    HeldOne(job, 0, WrongWay);
  }

  /** The first job waits in the queue while eight jobs of other cameras come in: the last of them throws it away. */
  lemma OverflowLosesJob() returns (s: State)
    ensures Reaches(InitState(DEMO_CONFIG), s, DEMO_PUBLISHER) && LostForGood(s)
  {
    var s0 := FirstVehicle(DEMO_CONFIG);
    var s1 := FirstJob(s0, 1.0);
    var s2 := ForeignJobs(s1, 7);
    s := OneTooMany(s2);
    Then(InitState(DEMO_CONFIG), s0, s1, DEMO_PUBLISHER);
    Then(InitState(DEMO_CONFIG), s1, s2, DEMO_PUBLISHER);
    Then(InitState(DEMO_CONFIG), s2, s, DEMO_PUBLISHER);
    LostWithItsJob(s, s1.queue[0]);
  }

  lemma OneTooMany(s: State) returns (s': State)
    requires s.incOf.Keys == s.rec.tracks.Keys && |s.queue| == MAX_EMIT_QUEUE
    ensures Reaches(s, s', DEMO_PUBLISHER)
    ensures s' == s.(queue := s.queue[1..] + [Foreign], dropped := s.dropped + [s.queue[0]])
  {
    s' := s.(queue := s.queue[1..] + [Foreign], dropped := s.dropped + [s.queue[0]]);
    assert s.queue[..1] == [s.queue[0]];
    OneStep(s, QueueForeign, s', DEMO_PUBLISHER);
  }

  /** The worker takes the first job and has no publisher. */
  lemma DiscardLosesJob() returns (s: State)
    ensures Reaches(InitState(DEMO_CONFIG), s, DEMO_PUBLISHER) && LostForGood(s)
  {
    var s0 := FirstJobTaken();
    s := s0.(worker := Resting, dropped := s0.dropped + [s0.worker.job]);
    OneStep(s0, Discard, s, DEMO_PUBLISHER);
    Then(InitState(DEMO_CONFIG), s0, s, DEMO_PUBLISHER);
    LostWithItsJob(s, s0.worker.job);
  }
}
