/** Every track in every state of the protocol is the outcome of a run of track operations, read off the events: the steps
    of probe and worker refine the operations of `TrackLifecycle`, so all that was proved about those runs holds here. */
module EmitHistory {
  import opened Kinds
  import opened Rules
  import Dedup
  import opened TrackState
  import opened TrackLifecycle
  import opened TrackEvidence
  import opened Recognizer
  import opened EmitGate
  import opened Publisher
  import opened EmitProtocol

  type Acts = seq<TrackOp>

  // ---------------------------------------------------------------------------------------------
  // The operations behind one event

  /** All of the operations at one time. */
  function At(acts: Acts, now: real): (ops: Ops)
    ensures |ops| == |acts| && forall i :: 0 <= i < |ops| ==> ops[i] == (acts[i], now)
  {
    seq(|acts|, i requires 0 <= i < |acts| => (acts[i], now))
  }

  function Did(t: Track, acts: Acts, now: real): Track { Run(t, At(acts, now)) }

  function SightActs(t: Track, cls: int, conf: real, inZone: bool): Acts {
    if inZone then [TrackOp.Enter] + if cls >= 0 then [TrackOp.Class(cls, conf)] else []
    else (if t.zone.inPolygon then [TrackOp.Leave] else []) + if t.zone.everEntered then [TrackOp.Missed] else []
  }

  /** Asking about the first n kinds. */
  function AskActs(t: Track, seen: map<Dedup.Key, real>, cfg: Config, now: real, n: nat): Acts
    requires n <= 4
  {
    if n == 0 then []
    else
      var k := ALL_KINDS[n - 1];
      AskActs(t, seen, cfg, now, n - 1) +
      if !GatesOpen(t, k, cfg, now) then []
      else if Dedup.AlreadyEmitted(seen, KeyOf(t, k), now) then [TrackOp.Post(k)]
      else [TrackOp.Attempt(k)]
  }

  function QuestionActs(t: Track, seen: map<Dedup.Key, real>, cfg: Config, now: real): Acts {
    if !t.final.chosen then []
    else if ShouldEmitPlate(t.final.emitPlate, cfg.sendMode) then AskActs(t, seen, cfg, now, 4)
    else if AllSettled(t) then [] else [TrackOp.PostAll]
  }

  function CommitActs(t: Track, c: Dedup.Cache, plate: string, kinds: KindSet, asked: real, n: nat): Acts
    requires n <= 4
  {
    if n == 0 then []
    else
      var k := ALL_KINDS[n - 1];
      CommitActs(t, c, plate, kinds, asked, n - 1) +
      if k in CommitKinds(t, c, plate, kinds, asked, n).committed && k !in CommitKinds(t, c, plate, kinds, asked, n - 1).committed
      then [TrackOp.Push(k)] else []
  }

  function SettleActs(want: KindSet, done: KindSet, n: nat): Acts
    requires n <= 4
  {
    if n == 0 then []
    else
      var k := ALL_KINDS[n - 1];
      SettleActs(want, done, n - 1) +
      if k !in want then [] else if k in done then [TrackOp.Post(k)] else [TrackOp.Unpush(k)]
  }

  /** The track that an event finds under an id: a sighting makes a new one if there is none. */
  function TrackBefore(s: State, ev: Event, id: nat): Track
    requires id in s.rec.tracks || ev.Sight?
  {
    if id in s.rec.tracks then s.rec.tracks[id] else NewTrack(id, ev.now, s.rec.cfg.maxTimes, s.rec.cfg.styles)
  }

  /** What the event does to the track with this id. */
  ghost function ActsOf(s: State, ev: Event, id: nat): Acts
    requires CanStep(s, ev) && (id in s.rec.tracks || ev.Sight?)
  {
    var t := TrackBefore(s, ev, id);
    match ev
    case Sight(x, cls, conf, inZone, _) => if x == id then SightActs(t, cls, conf, inZone) else []
    case Helmet(x, people) => if x == id && people > 0 then [TrackOp.Helmet(people)] else []
    case Lane(x, zone) => if x == id && zone != "" && t.zone.everEntered then [TrackOp.Lane(zone)] else []
    case Way(x, line, _) => if x == id then [TrackOp.Way(line)] else []
    case Reading(x, chars, raw, _, meanConf, sampleArea, plateArea) =>
      if x == id then [TrackOp.Ocr(chars, raw, meanConf, sampleArea, plateArea)] else []
    case Snapshot(x, k) => if x == id then [TrackOp.Snapshot(k)] else []
    case Missed(_) => [TrackOp.Missed]
    case Stale(now) => if StaleWrongWay(t, s.rec.cfg, now) then [TrackOp.ClearWay] else []
    case Ask(now, _) => QuestionActs(t, s.rec.dedup.seen, s.rec.cfg, now)
    case CommitNext(hasImages, hasCrop) =>
      var e := s.probe.rest[0];
      var want := Wanted(e.ready, hasCrop);
      if hasImages && want != {} && e.trackId == id then CommitActs(t, s.rec.dedup, e.plate, want, s.probe.now, 4) else []
    case Settled =>
      if s.worker.job.Own? && s.worker.job.emit.trackId == id then SettleActs(s.worker.job.want, s.worker.done, 4) else []
    case _ => []
  }

  /** The time of an event; those that carry none happen at the time the clock shows. */
  function TimeOf(ev: Event, clock: real): real {
    match ev
    case Sight(_, _, _, _, now) => now
    case Way(_, _, now) => now
    case Reading(_, _, _, now, _, _, _) => now
    case Missed(now) => now
    case Stale(now) => now
    case Clean(now) => now
    case Ask(now, _) => now
    case _ => clock
  }

  // ---------------------------------------------------------------------------------------------
  // One event is its operations

  lemma {:induction false} RunTwice(t: Track, a: Ops, b: Ops)
    ensures Run(t, a + b) == Run(Run(t, a), b)
    decreases |a|
  {
    if a == [] {
      assert a + b == b;
    } else {
      RunTwice(Apply(t, a[0].0, a[0].1), a[1..], b);
      assert (a + b)[0] == a[0] && (a + b)[1..] == a[1..] + b;
    }
  }

  lemma DidNothing(t: Track, now: real)
    ensures Did(t, [], now) == t
  {
  }

  lemma DidMore(t: Track, acts: Acts, op: TrackOp, now: real)
    ensures Did(t, acts + [op], now) == Apply(Did(t, acts, now), op, now)
  {
    assert At(acts + [op], now) == At(acts, now) + [(op, now)];
    RunLonger(t, At(acts, now), (op, now));
  }

  lemma DidOne(t: Track, op: TrackOp, now: real)
    ensures Did(t, [op], now) == Apply(t, op, now)
  {
    DidNothing(t, now);
    DidMore(t, [], op, now);
    assert [] + [op] == [op];
  }

  lemma SightingIsActs(t: Track, cls: int, conf: real, inZone: bool, now: real)
    ensures Did(t, SightActs(t, cls, conf, inZone), now) == SightingOf(t, cls, conf, inZone, now).0
  {
    DidNothing(t, now);
    DidOne(t, TrackOp.Enter, now);
    DidOne(t, TrackOp.Leave, now);
    DidMore(t, [], TrackOp.Missed, now);
    DidMore(t, [TrackOp.Enter], TrackOp.Class(cls, conf), now);
    DidMore(t, [TrackOp.Leave], TrackOp.Missed, now);
    assert [] + [TrackOp.Missed] == [TrackOp.Missed];
    assert [TrackOp.Enter] + [] == [TrackOp.Enter] && [TrackOp.Leave] + [] == [TrackOp.Leave];
  }

  /** Kinds up to the n-th as after the question, the others as before. */
  function AskedUpTo(t: Track, seen: map<Dedup.Key, real>, cfg: Config, now: real, n: nat): Track
    requires n <= 4
  {
    if n == 0 then t
    else
      var k := ALL_KINDS[n - 1];
      WithKind(AskedUpTo(t, seen, cfg, now, n - 1), k, KindAfterAsk(t, k, seen, cfg, now))
  }

  lemma {:induction false} AskedUpToKind(t: Track, seen: map<Dedup.Key, real>, cfg: Config, now: real, n: nat,
                                         k: EventKind)
    requires n <= 4 && k !in FirstKinds(n)
    ensures AskedUpTo(t, seen, cfg, now, n).kinds.Get(k) == t.kinds.Get(k)
  {
    if n == 0 {
    } else {
      FirstKindsStep(n - 1);
      AskedUpToKind(t, seen, cfg, now, n - 1, k);
    }
  }

  lemma WithSameKind(t: Track, k: EventKind)
    ensures WithKind(t, k, t.kinds.Get(k)) == t
  {
  }

  lemma {:induction false} AskedUpToIsActs(t: Track, seen: map<Dedup.Key, real>, cfg: Config, now: real, n: nat)
    requires n <= 4
    ensures Did(t, AskActs(t, seen, cfg, now, n), now) == AskedUpTo(t, seen, cfg, now, n)
  {
    if n == 0 {
      DidNothing(t, now);
    } else {
      AskedUpToIsActs(t, seen, cfg, now, n - 1);
      var t', k, acts := AskedUpTo(t, seen, cfg, now, n - 1), ALL_KINDS[n - 1], AskActs(t, seen, cfg, now, n - 1);
      FirstKindsStep(n - 1);
      AskedUpToKind(t, seen, cfg, now, n - 1, k);
      if !GatesOpen(t, k, cfg, now) {
        WithSameKind(t', k);
        assert acts + [] == acts;
      } else if Dedup.AlreadyEmitted(seen, KeyOf(t, k), now) {
        DidMore(t, acts, TrackOp.Post(k), now);
      } else {
        DidMore(t, acts, TrackOp.Attempt(k), now);
      }
    }
  }

  lemma QuestionIsActs(t: Track, seen: map<Dedup.Key, real>, cfg: Config, now: real)
    ensures Did(t, QuestionActs(t, seen, cfg, now), now) == AfterAsk(t, seen, cfg, now)
  {
    DidNothing(t, now);
    DidOne(t, TrackOp.PostAll, now);
    if t.final.chosen && ShouldEmitPlate(t.final.emitPlate, cfg.sendMode) {
      AskedUpToIsActs(t, seen, cfg, now, 4);
      assert AskedUpTo(t, seen, cfg, now, 1) == WithKind(t, Plate, KindAfterAsk(t, Plate, seen, cfg, now));
      assert AskedUpTo(t, seen, cfg, now, 2).kinds.wrongWay == t.kinds.wrongWay;
      assert AskedUpTo(t, seen, cfg, now, 4) == AfterAsk(t, seen, cfg, now);
    }
  }

  /** The commit of one more kind takes it or changes nothing. */
  lemma OneCommit(t: Track, c: Dedup.Cache, plate: string, kinds: KindSet, asked: real, n: nat)
    requires 0 < n <= 4
    ensures var prev, next := CommitKinds(t, c, plate, kinds, asked, n - 1), CommitKinds(t, c, plate, kinds, asked, n);
            var k := ALL_KINDS[n - 1];
            && k !in prev.committed
            && if k in next.committed then next.track == MarkPushed(prev.track, k) else next.track == prev.track
  {
    CommitMarks(t, c, plate, kinds, asked, n - 1);
    FirstKindsStep(n - 1);
  }

  lemma {:induction false} CommitIsActs(t: Track, c: Dedup.Cache, plate: string, kinds: KindSet, asked: real, n: nat,
                                        now: real)
    requires n <= 4
    ensures Did(t, CommitActs(t, c, plate, kinds, asked, n), now) == CommitKinds(t, c, plate, kinds, asked, n).track
  {
    if n == 0 {
      DidNothing(t, now);
    } else {
      CommitIsActs(t, c, plate, kinds, asked, n - 1, now);
      OneCommit(t, c, plate, kinds, asked, n);
      var acts := CommitActs(t, c, plate, kinds, asked, n - 1);
      if ALL_KINDS[n - 1] in CommitKinds(t, c, plate, kinds, asked, n).committed {
        DidMore(t, acts, TrackOp.Push(ALL_KINDS[n - 1]), now);
      } else {
        assert acts + [] == acts;
      }
    }
  }

  lemma {:induction false} SettleIsActs(t: Track, c: Dedup.Cache, want: KindSet, done: KindSet, n: nat, now: real)
    requires n <= 4
    ensures Did(t, SettleActs(want, done, n), now) == SettleKinds(t, c, want, done, n).0
  {
    if n == 0 {
      DidNothing(t, now);
    } else {
      SettleIsActs(t, c, want, done, n - 1, now);
      var acts, k := SettleActs(want, done, n - 1), ALL_KINDS[n - 1];
      if k !in want {
        assert acts + [] == acts;
      } else {
        DidMore(t, acts, if k in done then TrackOp.Post(k) else TrackOp.Unpush(k), now);
      }
    }
  }

  lemma ViolationIsActs(s: State, ev: Event, s': State, pub: PublisherConfig, clock: real, id: nat)
    requires s.incOf.Keys == s.rec.tracks.Keys && CanStep(s, ev) && s' == Step(s, ev, pub) && id in s'.rec.tracks
    requires ev.Helmet? || ev.Lane? || ev.Way? || ev.Stale?
    ensures id in s.rec.tracks && s'.rec.tracks[id] == Did(s.rec.tracks[id], ActsOf(s, ev, id), TimeOf(ev, clock))
  {
    var t, now := s.rec.tracks[id], TimeOf(ev, clock);
    DidNothing(t, now);
    match ev
    case Helmet(_, people) => DidOne(t, TrackOp.Helmet(people), now);
    case Lane(_, zone) => DidOne(t, TrackOp.Lane(zone), now);
    case Way(_, line, _) => DidOne(t, TrackOp.Way(line), now);
    case Stale(_) => DidOne(t, TrackOp.ClearWay, now);
  }

  lemma PlateIsActs(s: State, ev: Event, s': State, pub: PublisherConfig, clock: real, id: nat)
    requires s.incOf.Keys == s.rec.tracks.Keys && CanStep(s, ev) && s' == Step(s, ev, pub) && id in s'.rec.tracks
    requires ev.Reading? || ev.Snapshot? || ev.Missed?
    ensures id in s.rec.tracks && s'.rec.tracks[id] == Did(s.rec.tracks[id], ActsOf(s, ev, id), TimeOf(ev, clock))
  {
    var t, now := s.rec.tracks[id], TimeOf(ev, clock);
    DidNothing(t, now);
    match ev
    case Reading(_, chars, raw, _, meanConf, sampleArea, plateArea) =>
      DidOne(t, TrackOp.Ocr(chars, raw, meanConf, sampleArea, plateArea), now);
    case Snapshot(_, k) => DidOne(t, TrackOp.Snapshot(k), now);
    case Missed(_) => DidOne(t, TrackOp.Missed, now);
  }

  lemma SightIsActs(s: State, ev: Event, s': State, pub: PublisherConfig, id: nat)
    requires s.incOf.Keys == s.rec.tracks.Keys && ev.Sight? && s' == Step(s, ev, pub) && id in s'.rec.tracks
    ensures id in s.rec.tracks || ev.id == id
    ensures s'.rec.tracks[id] == Did(TrackBefore(s, ev, id), ActsOf(s, ev, id), ev.now)
  {
    if ev.id == id {
      SightingIsActs(TrackBefore(s, ev, id), ev.cls, ev.conf, ev.inZone, ev.now);
    } else {
      DidNothing(s.rec.tracks[id], ev.now);
    }
  }

  lemma EmissionIsActs(s: State, ev: Event, s': State, pub: PublisherConfig, clock: real, id: nat)
    requires s.incOf.Keys == s.rec.tracks.Keys && CanStep(s, ev) && s' == Step(s, ev, pub) && id in s'.rec.tracks
    requires ev.Ask? || ev.CommitNext? || ev.Settled?
    ensures id in s.rec.tracks && s'.rec.tracks[id] == Did(s.rec.tracks[id], ActsOf(s, ev, id), TimeOf(ev, clock))
  {
    var t, now := s.rec.tracks[id], TimeOf(ev, clock);
    DidNothing(t, now);
    match ev
    case Ask(_, _) => QuestionIsActs(t, s.rec.dedup.seen, s.rec.cfg, now);
    case CommitNext(_, hasCrop) =>
      var e := s.probe.rest[0];
      CommitIsActs(t, s.rec.dedup, e.plate, Wanted(e.ready, hasCrop), s.probe.now, 4, now);
    case Settled =>
      if s.worker.job.Own? {
        SettleIsActs(t, s.rec.dedup, s.worker.job.want, s.worker.done, 4, now);
      }
  }

  /** Every step of the protocol does to each track exactly the operations read off its event, at the time of the event;
      a track that was not there before starts from a new one. */
  lemma StepActsOnTracks(s: State, ev: Event, s': State, pub: PublisherConfig, clock: real, id: nat)
    requires s.incOf.Keys == s.rec.tracks.Keys && CanStep(s, ev) && s' == Step(s, ev, pub) && id in s'.rec.tracks
    ensures id in s.rec.tracks || (ev.Sight? && ev.id == id)
    ensures s'.rec.tracks[id] == Did(TrackBefore(s, ev, id), ActsOf(s, ev, id), TimeOf(ev, clock))
  {
    match ev
    case Sight(_, _, _, _, _) => SightIsActs(s, ev, s', pub, id);
    case Ask(_, _) => EmissionIsActs(s, ev, s', pub, clock, id);
    case CommitNext(_, _) => EmissionIsActs(s, ev, s', pub, clock, id);
    case Settled => EmissionIsActs(s, ev, s', pub, clock, id);
    case Clean(now) => DidNothing(s.rec.tracks[id], now);
    case Queue => DidNothing(s.rec.tracks[id], clock);
    case QueueForeign => DidNothing(s.rec.tracks[id], clock);
    case EndFrame => DidNothing(s.rec.tracks[id], clock);
    case Take => DidNothing(s.rec.tracks[id], clock);
    case Discard => DidNothing(s.rec.tracks[id], clock);
    case Publish(_) => DidNothing(s.rec.tracks[id], clock);
    case Reading(_, _, _, _, _, _, _) => PlateIsActs(s, ev, s', pub, clock, id);
    case Snapshot(_, _) => PlateIsActs(s, ev, s', pub, clock, id);
    case Missed(_) => PlateIsActs(s, ev, s', pub, clock, id);
    case _ => ViolationIsActs(s, ev, s', pub, clock, id);
  }

  // ---------------------------------------------------------------------------------------------
  // The life of a track, read off a run

  /** When the track was made, and the operations on it since; no life while there is no such track. */
  datatype Life = NoLife | Life(at: real, ops: Ops)

  ghost function LifeAfter(s: State, ev: Event, pub: PublisherConfig, clock: real, id: nat, life: Life): Life
    requires s.incOf.Keys == s.rec.tracks.Keys && CanStep(s, ev)
  {
    if id !in Step(s, ev, pub).rec.tracks then NoLife
    else if id in s.rec.tracks then
      if life.NoLife? then NoLife else Life(life.at, life.ops + At(ActsOf(s, ev, id), TimeOf(ev, clock)))
    else if ev.Sight? then Life(ev.now, At(ActsOf(s, ev, id), ev.now))
    else NoLife
  }

  /** The life of track id after these events; `life` is its life before them. */
  ghost function LifeOf(s0: State, c0: real, evs: seq<Event>, pub: PublisherConfig, id: nat, life: Life): Life
    decreases |evs|
  {
    if evs == [] || s0.incOf.Keys != s0.rec.tracks.Keys || !CanStep(s0, evs[0]) then life
    else
      LifeOf(Step(s0, evs[0], pub), TimeOf(evs[0], c0), evs[1..], pub, id, LifeAfter(s0, evs[0], pub, c0, id, life))
  }

  /** The operations are in order of time and up to the present, and the track is what they make of a new one. */
  ghost predicate IsHistory(t: Track, cfg: Config, id: nat, clock: real, at: real, ops: Ops) {
    && 0.0 < at <= clock
    && TrackLifecycle.Timed(ops, at)
    && (forall i :: 0 <= i < |ops| ==> ops[i].1 <= clock)
    && t == Run(NewTrack(id, at, cfg.maxTimes, cfg.styles), ops)
  }

  ghost predicate Lives(s: State, clock: real, id: nat, life: Life) {
    id in s.rec.tracks ==> life.Life? && IsHistory(s.rec.tracks[id], s.rec.cfg, id, clock, life.at, life.ops)
  }

  lemma HistoryGoesOn(t: Track, cfg: Config, id: nat, clock: real, at: real, ops: Ops, acts: Acts, now: real)
    requires IsHistory(t, cfg, id, clock, at, ops) && clock <= now
    ensures IsHistory(Did(t, acts, now), cfg, id, now, at, ops + At(acts, now))
  {
    RunTwice(NewTrack(id, at, cfg.maxTimes, cfg.styles), ops, At(acts, now));
  }

  lemma HistoryStarts(cfg: Config, id: nat, acts: Acts, now: real)
    requires 0.0 < now
    ensures IsHistory(Did(NewTrack(id, now, cfg.maxTimes, cfg.styles), acts, now), cfg, id, now, now, At(acts, now))
  {
  }

  lemma StepKeepsConfig(s: State, ev: Event, pub: PublisherConfig)
    requires s.incOf.Keys == s.rec.tracks.Keys && CanStep(s, ev)
    ensures Step(s, ev, pub).rec.cfg == s.rec.cfg
  {
  }

  lemma StepKeepsLife(s: State, ev: Event, s': State, pub: PublisherConfig, clock: real, now: real, id: nat, life: Life)
    requires s.incOf.Keys == s.rec.tracks.Keys && CanStep(s, ev) && s' == Step(s, ev, pub)
    requires 0.0 < clock <= now == TimeOf(ev, clock) && Lives(s, clock, id, life)
    ensures Lives(s', now, id, LifeAfter(s, ev, pub, clock, id, life))
  {
    StepKeepsConfig(s, ev, pub);
    if id in s'.rec.tracks {
      StepActsOnTracks(s, ev, s', pub, clock, id);
      if id in s.rec.tracks {
        HistoryGoesOn(s.rec.tracks[id], s.rec.cfg, id, clock, life.at, life.ops, ActsOf(s, ev, id), now);
      } else {
        HistoryStarts(s.rec.cfg, id, ActsOf(s, ev, id), now);
      }
    }
  }

  // ---------------------------------------------------------------------------------------------
  // Runs with a clock

  /** A run on which the clock never goes back; c0 is what it shows at the start and c what it shows at the end. */
  ghost predicate TimedRun(s0: State, c0: real, evs: seq<Event>, s: State, c: real, pub: PublisherConfig)
    decreases |evs|
  {
    if evs == [] then s == s0 && c == c0
    else
      && s0.incOf.Keys == s0.rec.tracks.Keys
      && CanStep(s0, evs[0])
      && c0 <= TimeOf(evs[0], c0)
      && TimedRun(Step(s0, evs[0], pub), TimeOf(evs[0], c0), evs[1..], s, c, pub)
  }

  /** The states of the protocol under a positive clock. */
  ghost predicate Reachable(cfg: Config, s: State, clock: real, pub: PublisherConfig) {
    exists c0, evs :: 0.0 < c0 && TimedRun(InitState(cfg), c0, evs, s, clock, pub)
  }

  /** Each track that is there after a timed run is the outcome of its life: its creation and the operations that the
      events of the run did to it since. */
  lemma {:induction false} RunKeepsLife(s0: State, c0: real, evs: seq<Event>, s: State, c: real, pub: PublisherConfig,
                                        id: nat, life: Life)
    requires TimedRun(s0, c0, evs, s, c, pub) && 0.0 < c0 && Lives(s0, c0, id, life)
    ensures Lives(s, c, id, LifeOf(s0, c0, evs, pub, id, life)) && s.rec.cfg == s0.rec.cfg
    decreases |evs|
  {
    if evs == [] {
    } else {
      var ev, now := evs[0], TimeOf(evs[0], c0);
      var s1 := Step(s0, ev, pub);
      StepKeepsLife(s0, ev, s1, pub, c0, now, id, life);
      StepKeepsConfig(s0, ev, pub);
      RunKeepsLife(s1, now, evs[1..], s, c, pub, id, LifeAfter(s0, ev, pub, c0, id, life));
    }
  }

  // ---------------------------------------------------------------------------------------------
  // What that gives

  lemma {:induction false} RunKeepsId(t: Track, ops: Ops)
    ensures Run(t, ops).id == t.id
    decreases |ops|
  {
    if ops == [] {
    } else {
      RunKeepsId(Apply(t, ops[0].0, ops[0].1), ops[1..]);
    }
  }

  lemma {:induction false} RunKeepsPaired(t: Track, ops: Ops, before: real, clock: real)
    requires PairedOk(t, before) && TrackLifecycle.Timed(ops, before) && before <= clock
    requires forall i :: 0 <= i < |ops| ==> ops[i].1 <= clock
    ensures PairedOk(Run(t, ops), clock)
    decreases |ops|
  {
    if ops == [] {
    } else {
      var (op, now) := ops[0];
      StepKeepsPaired(t, op, before, now);
      forall i | 0 <= i < |ops[1..]| ensures 0.0 < ops[1..][i].1 && now <= ops[1..][i].1 <= clock {
        assert ops[1..][i] == ops[i + 1];
      }
      RunKeepsPaired(Apply(t, op, now), ops[1..], now, clock);
    }
  }

  /** The life of track id on a run from start-up. */
  ghost function LifeOnRun(cfg: Config, c0: real, evs: seq<Event>, pub: PublisherConfig, id: nat): Life {
    LifeOf(InitState(cfg), c0, evs, pub, id, NoLife)
  }

  lemma PairedOnRun(cfg: Config, c0: real, evs: seq<Event>, s: State, clock: real, pub: PublisherConfig, id: nat)
    requires 0.0 < c0 && TimedRun(InitState(cfg), c0, evs, s, clock, pub) && id in s.rec.tracks
    ensures s.rec.cfg == cfg && s.rec.tracks[id].id == id && PairedOk(s.rec.tracks[id], clock)
  {
    RunKeepsLife(InitState(cfg), c0, evs, s, clock, pub, id, NoLife);
    var life := LifeOnRun(cfg, c0, evs, pub, id);
    RunKeepsId(NewTrack(id, life.at, cfg.maxTimes, cfg.styles), life.ops);
    RunKeepsPaired(NewTrack(id, life.at, cfg.maxTimes, cfg.styles), life.ops, life.at, clock);
  }

  /** In every state under a positive clock that does not go back, the wrong-way pairing time of each track is 0 or
      exactly the later of its final time and its first hit. */
  lemma PairedInEveryState(cfg: Config, s: State, clock: real, pub: PublisherConfig, id: nat)
    requires Reachable(cfg, s, clock, pub) && id in s.rec.tracks
    ensures s.rec.cfg == cfg && s.rec.tracks[id].id == id && PairedOk(s.rec.tracks[id], clock)
  {
    var c0, evs :| 0.0 < c0 && TimedRun(InitState(cfg), c0, evs, s, clock, pub);
    PairedOnRun(cfg, c0, evs, s, clock, pub, id);
  }

  /** After every such run with N > 0, each track satisfies its whole life-cycle invariant for the readings that the events
      of the run fed to it: counts below 2N while the plate is open, best samples, a plate that is the selection from the
      readings, and the pairing time. */
  lemma LifeInEveryState(cfg: Config, c0: real, evs: seq<Event>, s: State, clock: real, pub: PublisherConfig, id: nat)
    requires 0.0 < c0 && TimedRun(InitState(cfg), c0, evs, s, clock, pub) && id in s.rec.tracks && cfg.maxTimes > 0
    ensures var life := LifeOnRun(cfg, c0, evs, pub, id);
            && life.Life?
            && LifeInv(s.rec.tracks[id], RunLog(NewTrack(id, life.at, cfg.maxTimes, cfg.styles), [], life.ops), clock)
  {
    RunKeepsLife(InitState(cfg), c0, evs, s, clock, pub, id, NoLife);
    var life := LifeOnRun(cfg, c0, evs, pub, id);
    NewTrackInv(id, life.at, cfg.maxTimes, cfg.styles, life.at);
    TrackLifecycle.RunKeepsInv(NewTrack(id, life.at, cfg.maxTimes, cfg.styles), [], life.ops, life.at);
    PairedOnRun(cfg, c0, evs, s, clock, pub, id);
  }

  /** After every such run what a track holds of each kind, and its class votes, are what the events of the run did to it
      since it was made. */
  lemma EvidenceInEveryState(cfg: Config, c0: real, evs: seq<Event>, s: State, clock: real, pub: PublisherConfig, id: nat)
    requires 0.0 < c0 && TimedRun(InitState(cfg), c0, evs, s, clock, pub) && id in s.rec.tracks
    ensures var life := LifeOnRun(cfg, c0, evs, pub, id);
            && life.Life?
            && (forall k: EventKind :: Evidence(s.rec.tracks[id], Window(life.ops, k), k))
            && s.rec.tracks[id].classes == ClassVotes(life.ops)
  {
    RunKeepsLife(InitState(cfg), c0, evs, s, clock, pub, id, NoLife);
    var life := LifeOnRun(cfg, c0, evs, pub, id);
    var t0 := NewTrack(id, life.at, cfg.maxTimes, cfg.styles);
    forall k: EventKind ensures Evidence(s.rec.tracks[id], Window(life.ops, k), k) {
      EvidenceIsHistory(t0, life.ops, k);
    }
    ClassesAreVotes(t0, life.ops);
  }

  lemma OwnIdsInEveryState(cfg: Config, s: State, clock: real, pub: PublisherConfig)
    requires Reachable(cfg, s, clock, pub)
    ensures OwnIds(s.rec)
  {
    forall id | id in s.rec.tracks ensures s.rec.tracks[id].id == id {
      PairedInEveryState(cfg, s, clock, pub, id);
    }
  }

  /** In every such state with both wrong-way timings on, clearing stale violations and then asking offers WRONG_WAY
      only inside [max(final time, first hit) + settle, first hit + wait) - and inside it whenever the other gates are
      open. */
  lemma WindowInEveryState(cfg: Config, s: State, clock: real, pub: PublisherConfig, id: nat, now: real)
    requires Reachable(cfg, s, clock, pub) && id in s.rec.tracks && clock <= now
    requires cfg.wwSettle > 0.0 && cfg.wwWait > 0.0
    ensures var t := s.rec.tracks[id];
            var w := t.kinds.wrongWay;
            ReadyAt(ClearStale(s.rec, now), id, WrongWay, now) <==>
              && t.final.chosen && ShouldEmitPlate(t.final.emitPlate, cfg.sendMode)
              && w.hits > 0 && !w.pushed && !w.posted
              && MaxReal(t.final.at, w.firstHitAt) + cfg.wwSettle <= now < w.firstHitAt + cfg.wwWait
              && (w.lastAttempt <= 0.0 || now - w.lastAttempt >= cfg.retryInterval)
              && !Dedup.AlreadyEmitted(s.rec.dedup.seen, KeyOf(t, WrongWay), now)
  {
    OwnIdsInEveryState(cfg, s, clock, pub);
    PairedInEveryState(cfg, s, clock, pub, id);
    WrongWayWindow(s.rec, id, now);
  }

  /** So a plate that comes too late, or a settling time not shorter than the wait, silences WRONG_WAY: from such a
      state on no question at any later time finds it ready. */
  lemma LatePlateInEveryState(cfg: Config, s: State, clock: real, pub: PublisherConfig, id: nat, now: real)
    requires Reachable(cfg, s, clock, pub) && id in s.rec.tracks && clock <= now
    requires cfg.wwSettle > 0.0 && cfg.wwWait > 0.0
    requires var t := s.rec.tracks[id];
             t.final.at + cfg.wwSettle >= t.kinds.wrongWay.firstHitAt + cfg.wwWait || cfg.wwSettle >= cfg.wwWait
    ensures !ReadyAt(ClearStale(s.rec, now), id, WrongWay, now)
  {
    WindowInEveryState(cfg, s, clock, pub, id, now);
  }
}
