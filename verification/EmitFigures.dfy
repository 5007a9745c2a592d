/** What a job carries, and what it makes the publisher send: followed from the question that lists a track through commit
    and queue to the broker. */
module EmitFigures {
  import opened Kinds
  import opened TrackState
  import opened Recognizer
  import opened Publisher
  import opened EmitProtocol
  import opened EmitSafety
  import opened EmitSteps

  ghost predicate NoQuestion(evs: seq<Event>) { forall i :: 0 <= i < |evs| ==> !evs[i].Ask? }

  /** While the probe walks a list, its entries are those of the list, and no listed track is deleted or replaced. */
  ghost predicate WalksList(s0: State, list: seq<ReadyEmit>, now: real, s: State) {
    s.probe.Idle? ||
    (&& s.probe.now == now
     && (forall e :: e in s.probe.rest ==> e in list)
     && (forall id :: id in s0.incOf ==> id in s.incOf && s.incOf[id] == s0.incOf[id]))
  }

  lemma StepWalksOn(s0: State, list: seq<ReadyEmit>, now: real, s: State, ev: Event, pub: PublisherConfig)
    requires s.incOf.Keys == s.rec.tracks.Keys && CanStep(s, ev) && !ev.Ask? && WalksList(s0, list, now, s)
    ensures WalksList(s0, list, now, Step(s, ev, pub))
  {
  }

  lemma {:induction false} RunWalksOn(s0: State, list: seq<ReadyEmit>, now: real, s1: State, evs: seq<Event>, s: State,
                                      pub: PublisherConfig)
    requires WalksList(s0, list, now, s1) && RunsTo(s1, evs, s, pub) && NoQuestion(evs)
    ensures WalksList(s0, list, now, s)
    decreases |evs|
  {
    if evs == [] {
    } else {
      StepWalksOn(s0, list, now, s1, evs[0], pub);
      RunWalksOn(s0, list, now, Step(s1, evs[0], pub), evs[1..], s, pub);
    }
  }

  /** The kinds that a job for a listed track can want: WRONG_WAY only with a crop. */
  ghost predicate Takes(e: ReadyEmit, hasCrop: bool, k: EventKind) { k in e.ready && (k == WrongWay ==> hasCrop) }

  /** The job is about the track as the question found it: its plate, its class, and for each violation the hits it had, or
      none if the job does not want it. */
  ghost predicate CarriesFigures(job: Job, inc: nat, t: Track, e: ReadyEmit, hasCrop: bool) {
    && job.Own? && job.inc == inc
    && (forall k :: k in job.want <==> Takes(e, hasCrop, k))
    && job.emit.trackId == e.trackId && job.emit.plate == t.final.emitPlate && job.emit.vehicleCls == VotedClass(t)
    && job.emit.noHelmetFrames == (if NoHelmet in job.want then t.kinds.noHelmet.hits else 0)
    && job.emit.wrongLaneFrames == (if WrongLane in job.want then t.kinds.wrongLane.hits else 0)
    && job.emit.wrongWayHits == (if WrongWay in job.want then t.kinds.wrongWay.hits else 0)
    && job.emit.hasFull && job.emit.hasCrop == hasCrop
  }

  /** A question at s0, then any steps without another question, and the probe about to commit the next entry. */
  ghost predicate AtEntry(cfg: Config, before: seq<Event>, s0: State, now: real, list: seq<ReadyEmit>, evs: seq<Event>, s: State,
                          pub: PublisherConfig)
  {
    && Loaded(pub) && RunsTo(InitState(cfg), before, s0, pub)
    && CanStep(s0, Ask(now, list)) && RunsTo(Asked(s0, now, list), evs, s, pub) && NoQuestion(evs)
    && s.probe.Emitting? && s.probe.rest != []
  }

  ghost function Asked(s0: State, now: real, list: seq<ReadyEmit>): State {
    s0.(rec := Collect(s0.rec, now), probe := Emitting(list, now))
  }

  lemma AskedIsStep(s0: State, now: real, list: seq<ReadyEmit>, pub: PublisherConfig)
    requires Inv(s0) && Loaded(pub) && CanStep(s0, Ask(now, list))
    ensures Step(s0, Ask(now, list), pub) == Asked(s0, now, list) && Inv(Asked(s0, now, list))
  {
    StepKeepsInv(s0, Ask(now, list), pub);
  }

  lemma EntryIsListed(cfg: Config, before: seq<Event>, s0: State, now: real, list: seq<ReadyEmit>, evs: seq<Event>, s: State,
                      pub: PublisherConfig)
    requires AtEntry(cfg, before, s0, now, list, evs, s, pub)
    ensures var e := s.probe.rest[0];
            && ListedRight(s0.rec, s0.rec.tracks.Keys, now, e) && Inv(s) && s.probe.now == now
            && e.trackId in s.incOf && e.trackId in s0.incOf && s.incOf[e.trackId] == s0.incOf[e.trackId]
  {
    InitInv(cfg);
    RunKeepsInv(InitState(cfg), before, s0, pub);
    AskedIsStep(s0, now, list, pub);
    RunKeepsInv(Asked(s0, now, list), evs, s, pub);
    RunWalksOn(s0, list, now, Asked(s0, now, list), evs, s, pub);
    var e := s.probe.rest[0];
    assert e in list;
  }

  /** A commit holds a job exactly when the images are there and the entry has a kind to take. */
  lemma CommitHolds(s: State, hasImages: bool, hasCrop: bool, pub: PublisherConfig)
    requires Inv(s) && s.probe.Emitting? && s.probe.rest != []
    ensures var e, want := s.probe.rest[0], Wanted(s.probe.rest[0].ready, hasCrop);
            var s' := Step(s, CommitNext(hasImages, hasCrop), pub);
            && e.trackId in s.incOf && (s'.probe.Holding? <==> hasImages && want != {})
            && (s'.probe.Holding? ==> s'.probe.job == Own(s.incOf[e.trackId], want, BuildEmit(e, want, hasCrop)))
  {
    CommitSucceeds(s, Wanted(s.probe.rest[0].ready, hasCrop));
  }

  lemma CommitSucceeds(s: State, want: KindSet)
    requires Inv(s) && s.probe.Emitting? && s.probe.rest != [] && want <= s.probe.rest[0].ready
    ensures var e := s.probe.rest[0];
            e.trackId in s.incOf && (want != {} ==> Commit(s.rec, e.trackId, e.plate, want, s.probe.now).1)
  {
    var e := s.probe.rest[0];
    assert EntryOk(s, e, s.probe.now);
    if want != {} {
      EntryCommits(s, e, want, s.probe.now);
    }
  }

  lemma WantedIffTakes(e: ReadyEmit, hasCrop: bool)
    ensures forall k :: k in Wanted(e.ready, hasCrop) <==> Takes(e, hasCrop, k)
    ensures Wanted(e.ready, hasCrop) != {} <==> exists k :: Takes(e, hasCrop, k)
  {
    var want := Wanted(e.ready, hasCrop);
    forall k ensures k in want <==> Takes(e, hasCrop, k) {
    }
    if k :| Takes(e, hasCrop, k) {
      assert k in want;
    }
  }

  lemma BuiltCarries(r: Rec, now: real, e: ReadyEmit, inc: nat, hasCrop: bool)
    requires ListedRight(r, r.tracks.Keys, now, e) && r.tracks[e.trackId].id == e.trackId
    ensures var want := Wanted(e.ready, hasCrop);
            CarriesFigures(Own(inc, want, BuildEmit(e, want, hasCrop)), inc, r.tracks[e.trackId], e, hasCrop)
  {
    WantedIffTakes(e, hasCrop);
  }

  /** A commit holds a job exactly when the images are there and the entry has a kind to take; the job carries the figures
      that the track had when the question was asked, whatever happened to it since. */
  lemma JobCarriesFigures(cfg: Config, before: seq<Event>, s0: State, now: real, list: seq<ReadyEmit>, evs: seq<Event>, s: State,
                          hasImages: bool, hasCrop: bool, s': State, pub: PublisherConfig)
    requires AtEntry(cfg, before, s0, now, list, evs, s, pub)
    requires RunsTo(s, [CommitNext(hasImages, hasCrop)], s', pub)
    ensures var e := s.probe.rest[0];
            && e.trackId in s0.rec.tracks && e.trackId in s0.incOf && e.ready == ReadyOf(s0.rec, e.trackId, now)
            && (s'.probe.Holding? <==> hasImages && exists k :: Takes(e, hasCrop, k))
            && (s'.probe.Holding? ==>
                  CarriesFigures(s'.probe.job, s0.incOf[e.trackId], s0.rec.tracks[e.trackId], e, hasCrop))
  {
    EntryIsListed(cfg, before, s0, now, list, evs, s, pub);
    CommitHolds(s, hasImages, hasCrop, pub);
    assert [CommitNext(hasImages, hasCrop)][1..] == [];
    var e := s.probe.rest[0];
    WantedIffTakes(e, hasCrop);
    BuiltCarries(s0.rec, now, e, s0.incOf[e.trackId], hasCrop);
  }

  // ---------------------------------------------------------------------------------------------
  // From the job to the wire

  /** The threshold that the configuration sets for a violation. */
  function ThresholdOf(pub: PublisherConfig, k: EventKind): Threshold
    requires k != Plate
  {
    match k
    case NoHelmet => pub.helmet
    case WrongLane => pub.wrongLane
    case WrongWay => pub.wrongWay
  }

  /** The track had enough hits for its violation to be sent, and the camera allows its code: no helmet is for motorbikes. */
  ghost predicate Due(pub: PublisherConfig, t: Track, k: EventKind, allowed: KindSet) {
    && k != Plate && ThresholdOf(pub, k).enabled && t.kinds.Get(k).hits >= ThresholdOf(pub, k).minHits
    && (k == NoHelmet ==> VotedClass(t) == CLASS_MOTORBIKE)
    && k in allowed
  }

  /** The publisher is connected and at least one of the pictures is stored: in a dry run they count as stored. */
  ghost predicate Stored(pub: PublisherConfig, hasCrop: bool, w: World) {
    pub.connected && (pub.dryRun || w.fullKey || (hasCrop && w.cropKey))
  }

  ghost predicate Accepted(pub: PublisherConfig, w: World, k: EventKind) { pub.dryRun || k in w.sendOk }

  lemma DueIffCanPublish(pub: PublisherConfig, job: Job, inc: nat, t: Track, e: ReadyEmit, hasCrop: bool, k: EventKind,
                         allowed: KindSet)
    requires Loaded(pub) && CarriesFigures(job, inc, t, e, hasCrop)
    ensures CanPublish(pub, job.emit, k, allowed) <==> k in job.want && Due(pub, t, k, allowed)
  {
  }

  /** A publish of a job that carries the figures of track t puts a violation on the wire exactly when the job wants it, it is
      due by those figures, a picture is stored and the broker takes it - once; and the vehicle event exactly when a picture
      is stored, the later question finds no wanted violation due, and the broker takes it. */
  lemma FiguresReachTheWire(s: State, s': State, world: World, pub: PublisherConfig, t: Track, e: ReadyEmit, hasCrop: bool,
                            k: EventKind)
    requires Loaded(pub) && Delivered(s, s', world, pub)
    requires CarriesFigures(s.worker.job, s.worker.job.inc, t, e, hasCrop)
    ensures var job := s.worker.job;
            Published(s', job.inc, k) == Published(s, job.inc, k) +
              if Stored(pub, hasCrop, world) && Accepted(pub, world, k) &&
                 (if k == Plate then !exists v :: v in job.want && Due(pub, t, v, world.allowedLater)
                  else k in job.want && Due(pub, t, k, world.allowed))
              then 1 else 0
  {
    var job := s.worker.job;
    forall v, allowed ensures CanPublish(pub, job.emit, v, allowed) <==> v in job.want && Due(pub, t, v, allowed) {
      DueIffCanPublish(pub, job, job.inc, t, e, hasCrop, v, allowed);
    }
    TaggedCount(job.inc, SentEvents(pub, job.emit, world), job.inc, k);
    SentOnce(pub, job.emit, world, k);
    WireCount(pub, job, t, world, k);
  }

  lemma WireCount(pub: PublisherConfig, job: Job, t: Track, world: World, k: EventKind)
    requires job.Own? && job.emit.hasFull
    requires forall v, allowed :: CanPublish(pub, job.emit, v, allowed) <==> v in job.want && Due(pub, t, v, allowed)
    ensures OnWire(pub, job.emit, world, k) <==>
              && Stored(pub, job.emit.hasCrop, world) && Accepted(pub, world, k)
              && if k == Plate then !exists v :: v in job.want && Due(pub, t, v, world.allowedLater)
                 else k in job.want && Due(pub, t, k, world.allowed)
  {
    if v :| v in job.want && Due(pub, t, v, world.allowedLater) {
      assert CanPublish(pub, job.emit, v, world.allowedLater);
    }
  }

  /** From the question to the wire: when the held job of a listed track is published later, a violation of the track goes on
      the wire exactly when its gates were open at the question (WRONG_WAY: and the crop was there), it was due by the
      figures of that moment, a picture is stored and the broker takes it. */
  lemma QuestionToWire(cfg: Config, before: seq<Event>, s0: State, now: real, list: seq<ReadyEmit>, evs: seq<Event>, s: State,
                       hasCrop: bool, s': State, z: State, world: World, z': State, pub: PublisherConfig, k: EventKind)
    requires AtEntry(cfg, before, s0, now, list, evs, s, pub)
    requires RunsTo(s, [CommitNext(true, hasCrop)], s', pub) && s'.probe.Holding?
    requires Delivered(z, z', world, pub) && z.worker.job == s'.probe.job && k != Plate
    ensures var e := s.probe.rest[0];
            && e.trackId in s0.rec.tracks && e.trackId in s0.incOf
            && var t, inc := s0.rec.tracks[e.trackId], s0.incOf[e.trackId];
               Published(z', inc, k) == Published(z, inc, k) +
                 if k in ReadyOf(s0.rec, e.trackId, now) && (k == WrongWay ==> hasCrop) && Due(pub, t, k, world.allowed)
                    && Stored(pub, hasCrop, world) && Accepted(pub, world, k)
                 then 1 else 0
  {
    JobCarriesFigures(cfg, before, s0, now, list, evs, s, true, hasCrop, s', pub);
    var e := s.probe.rest[0];
    FiguresReachTheWire(z, z', world, pub, s0.rec.tracks[e.trackId], e, hasCrop, k);
  }

  /** What an entry of the ready list tells about each kind: the figures and the label of a ready one, nothing of the others. */
  lemma EntryTellsTrack(r: Rec, ids: set<nat>, now: real, e: ReadyEmit, k: EventKind)
    requires ListedRight(r, ids, now, e)
    ensures var t := r.tracks[e.trackId];
            var v := t.kinds.Get(k);
            && e.payload.Get(k) == (if k in e.ready then KindPayload(v.hits, v.detail, v.hasSnapshot) else KindPayload(0, 0, false))
            && e.labels.Get(k) == (if k in e.ready then t.labels.Get(k) else "")
            && e.snapshotKey == t.final.snapshotKey && e.recognizeCount == t.ocr.count
            && (e.createdAt, e.firstOcrAt, e.finalAt) == (t.createdAt, t.ocr.firstOcrAt, t.final.at)
  {
    match k case Plate => case NoHelmet => case WrongLane => case WrongWay =>
  }

  // ---------------------------------------------------------------------------------------------
  // The queue in between

  /** The queue lost its first n jobs at most, and got jobs at its back only: what is left of the old ones comes first. */
  ghost predicate InOrder(before: seq<Job>, after: seq<Job>) {
    exists n :: 0 <= n <= |before| && before[n..] <= after
  }

  lemma Lost(before: seq<Job>, after: seq<Job>, n: nat)
    requires n <= |before| && before[n..] <= after
    ensures InOrder(before, after)
  {
  }

  lemma OrderOfStep(s: State, ev: Event, pub: PublisherConfig)
    requires s.incOf.Keys == s.rec.tracks.Keys && CanStep(s, ev)
    ensures InOrder(s.queue, Step(s, ev, pub).queue)
  {
    Lost(s.queue, Step(s, ev, pub).queue, match ev
      case Queue => Overflow(s.queue)
      case QueueForeign => Overflow(s.queue)
      case Take => 1
      case _ => 0);
  }

  lemma OrderJoins(a: seq<Job>, b: seq<Job>, c: seq<Job>)
    requires InOrder(a, b) && InOrder(b, c)
    ensures InOrder(a, c)
  {
    var n :| 0 <= n <= |a| && a[n..] <= b;
    var m :| 0 <= m <= |b| && b[m..] <= c;
    if m <= |a| - n {
      assert a[n + m..] == a[n..][m..];
      Lost(a, c, n + m);
    } else {
      Lost(a, c, |a|);
    }
  }

  /** Jobs never overtake one another: over any run the queue only loses jobs at its front and gets jobs at its back, and the
      worker takes the one at the front. */
  lemma {:induction false} QueueKeepsOrder(s0: State, evs: seq<Event>, s: State, pub: PublisherConfig)
    requires RunsTo(s0, evs, s, pub)
    ensures InOrder(s0.queue, s.queue)
    ensures CanStep(s, Take) && s.incOf.Keys == s.rec.tracks.Keys && s.queue[0].Own? ==>
              Step(s, Take, pub).worker == Publishing(s.queue[0])
    decreases |evs|
  {
    if evs == [] {
      Lost(s0.queue, s.queue, 0);
    } else {
      OrderOfStep(s0, evs[0], pub);
      QueueKeepsOrder(Step(s0, evs[0], pub), evs[1..], s, pub);
      OrderJoins(s0.queue, Step(s0, evs[0], pub).queue, s.queue);
    }
  }
}
