/** Why a WRONG_WAY that was cleared while its job was under way is, as a rule, still published only once: the key
    that the commit left in the cache closes it. The law of at most one publication holds for every incarnation, cleared
    or not, as long as no question is asked after that key is gone while the job is still open. */
module EmitReopen {
  import opened Kinds
  import opened Dedup
  import opened TrackState
  import opened Recognizer
  import opened EmitGate
  import opened Publisher
  import opened EmitProtocol
  import opened EmitSafety
  import opened EmitSteps

  /** Open jobs for WRONG_WAY of the incarnation, and those of them not yet through the publisher. */
  function OpenWays(s: State, inc: nat): int { Total(s, inc, WrongWay) - Held(s.dropped, inc, WrongWay) }

  function WaitingWays(s: State, inc: nat): int { Unpublished(s, inc, WrongWay) - Held(s.dropped, inc, WrongWay) }

  function Ways(s: State, inc: nat): nat { Published(s, inc, WrongWay) }

  /** A question at this time would offer WRONG_WAY of the incarnation again while a job for it is open. */
  ghost predicate Reoffers(s: State, inc: nat, now: real) {
    OpenWays(s, inc) > 0 && exists id :: Alive(s, id, inc) && ReadyAt(s.rec, id, WrongWay, now)
  }

  /** No question on this run does that. */
  ghost predicate NeverReoffers(s0: State, evs: seq<Event>, pub: PublisherConfig, inc: nat)
    decreases |evs|
  {
    evs != [] && s0.incOf.Keys == s0.rec.tracks.Keys && CanStep(s0, evs[0]) ==>
      && (evs[0].Ask? ==> !Reoffers(s0, inc, evs[0].now))
      && NeverReoffers(Step(s0, evs[0], pub), evs[1..], pub, inc)
  }

  /** While a job for the incarnation's WRONG_WAY is open, the cache still has its key at this time. */
  ghost predicate KeyLive(s: State, inc: nat, now: real)
    requires s.incOf.Keys == s.rec.tracks.Keys
  {
    forall id :: id in s.incOf && s.incOf[id] == inc && OpenWays(s, inc) > 0 ==>
      AlreadyEmitted(s.rec.dedup.seen, KeyOf(s.rec.tracks[id], WrongWay), now)
  }

  /** So it is at every question on this run. */
  ghost predicate KeepsKey(s0: State, evs: seq<Event>, pub: PublisherConfig, inc: nat)
    decreases |evs|
  {
    evs != [] && s0.incOf.Keys == s0.rec.tracks.Keys && CanStep(s0, evs[0]) ==>
      && (evs[0].Ask? ==> KeyLive(s0, inc, evs[0].now))
      && KeepsKey(Step(s0, evs[0], pub), evs[1..], pub, inc)
  }

  ghost predicate WayOnce(s: State, inc: nat) {
    && OpenWays(s, inc) <= 1
    && Ways(s, inc) <= 1
    && (WaitingWays(s, inc) > 0 ==> Ways(s, inc) == 0)
    && (s.worker.Settling? && Holds(s.worker.job, inc, WrongWay) == 1 && WrongWay !in s.worker.done ==> Ways(s, inc) == 0)
  }

  ghost predicate WayPosted(s: State, inc: nat)
    requires s.incOf.Keys == s.rec.tracks.Keys
  {
    forall id :: id in s.incOf && s.incOf[id] == inc && Ways(s, inc) > 0 ==>
      s.rec.tracks[id].kinds.wrongWay.posted || BeingSettled(s, inc, WrongWay)
  }

  /** An entry that offers WRONG_WAY was made while no job for it was open, and none has been published. */
  ghost predicate WayOffered(s: State, inc: nat, e: ReadyEmit) {
    e.trackId in s.incOf && s.incOf[e.trackId] == inc && WrongWay in e.ready ==> OpenWays(s, inc) == 0 && Ways(s, inc) == 0
  }

  ghost predicate WayInv(s: State, inc: nat) {
    && Inv(s)
    && WayOnce(s, inc)
    && WayPosted(s, inc)
    && forall e :: e in RestOf(s.probe) ==> WayOffered(s, inc, e)
  }

  /** No job is created and nothing is published; the track, if it stays, keeps a posted WRONG_WAY posted. */
  ghost predicate NothingNew(s: State, s': State, inc: nat) {
    && Inv(s')
    && s'.wire == s.wire
    && OpenWays(s', inc) <= OpenWays(s, inc)
    && WaitingWays(s', inc) <= WaitingWays(s, inc)
    && (s.worker.Settling? || s'.worker.Settling? ==> s'.worker == s.worker)
    && (forall id :: id in s'.incOf && s'.incOf[id] == inc ==>
          || Ways(s, inc) == 0
          || (Alive(s, id, inc) && (s.rec.tracks[id].kinds.wrongWay.posted ==> s'.rec.tracks[id].kinds.wrongWay.posted)))
    && (forall e :: e in RestOf(s'.probe) ==> e in RestOf(s.probe))
    && (RestOf(s'.probe) != [] ==>
          forall id :: id in s'.incOf && s'.incOf[id] == inc ==> Alive(s, id, inc) || OpenWays(s, inc) + Ways(s, inc) == 0)
  }

  lemma NothingNewKeeps(s: State, s': State, inc: nat)
    requires WayInv(s, inc) && NothingNew(s, s', inc)
    ensures WayInv(s', inc)
  {
    forall e | e in RestOf(s'.probe) ensures WayOffered(s', inc, e) {
      assert WayOffered(s, inc, e);
    }
  }

  /** Steps that leave jobs, worker and wire alone. */
  lemma SameJobsKeeps(s: State, s': State, inc: nat)
    requires WayInv(s, inc) && Inv(s')
    requires s'.queue == s.queue && s'.worker == s.worker && s'.wire == s.wire && s'.dropped == s.dropped
    requires s'.probe == s.probe
    requires forall id :: id in s'.incOf && s'.incOf[id] == inc ==>
               || s.nextInc <= inc
               || (Alive(s, id, inc) && (s.rec.tracks[id].kinds.wrongWay.posted ==> s'.rec.tracks[id].kinds.wrongWay.posted))
    ensures WayInv(s', inc)
  {
    assert OnceOk(s, inc, WrongWay);
    NothingNewKeeps(s, s', inc);
  }

  lemma ObservationKeepsWay(s: State, ev: Event, pub: PublisherConfig, inc: nat)
    requires WayInv(s, inc) && Loaded(pub) && Enabled(s, ev)
    requires ev.Sight? || ev.Helmet? || ev.Lane? || ev.Way? || ev.Reading? || ev.Snapshot? || ev.Missed? || ev.Stale? || ev.Clean?
    ensures WayInv(Step(s, ev, pub), inc)
  {
    var s' := Step(s, ev, pub);
    StepKeepsInv(s, ev, pub);
    forall id | id in s'.incOf && s'.incOf[id] == inc && inc < s.nextInc
      ensures Alive(s, id, inc) && (s.rec.tracks[id].kinds.wrongWay.posted ==> s'.rec.tracks[id].kinds.wrongWay.posted)
    {
      PostedWayStays(s, ev, s', pub, id, inc);
    }
    SameJobsKeeps(s, s', inc);
  }

  lemma PostedWayStays(s: State, ev: Event, s': State, pub: PublisherConfig, id: nat, inc: nat)
    requires Inv(s) && Enabled(s, ev) && s' == Step(s, ev, pub)
    requires id in s'.incOf && s'.incOf[id] == inc && inc < s.nextInc && s'.incOf.Keys == s'.rec.tracks.Keys
    ensures Alive(s, id, inc) && (s.rec.tracks[id].kinds.wrongWay.posted ==> s'.rec.tracks[id].kinds.wrongWay.posted)
  {
    if Alive(s, id, inc) && s.rec.tracks[id].kinds.Get(WrongWay).posted {
      StepKeepsPosted(s, ev, pub, id, inc, WrongWay);
    }
  }

  lemma AskKeepsWay(s: State, s': State, now: real, list: seq<ReadyEmit>, inc: nat)
    requires WayInv(s, inc) && Inv(s') && IsReadyList(s.rec, now, list) && !Reoffers(s, inc, now) && s.probe.Idle?
    requires s' == s.(rec := Collect(s.rec, now), probe := Emitting(list, now))
    ensures WayInv(s', inc)
  {
    forall id | id in s'.incOf && s'.incOf[id] == inc && Ways(s', inc) > 0
      ensures s'.rec.tracks[id].kinds.wrongWay.posted || BeingSettled(s', inc, WrongWay)
    {
      AskEffect(s.rec.tracks[id], s.rec.dedup.seen, s.rec.cfg, now, WrongWay);
    }
    forall e | e in list ensures WayOffered(s', inc, e) {
      assert ListedRight(s.rec, s.rec.tracks.Keys, now, e);
      if e.trackId in s.incOf && s.incOf[e.trackId] == inc && WrongWay in e.ready {
        assert Alive(s, e.trackId, inc) && ReadyAt(s.rec, e.trackId, WrongWay, now);
      }
    }
  }

  lemma CommitKeepsWay(s: State, hasImages: bool, hasCrop: bool, pub: PublisherConfig, inc: nat)
    requires WayInv(s, inc) && Loaded(pub) && Enabled(s, CommitNext(hasImages, hasCrop))
    ensures WayInv(Step(s, CommitNext(hasImages, hasCrop), pub), inc)
  {
    var ev := CommitNext(hasImages, hasCrop);
    var s' := Step(s, ev, pub);
    StepKeepsInv(s, ev, pub);
    var e := s.probe.rest[0];
    assert EntryOk(s, e, s.probe.now) && WayOffered(s, inc, e);
    var want := Wanted(e.ready, hasCrop);
    if !hasImages || want == {} {
      NothingNewKeeps(s, s', inc);
    } else {
      EntryCommits(s, e, want, s.probe.now);
      CommittedKeepsWay(s, s', e, want, hasCrop, inc);
    }
  }

  lemma CommittedKeepsWay(s: State, s': State, e: ReadyEmit, want: KindSet, hasCrop: bool, inc: nat)
    requires WayInv(s, inc) && Inv(s') && Committed(s, s', e, want, hasCrop)
    ensures WayInv(s', inc)
  {
    assert WayOffered(s, inc, e);
    CommitTotals(s, s', e, want, hasCrop, inc, WrongWay);
    forall id | id in s'.incOf && s'.incOf[id] == inc && Ways(s', inc) > 0
      ensures s'.rec.tracks[id].kinds.wrongWay.posted || BeingSettled(s', inc, WrongWay)
    {
      if s.rec.tracks[id].kinds.Get(WrongWay).posted {
        CommitKeepsPosted(s.rec, e.trackId, e.plate, want, s.probe.now, id, WrongWay);
      }
    }
    forall i | 0 <= i < |s'.probe.rest| ensures WayOffered(s', inc, s'.probe.rest[i]) {
      assert s'.probe.rest[i] == s.probe.rest[i + 1] && s.probe.rest[0].trackId < s.probe.rest[i + 1].trackId;
      assert WayOffered(s, inc, s'.probe.rest[i]);
    }
  }

  lemma EnqueuedWays(s: State, job: Job, inc: nat)
    ensures OpenWays(Enqueued(s, job), inc) <= OpenWays(s, inc) + Holds(job, inc, WrongWay)
    ensures WaitingWays(Enqueued(s, job), inc) <= WaitingWays(s, inc) + Holds(job, inc, WrongWay)
  {
    EnqueuedTotals(s, job, inc, WrongWay);
    HeldConcat(s.dropped, s.queue[..Overflow(s.queue)], inc, WrongWay);
  }

  /** The probe puts its job into the queue. */
  lemma QueueKeepsWay(s: State, s': State, inc: nat)
    requires WayInv(s, inc) && Inv(s') && s.probe.Holding?
    requires s' == Enqueued(s, s.probe.job).(probe := Emitting(s.probe.rest, s.probe.now))
    ensures WayInv(s', inc)
  {
    EnqueuedWays(s.(probe := s'.probe), s.probe.job, inc);
    HeldOne(s.probe.job, inc, WrongWay);
    NothingNewKeeps(s, s', inc);
  }

  lemma QueueForeignKeepsWay(s: State, s': State, inc: nat)
    requires WayInv(s, inc) && Inv(s') && s' == Enqueued(s, Foreign)
    ensures WayInv(s', inc)
  {
    EnqueuedWays(s, Foreign, inc);
    NothingNewKeeps(s, s', inc);
  }

  lemma TakeKeepsWay(s: State, s': State, inc: nat)
    requires WayInv(s, inc) && Inv(s') && s.worker.Resting? && s.queue != []
    requires s' == s.(queue := s.queue[1..], worker := if s.queue[0].Own? then Publishing(s.queue[0]) else Resting)
    ensures WayInv(s', inc)
  {
    NothingNewKeeps(s, s', inc);
  }

  lemma DiscardKeepsWay(s: State, s': State, inc: nat)
    requires WayInv(s, inc) && Inv(s') && s.worker.Publishing?
    requires s' == s.(worker := Resting, dropped := s.dropped + [s.worker.job])
    ensures WayInv(s', inc)
  {
    HeldConcat(s.dropped, [s.worker.job], inc, WrongWay);
    HeldOne(s.worker.job, inc, WrongWay);
    NothingNewKeeps(s, s', inc);
  }

  lemma PublishKeepsWay(s: State, s': State, world: World, pub: PublisherConfig, inc: nat)
    requires WayInv(s, inc) && Inv(s') && Loaded(pub) && Delivered(s, s', world, pub)
    ensures WayInv(s', inc)
  {
    DeliveredTotals(s, s', world, pub, inc, WrongWay);
    TaggedCount(s.worker.job.inc, SentEvents(pub, s.worker.job.emit, world), inc, WrongWay);
    SentWasWanted(s, world, pub, WrongWay);
    forall e | e in RestOf(s'.probe) ensures WayOffered(s', inc, e) {
      assert WayOffered(s, inc, e);
    }
  }

  lemma SettledKeepsWay(s: State, s': State, pub: PublisherConfig, inc: nat)
    requires WayInv(s, inc) && Inv(s') && Settling?(s) && SettlesOwn(s)
    requires var job := s.worker.job;
             s' == s.(rec := Settle(s.rec, job.emit.trackId, job.want, s.worker.done), worker := Resting)
    ensures WayInv(s', inc)
  {
    SettledTotals(s, s'.rec, inc, WrongWay);
    assert s.worker.job in OpenJobs(s) && JobOk(s, s.worker.job);
    forall id | id in s'.incOf && s'.incOf[id] == inc && Ways(s', inc) > 0
      ensures s'.rec.tracks[id].kinds.wrongWay.posted
    {
      SettleTrack(s, s'.rec, id, WrongWay);
    }
    forall e | e in RestOf(s'.probe) ensures WayOffered(s', inc, e) {
      assert WayOffered(s, inc, e);
    }
  }

  lemma ForeignKeepsWay(s: State, s': State, inc: nat)
    requires WayInv(s, inc) && Inv(s') && !s.worker.Resting? && s.worker.job.Foreign? && s' == s.(worker := Resting)
    ensures WayInv(s', inc)
  {
    forall e | e in RestOf(s'.probe) ensures WayOffered(s', inc, e) {
      assert WayOffered(s, inc, e);
    }
  }

  lemma WorkerKeepsWay(s: State, ev: Event, pub: PublisherConfig, inc: nat)
    requires WayInv(s, inc) && Loaded(pub) && Enabled(s, ev) && (ev.Publish? || ev.Settled?)
    ensures WayInv(Step(s, ev, pub), inc)
  {
    var s' := Step(s, ev, pub);
    StepKeepsInv(s, ev, pub);
    if s.worker.job.Foreign? {
      ForeignKeepsWay(s, s', inc);
    } else if ev.Publish? {
      PublishKeepsWay(s, s', ev.world, pub, inc);
    } else {
      SettledKeepsWay(s, s', pub, inc);
    }
  }

  lemma JobKeepsWay(s: State, ev: Event, s': State, pub: PublisherConfig, inc: nat)
    requires WayInv(s, inc) && Inv(s') && Enabled(s, ev) && s' == Step(s, ev, pub)
    requires ev.Queue? || ev.QueueForeign? || ev.EndFrame? || ev.Take? || ev.Discard?
    ensures WayInv(s', inc)
  {
    match ev
    case Queue => QueueKeepsWay(s, s', inc);
    case QueueForeign => QueueForeignKeepsWay(s, s', inc);
    case EndFrame => NothingNewKeeps(s, s', inc);
    case Take => TakeKeepsWay(s, s', inc);
    case Discard => DiscardKeepsWay(s, s', inc);
  }

  lemma StepKeepsWay(s: State, ev: Event, pub: PublisherConfig, inc: nat)
    requires WayInv(s, inc) && Loaded(pub) && Enabled(s, ev) && (ev.Ask? ==> !Reoffers(s, inc, ev.now))
    ensures WayInv(Step(s, ev, pub), inc)
  {
    StepKeepsInv(s, ev, pub);
    match ev
    case Ask(now, list) => AskKeepsWay(s, Step(s, ev, pub), now, list, inc);
    case CommitNext(hasImages, hasCrop) => CommitKeepsWay(s, hasImages, hasCrop, pub, inc);
    case Publish(_) => WorkerKeepsWay(s, ev, pub, inc);
    case Settled => WorkerKeepsWay(s, ev, pub, inc);
    case Queue => JobKeepsWay(s, ev, Step(s, ev, pub), pub, inc);
    case QueueForeign => JobKeepsWay(s, ev, Step(s, ev, pub), pub, inc);
    case EndFrame => JobKeepsWay(s, ev, Step(s, ev, pub), pub, inc);
    case Take => JobKeepsWay(s, ev, Step(s, ev, pub), pub, inc);
    case Discard => JobKeepsWay(s, ev, Step(s, ev, pub), pub, inc);
    case _ => ObservationKeepsWay(s, ev, pub, inc);
  }

  lemma {:induction false} RunKeepsWay(s0: State, evs: seq<Event>, s: State, pub: PublisherConfig, inc: nat)
    requires WayInv(s0, inc) && Loaded(pub) && RunsTo(s0, evs, s, pub) && NeverReoffers(s0, evs, pub, inc)
    ensures WayInv(s, inc)
    decreases |evs|
  {
    if evs == [] {
    } else {
      StepKeepsWay(s0, evs[0], pub, inc);
      RunKeepsWay(Step(s0, evs[0], pub), evs[1..], s, pub, inc);
    }
  }

  /** On every run of the protocol WRONG_WAY of an incarnation is published at most once - also when it is cleared while
      its job is under way - provided that no question offers it again while a job for it is open. */
  lemma WrongWayAtMostOnce(cfg: Config, evs: seq<Event>, s: State, pub: PublisherConfig, inc: nat)
    requires Loaded(pub) && RunsTo(InitState(cfg), evs, s, pub) && NeverReoffers(InitState(cfg), evs, pub, inc)
    ensures Published(s, inc, WrongWay) <= 1
    ensures Published(s, inc, WrongWay) == 1 ==> WaitingWays(s, inc) == 0
  {
    InitInv(cfg);
    RunKeepsWay(InitState(cfg), evs, s, pub, inc);
  }

  // ---------------------------------------------------------------------------------------------
  // When it is offered again, and what follows

  /** While a job for it is open, a question offers WRONG_WAY of an emittable track again exactly when the key is gone and
      the kind's own gates are open - as they are when it was cleared and hit again. */
  lemma ReoffersIff(s: State, id: nat, now: real)
    requires Registry(s) && id in s.rec.tracks && Emitable(s.rec, s.rec.tracks[id]) && OpenWays(s, s.incOf[id]) > 0
    ensures Reoffers(s, s.incOf[id], now) <==>
              !KeyLive(s, s.incOf[id], now) && GatesOpen(s.rec.tracks[id], WrongWay, s.rec.cfg, now)
  {
    assert forall x :: x in s.incOf && s.incOf[x] == s.incOf[id] ==> x == id;
    assert Alive(s, id, s.incOf[id]);
  }

  lemma LiveKeyBlocks(s: State, inc: nat, now: real)
    requires s.incOf.Keys == s.rec.tracks.Keys && KeyLive(s, inc, now)
    ensures !Reoffers(s, inc, now)
  {
  }

  lemma {:induction false} KeepingTheKeySuffices(s0: State, evs: seq<Event>, pub: PublisherConfig, inc: nat)
    requires KeepsKey(s0, evs, pub, inc)
    ensures NeverReoffers(s0, evs, pub, inc)
    decreases |evs|
  {
    if evs == [] {
    } else if s0.incOf.Keys == s0.rec.tracks.Keys && CanStep(s0, evs[0]) {
      KeepingTheKeySuffices(Step(s0, evs[0], pub), evs[1..], pub, inc);
      if evs[0].Ask? {
        LiveKeyBlocks(s0, inc, evs[0].now);
      }
    }
  }

  /** So it is enough that the key of the commit is still in the cache, neither expired nor pushed out, whenever a
      question is asked while the job is open. */
  lemma WrongWayAtMostOnceWhileRemembered(cfg: Config, evs: seq<Event>, s: State, pub: PublisherConfig, inc: nat)
    requires Loaded(pub) && RunsTo(InitState(cfg), evs, s, pub) && KeepsKey(InitState(cfg), evs, pub, inc)
    ensures Published(s, inc, WrongWay) <= 1
  {
    KeepingTheKeySuffices(InitState(cfg), evs, pub, inc);
    WrongWayAtMostOnce(cfg, evs, s, pub, inc);
  }

  /** A commit adds an open job for WRONG_WAY exactly when the next entry offers it and images and crop are there: a
      second one, if the question that made the entry found one open. */
  lemma JobsAfterCommit(s: State, hasImages: bool, hasCrop: bool, s': State, pub: PublisherConfig, inc: nat)
    requires Inv(s) && RunsTo(s, [CommitNext(hasImages, hasCrop)], s', pub)
    ensures var e := s.probe.rest[0];
            OpenWays(s', inc) == OpenWays(s, inc) +
              if hasImages && hasCrop && WrongWay in e.ready && s.incOf[e.trackId] == inc then 1 else 0
  {
    var e := s.probe.rest[0];
    assert [CommitNext(hasImages, hasCrop)][1..] == [];
    assert EntryOk(s, e, s.probe.now);
    var want := Wanted(e.ready, hasCrop);
    if hasImages && want != {} {
      EntryCommits(s, e, want, s.probe.now);
      CommitTotals(s, s', e, want, hasCrop, inc, WrongWay);
    }
  }

  lemma WaysAfterPublish(s: State, s': State, world: World, pub: PublisherConfig)
    requires JobsOk(s) && Loaded(pub) && Delivered(s, s', world, pub)
    ensures var job := s.worker.job;
            Ways(s', job.inc) ==
              Ways(s, job.inc) + if WrongWay in job.want && OnWire(pub, job.emit, world, WrongWay) then 1 else 0
  {
    var job := s.worker.job;
    TaggedCount(job.inc, SentEvents(pub, job.emit, world), job.inc, WrongWay);
    SentWasWanted(s, world, pub, WrongWay);
    SentOnce(pub, job.emit, world, WrongWay);
  }

  /** After a first WRONG_WAY event, a publish adds a second one exactly when its job wants the kind and the event goes on
      the wire; and there is such a job only on a run on which a question offered the kind again while a job for it was
      open. */
  lemma SecondWrongWayEvent(cfg: Config, evs: seq<Event>, s: State, world: World, s': State, pub: PublisherConfig)
    requires Loaded(pub) && RunsTo(InitState(cfg), evs, s, pub) && Delivered(s, s', world, pub)
    requires Published(s, s.worker.job.inc, WrongWay) == 1
    ensures var job := s.worker.job;
            && (Published(s', job.inc, WrongWay) == 2 <==> WrongWay in job.want && OnWire(pub, job.emit, world, WrongWay))
            && (WrongWay in job.want ==> !NeverReoffers(InitState(cfg), evs, pub, job.inc))
  {
    InitInv(cfg);
    EmitSteps.RunKeepsInv(InitState(cfg), evs, s, pub);
    WaysAfterPublish(s, s', world, pub);
    if NeverReoffers(InitState(cfg), evs, pub, s.worker.job.inc) {
      WrongWayAtMostOnce(cfg, evs, s, pub, s.worker.job.inc);
    }
  }
}
