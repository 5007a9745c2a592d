/** What the protocol decides about a track in any state of a run, by the events of that run: taking a reading, closing the
    plate, offering a kind, deleting the track. */
module EmitDecisions {
  import Dedup
  import opened Kinds
  import opened Rules
  import opened TrackState
  import opened TrackLifecycle
  import opened TrackEvidence
  import opened TrackDecisions
  import opened Recognizer
  import opened Publisher
  import opened EmitProtocol
  import opened EmitHistory

  /** The track with this id after the run, and what the events of the run did to it since it was made. */
  ghost predicate LivesOn(cfg: Config, c0: real, evs: seq<Event>, s: State, clock: real, pub: PublisherConfig, id: nat,
                          life: Life)
  {
    && 0.0 < c0 && TimedRun(InitState(cfg), c0, evs, s, clock, pub) && id in s.rec.tracks && cfg.maxTimes > 0
    && life == LifeOnRun(cfg, c0, evs, pub, id) && life.Life?
  }

  lemma TrackOfLife(cfg: Config, c0: real, evs: seq<Event>, s: State, clock: real, pub: PublisherConfig, id: nat, life: Life)
    requires LivesOn(cfg, c0, evs, s, clock, pub, id, life)
    ensures s.rec.cfg == cfg && s.rec.tracks[id] == Run(NewTrack(id, life.at, cfg.maxTimes, cfg.styles), life.ops)
    ensures TrackLifecycle.Timed(life.ops, 0.0)
    ensures forall k: EventKind :: Evidence(s.rec.tracks[id], Window(life.ops, k), k)
  {
    RunKeepsLife(InitState(cfg), c0, evs, s, clock, pub, id, NoLife);
    EvidenceInEveryState(cfg, c0, evs, s, clock, pub, id);
  }

  /** In every state of a run a cleanup deletes a track exactly when its plate is final and nothing observed of it is
      unsettled, or the vehicle has been out of the zone for more than ten seconds, or it was first seen more than two
      minutes ago - all by the events of the run. */
  lemma DeletedInEveryState(cfg: Config, c0: real, evs: seq<Event>, s: State, clock: real, pub: PublisherConfig, id: nat,
                            life: Life, now: real)
    requires LivesOn(cfg, c0, evs, s, clock, pub, id, life)
    ensures var t := s.rec.tracks[id];
            && IsZone(life.ops, t.zone)
            && (id !in Cleanup(s.rec, now).tracks <==>
                  || (t.final.chosen && forall k: EventKind :: !Unsettled(t, life.ops, k))
                  || (!t.zone.inPolygon && now - t.zone.lastInZoneAt > 10.0)
                  || now - life.at > 120.0)
  {
    TrackOfLife(cfg, c0, evs, s, clock, pub, id, life);
    DeletionDecides(NewTrack(id, life.at, cfg.maxTimes, cfg.styles), life.ops, cfg.maxTimes, now);
  }

  /** A kind is offered only for what was observed: the plate is final, and a violation was seen since it was last thrown away
      and has not been settled since. */
  lemma OfferedWasObserved(cfg: Config, c0: real, evs: seq<Event>, s: State, clock: real, pub: PublisherConfig, id: nat,
                           life: Life, now: real, k: EventKind)
    requires LivesOn(cfg, c0, evs, s, clock, pub, id, life) && k in ReadyOf(s.rec, id, now)
    ensures s.rec.tracks[id].final.chosen && Unsettled(s.rec.tracks[id], life.ops, k)
  {
    TrackOfLife(cfg, c0, evs, s, clock, pub, id, life);
    PendingIffUnsettled(s.rec.tracks[id], life.ops, k);
  }

  /** In every state of a run a reading is taken, closes the plate, and becomes the best snapshot as `ReadingDecides` says of the
      readings that the events of the run fed to the track. */
  lemma ReadingInEveryState(cfg: Config, c0: real, evs: seq<Event>, s: State, clock: real, pub: PublisherConfig, id: nat,
                            life: Life, chars: CharSequence, raw: string, now: real, meanConf: real, sampleArea: real,
                            plateArea: real)
    requires LivesOn(cfg, c0, evs, s, clock, pub, id, life)
    ensures var t, hist := s.rec.tracks[id], RunLog(NewTrack(id, life.at, cfg.maxTimes, cfg.styles), [], life.ops);
            var (rec', status) := ObserveReading(s.rec, id, chars, raw, now, meanConf, sampleArea, plateArea);
            var taken, n := !t.final.chosen && t.zone.inPolygon && chars != [], |hist| + 1;
            var closes := taken && (n >= 2 * cfg.maxTimes ||
                            (n >= cfg.maxTimes && !ComesCloser(hist, if sampleArea > 0.0 then sampleArea else 0.0)));
            && IsZone(life.ops, t.zone)
            && id in rec'.tracks && rec'.tracks[id].final.chosen == (t.final.chosen || closes)
            && (status == Rejected <==> !taken) && (status == Finalized || status == FinalizedBestSnapshot <==> closes)
  {
    TrackOfLife(cfg, c0, evs, s, clock, pub, id, life);
    var t0 := NewTrack(id, life.at, cfg.maxTimes, cfg.styles);
    AllAfter(t0, life.ops, cfg.maxTimes);
    ReadingDecides(s.rec.tracks[id], RunLog(t0, [], life.ops), chars, raw, now, meanConf, sampleArea, plateArea);
  }

  /** A final plate that the send mode refuses settles everything at the next question: whatever was observed of the track,
      the next cleanup deletes it. */
  lemma RefusedPlateIsDropped(r: Rec, id: nat, asked: real, now: real)
    requires id in r.tracks && r.tracks[id].final.chosen && !ShouldEmitPlate(r.tracks[id].final.emitPlate, r.cfg.sendMode)
    ensures ReadyOf(r, id, asked) == {}
    ensures id !in Cleanup(Collect(r, asked), now).tracks
  {
    var t := r.tracks[id];
    if !AllSettled(t) {
      AllPosted(t);
    }
  }

  lemma AllPosted(t: Track)
    ensures AllSettled(MarkAllPosted(t)) && MarkAllPosted(t).final == t.final
  {
  }

  /** A kind whose key the cache still has is settled by the question instead of being offered. */
  lemma RememberedKindIsSettled(r: Rec, id: nat, k: EventKind, now: real)
    requires id in r.tracks && r.tracks[id].id == id && r.tracks[id].final.chosen
    requires ShouldEmitPlate(r.tracks[id].final.emitPlate, r.cfg.sendMode) && GatesOpen(r.tracks[id], k, r.cfg, now)
    requires Dedup.AlreadyEmitted(r.dedup.seen, Dedup.Key(id, r.tracks[id].final.emitPlate, k), now)
    ensures k !in ReadyOf(r, id, now) && k !in PendingKinds(Collect(r, now).tracks[id])
    ensures Collect(r, now).tracks[id].kinds.Get(k).pushed
  {
    match k case Plate => case NoHelmet => case WrongLane => case WrongWay =>
  }
}
