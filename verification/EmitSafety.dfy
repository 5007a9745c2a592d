/** Safety of the emit protocol over every interleaving: job conservation, at-most-once publishing, and posted
    kinds staying closed. */
module EmitSafety {
  import opened Kinds
  import opened Rules
  import opened Dedup
  import opened TrackState
  import opened Recognizer
  import opened EmitGate
  import opened Publisher
  import opened EmitProtocol

  /** The kinds the conservation law speaks of: all of them, except WRONG_WAY of an incarnation whose wrong-way
      state was thrown away while a job for it was under way. */
  predicate Guarded(s: State, inc: nat, k: EventKind) { k == WrongWay ==> inc !in s.tainted }

  /** The kinds that are published at most once: those, except PLATE of an incarnation with a stray vehicle event. */
  predicate Exclusive(s: State, inc: nat, k: EventKind) {
    Guarded(s, inc, k) && (k == Plate ==> inc !in s.stray)
  }

  predicate InFlight(v: ViolationState) { v.pushed && !v.posted }

  ghost predicate Emitable(r: Rec, t: Track) {
    t.final.chosen && ShouldEmitPlate(t.final.emitPlate, r.cfg.sendMode)
  }

  // ---------------------------------------------------------------------------------------------
  // The invariant, part by part

  ghost predicate Registry(s: State) {
    && OwnIds(s.rec)
    && s.incOf.Keys == s.rec.tracks.Keys
    && (forall id :: id in s.incOf ==> s.incOf[id] < s.nextInc)
    && (forall a, b :: a in s.incOf && b in s.incOf && a != b ==> s.incOf[a] != s.incOf[b])
  }

  /** An open job carries the track id of its incarnation, and reports only what it wants. */
  ghost predicate JobOk(s: State, j: Job) {
    j.Own? ==>
      && j.inc < s.nextInc
      && (forall id :: id in s.incOf && s.incOf[id] == j.inc ==> id == j.emit.trackId)
      && (forall k: EventKind :: k !in j.want ==> HitsOf(j.emit, k) == 0)
  }

  ghost predicate JobsOk(s: State) { forall j :: j in OpenJobs(s) ==> JobOk(s, j) }

  /** Conservation for one live kind: it is in flight exactly when one job - open or lost - holds it. */
  ghost predicate CountOk(s: State, id: nat, k: EventKind)
    requires id in s.rec.tracks && id in s.incOf
  {
    var v := s.rec.tracks[id].kinds.Get(k);
    && (Guarded(s, s.incOf[id], k) ==> Total(s, s.incOf[id], k) == if InFlight(v) then 1 else 0)
    && (InFlight(v) ==> Emitable(s.rec, s.rec.tracks[id]))
  }

  /** The publisher has reported this kind as done and the worker has not settled it yet. */
  predicate BeingSettled(s: State, inc: nat, k: EventKind) {
    s.worker.Settling? && Holds(s.worker.job, inc, k) == 1 && k in s.worker.done
  }

  /** A published kind of a live track is posted, or about to be. */
  ghost predicate PostedOk(s: State, id: nat, k: EventKind)
    requires id in s.rec.tracks && id in s.incOf
  {
    Exclusive(s, s.incOf[id], k) && Published(s, s.incOf[id], k) > 0 ==>
      s.rec.tracks[id].kinds.Get(k).posted || BeingSettled(s, s.incOf[id], k)
  }

  ghost predicate LiveOk(s: State)
    requires s.incOf.Keys == s.rec.tracks.Keys
  {
    forall id, k: EventKind :: id in s.rec.tracks ==> CountOk(s, id, k) && PostedOk(s, id, k)
  }

  /** Every kind of every incarnation, live or gone. */
  ghost predicate OnceOk(s: State, inc: nat, k: EventKind) {
    && (inc >= s.nextInc ==> Total(s, inc, k) == 0 && Published(s, inc, k) == 0)
    && (Guarded(s, inc, k) ==> Total(s, inc, k) <= 1)
    && (Exclusive(s, inc, k) ==>
          && Published(s, inc, k) <= 1
          && (Unpublished(s, inc, k) > 0 ==> Published(s, inc, k) == 0)
          && (s.worker.Settling? && Holds(s.worker.job, inc, k) == 1 && k !in s.worker.done ==>
                Published(s, inc, k) == 0))
  }

  ghost predicate AllOnce(s: State) { forall inc: nat, k: EventKind :: OnceOk(s, inc, k) }

  /** A ready entry still waiting in the probe's list can be committed in full. */
  ghost predicate EntryOk(s: State, e: ReadyEmit, now: real) {
    && e.trackId in s.rec.tracks && e.trackId in s.incOf
    && Emitable(s.rec, s.rec.tracks[e.trackId])
    && e.plate == s.rec.tracks[e.trackId].final.emitPlate
    && (forall k :: k in e.ready ==> !AlreadyEmitted(s.rec.dedup.seen, Key(e.trackId, e.plate, k), now))
    && (forall k :: k in e.ready && Guarded(s, s.incOf[e.trackId], k) ==> IsOpen(s.rec.tracks[e.trackId].kinds.Get(k)))
  }

  predicate IsOpen(v: ViolationState) { !v.pushed && !v.posted }

  ghost predicate ListOk(s: State, rest: seq<ReadyEmit>, now: real) {
    && (forall i :: 0 <= i < |rest| ==> EntryOk(s, rest[i], now))
    && (forall i, j :: 0 <= i < j < |rest| ==> rest[i].trackId < rest[j].trackId)
  }

  /** What is left of the ready list, and the time it was asked at. */
  function RestOf(p: Probe): seq<ReadyEmit> { if p.Idle? then [] else p.rest }

  function AskedAt(p: Probe): real { if p.Idle? then 0.0 else p.now }

  ghost predicate ProbeOk(s: State) { ListOk(s, RestOf(s.probe), AskedAt(s.probe)) }

  ghost predicate Inv(s: State) {
    Registry(s) && JobsOk(s) && LiveOk(s) && AllOnce(s) && ProbeOk(s)
  }

  lemma InitInv(cfg: Config)
    ensures Inv(InitState(cfg))
  {
  }

  // ---------------------------------------------------------------------------------------------
  // Observations

  /** An observation of a track leaves its flags and a final plate alone. */
  ghost predicate Benign(t: Track, t': Track) {
    && t'.id == t.id
    && (forall k: EventKind ::
          t'.kinds.Get(k).pushed == t.kinds.Get(k).pushed && t'.kinds.Get(k).posted == t.kinds.Get(k).posted)
    && (t.final.chosen ==> t'.final == t.final)
  }

  /** s' differs from s by benign changes of tracks only. */
  ghost predicate Observed(s: State, s': State) {
    && s' == s.(rec := s.rec.(tracks := s'.rec.tracks))
    && s'.rec.tracks.Keys == s.rec.tracks.Keys
    && forall id :: id in s.rec.tracks ==> Benign(s.rec.tracks[id], s'.rec.tracks[id])
  }

  lemma ObservedKeepsInv(s: State, s': State)
    requires Inv(s) && Observed(s, s')
    ensures Inv(s')
  {
    forall id, k: EventKind | id in s'.rec.tracks ensures CountOk(s', id, k) && PostedOk(s', id, k) {
      assert CountOk(s, id, k) && PostedOk(s, id, k);
      assert Benign(s.rec.tracks[id], s'.rec.tracks[id]);
    }
    forall inc: nat, k: EventKind ensures OnceOk(s', inc, k) {
      assert OnceOk(s, inc, k);
    }
    forall j | j in OpenJobs(s') ensures JobOk(s', j) {
      assert JobOk(s, j);
    }
    forall e: ReadyEmit, now | EntryOk(s, e, now) ensures EntryOk(s', e, now) {
      assert Benign(s.rec.tracks[e.trackId], s'.rec.tracks[e.trackId]);
    }
  }

  lemma BenignUpdate(s: State, id: nat, t': Track)
    requires Inv(s) && id in s.rec.tracks && Benign(s.rec.tracks[id], t')
    ensures Inv(s.(rec := s.rec.(tracks := s.rec.tracks[id := t'])))
  {
    ObservedKeepsInv(s, s.(rec := s.rec.(tracks := s.rec.tracks[id := t'])));
  }

  lemma KindChangeBenign(t: Track, k: EventKind, v: ViolationState)
    requires v.pushed == t.kinds.Get(k).pushed && v.posted == t.kinds.Get(k).posted
    ensures Benign(t, WithKind(t, k, v))
  {
  }

  lemma ClosedBenign(t: Track, ocr: OcrLog, f: FinalPlate, now: real)
    requires !t.final.chosen
    ensures Benign(t, Closed(t.(ocr := ocr), f, now))
  {
  }

  lemma FinalizeBenign(t: Track, ocr: OcrLog, now: real)
    requires !t.final.chosen && ocr.readings != []
    ensures Benign(t, Finalize(t.(ocr := ocr), now))
  {
    ClosedBenign(t, ocr, Chosen(ocr, t.styles, t.final, now), now);
  }

  lemma MissBenign(t: Track, now: real)
    ensures Benign(t, TryFinalizeMiss(t, now).0)
  {
    if !t.final.chosen && t.ocr.readings != [] {
      FinalizeBenign(t, t.ocr, now);
    }
  }

  lemma SightingBenign(t: Track, cls: int, conf: real, inZone: bool, now: real)
    ensures Benign(t, SightingOf(t, cls, conf, inZone, now).0)
  {
    if !inZone {
      MissBenign(if t.zone.inPolygon then OnLeave(t, now) else t, now);
    }
  }

  lemma ReadingBenign(t: Track, chars: CharSequence, raw: string, now: real, meanConf: real, sampleArea: real,
                      plateArea: real)
    ensures Benign(t, AddOcr(t, chars, raw, now, meanConf, sampleArea, plateArea).0)
  {
    if CanOcr(t) && chars != [] {
      var ocr := Record(t.ocr, chars, raw, now, meanConf, sampleArea, plateArea);
      FinalizeBenign(t, ocr, now);
    }
  }

  lemma HelmetBenign(t: Track, people: int)
    ensures Benign(t, AddHelmet(t, people))
  {
    if people > 0 {
      var v := t.kinds.Get(NoHelmet);
      KindChangeBenign(t, NoHelmet, v.(hits := v.hits + 1, detail := if people > v.detail then people else v.detail));
    }
  }

  lemma KindHitBenign(t: Track, k: EventKind, now: real, detail: nat, text: string)
    ensures Benign(t, AddKindHit(t, k, now, detail, text))
  {
    KindChangeBenign(t, k, KindHit(t.kinds.Get(k), now, detail));
  }

  lemma WrongWayBenign(t: Track, line: string, now: real)
    ensures Benign(t, AddWrongWay(t, line, now))
  {
    KindHitBenign(t, WrongWay, now, 0, line);
    var t' := AddKindHit(t, WrongWay, now, 0, line);
    KindChangeBenign(t', WrongWay, SetPaired(t'.kinds.Get(WrongWay), now));
  }

  // ---------------------------------------------------------------------------------------------
  // Each step keeps the invariant: observations, and the birth and death of tracks

  lemma SightKeepsInv(s: State, id: nat, cls: int, conf: real, inZone: bool, now: real, pub: PublisherConfig)
    requires Inv(s) && Enabled(s, Sight(id, cls, conf, inZone, now))
    ensures Inv(Step(s, Sight(id, cls, conf, inZone, now), pub))
  {
    if id in s.rec.tracks {
      SightingBenign(s.rec.tracks[id], cls, conf, inZone, now);
      BenignUpdate(s, id, SightingOf(s.rec.tracks[id], cls, conf, inZone, now).0);
    } else {
      var t := NewTrack(id, now, s.rec.cfg.maxTimes, s.rec.cfg.styles);
      SightingBenign(t, cls, conf, inZone, now);
      BirthKeepsInv(s, id, SightingOf(t, cls, conf, inZone, now).0);
    }
  }

  lemma BirthKeepsInv(s: State, id: nat, t: Track)
    requires Inv(s) && id !in s.rec.tracks
    requires t.id == id && forall k: EventKind :: !t.kinds.Get(k).pushed && !t.kinds.Get(k).posted
    ensures Inv(s.(rec := s.rec.(tracks := s.rec.tracks[id := t]), incOf := s.incOf[id := s.nextInc],
                   nextInc := s.nextInc + 1))
  {
    var s' := s.(rec := s.rec.(tracks := s.rec.tracks[id := t]), incOf := s.incOf[id := s.nextInc],
                 nextInc := s.nextInc + 1);
    forall inc: nat, k: EventKind ensures OnceOk(s', inc, k) {
      assert OnceOk(s, inc, k);
    }
    forall x, k: EventKind | x in s'.rec.tracks ensures CountOk(s', x, k) && PostedOk(s', x, k) {
      if x == id {
        assert OnceOk(s, s.nextInc, k);
      } else {
        assert CountOk(s, x, k) && PostedOk(s, x, k);
      }
    }
    forall j | j in OpenJobs(s') ensures JobOk(s', j) {
      assert j in OpenJobs(s) && JobOk(s, j);
    }
    forall e: ReadyEmit, now | EntryOk(s, e, now) ensures EntryOk(s', e, now) {
    }
  }

  lemma CleanKeepsInv(s: State, now: real, pub: PublisherConfig)
    requires Inv(s) && Enabled(s, Clean(now))
    ensures Inv(Step(s, Clean(now), pub))
  {
    var s' := Step(s, Clean(now), pub);
    forall inc: nat, k: EventKind ensures OnceOk(s', inc, k) {
      assert OnceOk(s, inc, k);
    }
    forall id, k: EventKind | id in s'.rec.tracks ensures CountOk(s', id, k) && PostedOk(s', id, k) {
      assert CountOk(s, id, k) && PostedOk(s, id, k);
    }
    forall j | j in OpenJobs(s') ensures JobOk(s', j) {
      assert JobOk(s, j);
    }
  }
}
