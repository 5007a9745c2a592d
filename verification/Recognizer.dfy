/** The recognizer of one camera: all its tracks, the dedup cache, and the gate in front of event emission. */
module Recognizer {
  import opened Kinds
  import opened Rules
  import opened Dedup
  import opened TrackState

  const DEFAULT_MAX_RECOGNIZE_TIMES := 5
  const DEFAULT_STYLES: seq<string> := [
    "NNCNNNNN", "NNCNNNNNN", "CCNNNN", "NNCNNNN", "NNCCNNNN",
    "NNNNNCC", "NNNNNCN", "NNNNNCCNN", "NNCCNNNNN", "NNCCNNNNNN"]

  datatype Config = Config(
    maxTimes: int,
    styles: seq<string>,
    sendMode: int,
    retryInterval: real,
    wwSettle: real,
    wwWait: real)

  datatype Rec = Rec(cfg: Config, tracks: map<nat, Track>, dedup: Cache)

  // ---------------------------------------------------------------------------------------------
  // Readiness of one track

  /** The gates of kind k alone, apart from the dedup cache. */
  predicate GatesOpen(t: Track, k: EventKind, cfg: Config, now: real) {
    var v := t.kinds.Get(k);
    && (k == Plate || v.hits > 0)
    && !v.pushed
    && !v.posted
    && !(k == WrongWay && cfg.wwSettle > 0.0 && v.pairedAt > 0.0 && now < v.pairedAt + cfg.wwSettle)
    && !(v.lastAttempt > 0.0 && now - v.lastAttempt < cfg.retryInterval)
  }

  function KeyOf(t: Track, k: EventKind): Key { Key(t.id, t.final.emitPlate, k) }

  predicate Ready(t: Track, k: EventKind, seen: map<Key, real>, cfg: Config, now: real) {
    && t.final.chosen
    && ShouldEmitPlate(t.final.emitPlate, cfg.sendMode)
    && GatesOpen(t, k, cfg, now)
    && !AlreadyEmitted(seen, KeyOf(t, k), now)
  }

  function ReadyKinds(t: Track, seen: map<Key, real>, cfg: Config, now: real): KindSet {
    set k | k in {Plate, NoHelmet, WrongLane, WrongWay} && Ready(t, k, seen, cfg, now)
  }

  /** Asking for readiness stamps the attempt, and posts a kind that the cache already has. */
  function KindAfterAsk(t: Track, k: EventKind, seen: map<Key, real>, cfg: Config, now: real): ViolationState {
    var v := t.kinds.Get(k);
    if !GatesOpen(t, k, cfg, now) then v
    else if AlreadyEmitted(seen, KeyOf(t, k), now) then v.(pushed := true, posted := true)
    else v.(lastAttempt := now)
  }

  function AfterAsk(t: Track, seen: map<Key, real>, cfg: Config, now: real): Track {
    if !t.final.chosen then t
    else if !ShouldEmitPlate(t.final.emitPlate, cfg.sendMode) then
      if AllSettled(t) then t else MarkAllPosted(t)
    else
      t.(kinds := Table(
           KindAfterAsk(t, Plate, seen, cfg, now),
           KindAfterAsk(t, NoHelmet, seen, cfg, now),
           KindAfterAsk(t, WrongLane, seen, cfg, now),
           KindAfterAsk(t, WrongWay, seen, cfg, now)))
  }

  datatype KindPayload = KindPayload(hits: nat, detail: nat, hasSnapshot: bool)

  const NO_PAYLOAD := KindPayload(0, 0, false)

  datatype ReadyEmit = ReadyEmit(
    trackId: nat,
    ready: KindSet,
    plate: string,
    snapshotKey: string,
    vehicleCls: int,
    createdAt: real,
    firstOcrAt: real,
    finalAt: real,
    recognizeCount: int,
    payload: Table<KindPayload>,
    labels: Table<string>)

  function PayloadOf(t: Track, k: EventKind, ready: KindSet): KindPayload {
    if k in ready
    then KindPayload(t.kinds.Get(k).hits, t.kinds.Get(k).detail, t.kinds.Get(k).hasSnapshot)
    else NO_PAYLOAD
  }

  function LabelOf(t: Track, k: EventKind, ready: KindSet): string {
    if k in ready then t.labels.Get(k) else ""
  }

  function EmitOf(t: Track, ready: KindSet): ReadyEmit {
    ReadyEmit(t.id, ready, t.final.emitPlate, t.final.snapshotKey, VotedClass(t), t.createdAt, t.ocr.firstOcrAt,
              t.final.at, t.ocr.count,
              Table(PayloadOf(t, Plate, ready), PayloadOf(t, NoHelmet, ready), PayloadOf(t, WrongLane, ready),
                    PayloadOf(t, WrongWay, ready)),
              Table(LabelOf(t, Plate, ready), LabelOf(t, NoHelmet, ready), LabelOf(t, WrongLane, ready),
                    LabelOf(t, WrongWay, ready)))
  }

  // ---------------------------------------------------------------------------------------------
  // The recognizer's steps

  ghost function Collect(r: Rec, now: real): Rec {
    r.(tracks := map id | id in r.tracks :: AfterAsk(r.tracks[id], r.dedup.seen, r.cfg, now))
  }

  function ReadyOf(r: Rec, id: nat, now: real): KindSet
    requires id in r.tracks
  {
    ReadyKinds(r.tracks[id], r.dedup.seen, r.cfg, now)
  }

  /** One entry, in increasing track order, for each of the tracks `ids` with a ready kind. */
  ghost predicate ListsReady(r: Rec, ids: set<nat>, now: real, out: seq<ReadyEmit>) {
    && (forall i :: 0 <= i < |out| ==> ListedRight(r, ids, now, out[i]))
    && (forall i, j :: 0 <= i < j < |out| ==> out[i].trackId < out[j].trackId)
    && (forall id :: id in ids && id in r.tracks && ReadyOf(r, id, now) != {} ==>
          exists i :: 0 <= i < |out| && out[i].trackId == id)
  }

  ghost predicate ListedRight(r: Rec, ids: set<nat>, now: real, e: ReadyEmit) {
    && e.trackId in ids
    && e.trackId in r.tracks
    && e.ready == ReadyOf(r, e.trackId, now)
    && e.ready != {}
    && e == EmitOf(r.tracks[e.trackId], e.ready)
  }

  ghost predicate IsReadyList(r: Rec, now: real, out: seq<ReadyEmit>) {
    ListsReady(r, r.tracks.Keys, now, out)
  }

  lemma LongerListNames(out: seq<ReadyEmit>, e: ReadyEmit, x: nat)
    requires e.trackId == x || exists i :: 0 <= i < |out| && out[i].trackId == x
    ensures exists i :: 0 <= i < |out + [e]| && (out + [e])[i].trackId == x
  {
    if e.trackId == x {
      assert (out + [e])[|out|].trackId == x;
    } else {
      var i :| 0 <= i < |out| && out[i].trackId == x;
      assert (out + [e])[i].trackId == x;
    }
  }

  /** The ready list with one more track looked at. */
  function Extended(out: seq<ReadyEmit>, t: Track, ready: KindSet): seq<ReadyEmit> {
    if ready == {} then out else out + [EmitOf(t, ready)]
  }

  lemma ExtendReadyList(r: Rec, ids: set<nat>, id: nat, now: real, out: seq<ReadyEmit>)
    requires ListsReady(r, ids, now, out) && id in r.tracks && r.tracks[id].id == id
    requires forall x :: x in ids ==> x < id
    ensures ListsReady(r, ids + {id}, now, Extended(out, r.tracks[id], ReadyOf(r, id, now)))
  {
    if ReadyOf(r, id, now) != {} {
      var out' := out + [EmitOf(r.tracks[id], ReadyOf(r, id, now))];
      forall x | x in ids + {id} && x in r.tracks && ReadyOf(r, x, now) != {}
        ensures exists i :: 0 <= i < |out'| && out'[i].trackId == x
      {
        LongerListNames(out, EmitOf(r.tracks[id], ReadyOf(r, id, now)), x);
      }
      forall i | 0 <= i < |out'| ensures ListedRight(r, ids + {id}, now, out'[i]) {
        if i < |out| {
          assert ListedRight(r, ids, now, out[i]);
        }
      }
    }
  }

  /** Asking for readiness changes nothing that a ready entry reports. */
  lemma AskKeepsEmit(t: Track, seen: map<Key, real>, cfg: Config, now: real, ready: KindSet)
    ensures EmitOf(AfterAsk(t, seen, cfg, now), ready) == EmitOf(t, ready)
  {
    var t' := AfterAsk(t, seen, cfg, now);
    forall k: EventKind
      ensures PayloadOf(t', k, ready) == PayloadOf(t, k, ready) && LabelOf(t', k, ready) == LabelOf(t, k, ready)
    {
      AskKeepsKind(t, seen, cfg, now, ready, k);
    }
  }

  lemma AskKeepsKind(t: Track, seen: map<Key, real>, cfg: Config, now: real, ready: KindSet, k: EventKind)
    ensures var t' := AfterAsk(t, seen, cfg, now);
            PayloadOf(t', k, ready) == PayloadOf(t, k, ready) && LabelOf(t', k, ready) == LabelOf(t, k, ready)
  {
    match k case Plate => case NoHelmet => case WrongLane => case WrongWay =>
  }

  datatype CommitState = CommitState(track: Track, dedup: Cache, committed: KindSet)

  /** Commit of the first n kinds: each wanted kind that the cache lets through is remembered and marked pushed. */
  function CommitKinds(t: Track, c: Cache, plate: string, kinds: KindSet, now: real, n: nat): CommitState
    requires n <= 4
  {
    if n == 0 then CommitState(t, c, {})
    else
      var prev := CommitKinds(t, c, plate, kinds, now, n - 1);
      var k := ALL_KINDS[n - 1];
      var key := Key(t.id, plate, k);
      if k !in kinds || AlreadyEmitted(prev.dedup.seen, key, now) then prev
      else CommitState(MarkPushed(prev.track, k), Remember(prev.dedup, key, now), prev.committed + {k})
  }

  function Commit(r: Rec, id: nat, plate: string, kinds: KindSet, now: real): (Rec, bool) {
    if kinds == {} || id !in r.tracks then (r, false)
    else
      var s := CommitKinds(r.tracks[id], r.dedup, plate, kinds, now, 4);
      (r.(tracks := r.tracks[id := s.track], dedup := s.dedup), s.committed != {})
  }

  /** Settlement of the first n kinds: done kinds are posted, the other wanted kinds are opened again. */
  function SettleKinds(t: Track, c: Cache, want: KindSet, done: KindSet, n: nat): (Track, Cache)
    requires n <= 4
  {
    if n == 0 then (t, c)
    else
      var (t', c') := SettleKinds(t, c, want, done, n - 1);
      var k := ALL_KINDS[n - 1];
      if k !in want then (t', c')
      else if k in done then (MarkPosted(t', k), c')
      else (UnmarkPushed(t', k), Forget(c', KeyOf(t', k)))
  }

  function Settle(r: Rec, id: nat, want: KindSet, done: KindSet): Rec {
    if id !in r.tracks then r
    else
      var (t, c) := SettleKinds(r.tracks[id], r.dedup, want, done, 4);
      r.(tracks := r.tracks[id := t], dedup := c)
  }

  predicate StaleWrongWay(t: Track, cfg: Config, now: real) {
    var w := t.kinds.wrongWay;
    && cfg.wwWait > 0.0
    && w.hits > 0 && !w.posted
    && w.firstHitAt > 0.0 && now >= w.firstHitAt + cfg.wwWait
  }

  function DropStale(t: Track, cfg: Config, now: real): Track {
    if StaleWrongWay(t, cfg, now) then ClearKind(t, WrongWay) else t
  }

  ghost function ClearStale(r: Rec, now: real): Rec {
    r.(tracks := map id | id in r.tracks :: DropStale(r.tracks[id], r.cfg, now))
  }

  ghost function FinalizeAllMissed(r: Rec, now: real): Rec {
    r.(tracks := map id | id in r.tracks :: TryFinalizeMiss(r.tracks[id], now).0)
  }

  /** The tracks that a miss makes final now. */
  ghost function MissedOut(tracks: map<nat, Track>, now: real): set<nat> {
    set id | id in tracks && TryFinalizeMiss(tracks[id], now).1
  }

  ghost function StaleOnes(r: Rec, now: real): set<nat> {
    set id | id in r.tracks && StaleWrongWay(r.tracks[id], r.cfg, now)
  }

  ghost function Doomed(tracks: map<nat, Track>, now: real): set<nat> {
    set id | id in tracks && ShouldForceDelete(tracks[id], now)
  }

  ghost function Cleanup(r: Rec, now: real): Rec {
    r.(tracks := r.tracks - Doomed(r.tracks, now))
  }

  /** The track after a sighting; a new id gets a new track first. */
  function Sighted(r: Rec, id: nat, now: real): Track {
    if id in r.tracks then r.tracks[id] else NewTrack(id, now, r.cfg.maxTimes, r.cfg.styles)
  }

  function SightingOf(t: Track, cls: int, conf: real, inZone: bool, now: real): (Track, bool) {
    if inZone then
      var t' := OnEnter(t, now);
      (if cls >= 0 then t'.(classes := t'.classes + [(cls, conf)]) else t', false)
    else
      var t' := if t.zone.inPolygon then OnLeave(t, now) else t;
      if !t'.zone.everEntered then (t', false) else TryFinalizeMiss(t', now)
  }

  function ObserveVehicle(r: Rec, id: nat, cls: int, conf: real, inZone: bool, now: real): (Rec, bool) {
    var (t, final) := SightingOf(Sighted(r, id, now), cls, conf, inZone, now);
    (r.(tracks := r.tracks[id := t]), final)
  }

  function ObserveHelmet(r: Rec, id: nat, people: int): Rec {
    if people <= 0 || id !in r.tracks then r else r.(tracks := r.tracks[id := AddHelmet(r.tracks[id], people)])
  }

  function ObserveLane(r: Rec, id: nat, zone: string): Rec {
    if zone == "" || id !in r.tracks || !r.tracks[id].zone.everEntered then r
    else r.(tracks := r.tracks[id := AddWrongLane(r.tracks[id], zone)])
  }

  /** `crossed` is the forbidden line that the motion of this frame crossed. */
  function ObserveWrongWay(r: Rec, id: nat, crossed: string, now: real): Rec {
    if id !in r.tracks then r else r.(tracks := r.tracks[id := AddWrongWay(r.tracks[id], crossed, now)])
  }

  function ObserveReading(r: Rec, id: nat, chars: CharSequence, raw: string, now: real, meanConf: real,
                          sampleArea: real, plateArea: real): (Rec, OcrStatus)
  {
    if id !in r.tracks then (r, Rejected)
    else
      var (t, status) := AddOcr(r.tracks[id], chars, raw, now, meanConf, sampleArea, plateArea);
      (r.(tracks := r.tracks[id := t]), status)
  }

  function TakeSnapshot(r: Rec, id: nat, k: EventKind): Rec {
    if id !in r.tracks then r else r.(tracks := r.tracks[id := MarkSnapshot(r.tracks[id], k)])
  }

  // ---------------------------------------------------------------------------------------------
  // The recognizer object

  lemma LeastOf(s: set<nat>) returns (m: nat)
    requires s != {}
    ensures m in s && forall x :: x in s ==> m <= x
  {
    var e :| e in s;
    var rest := s - {e};
    m := e;
    if rest != {} {
      var n := LeastOf(rest);
      m := if n < e then n else e;
    }
    forall x | x in s ensures m <= x {
      assert x == e || x in rest;
    }
  }

  /** The next key in the order in which the track map is walked. */
  method LowestId(ids: set<nat>) returns (m: nat)
    requires ids != {}
    ensures m in ids && forall x :: x in ids ==> m <= x
  {
    ghost var least := LeastOf(ids);
    m :| m in ids && forall x :: x in ids ==> m <= x;
  }

  /** How many of the ids walked over are in the set. */
  function Hits(walked: seq<nat>, hits: set<nat>): nat {
    if walked == [] then 0
    else Hits(walked[..|walked| - 1], hits) + if walked[|walked| - 1] in hits then 1 else 0
  }

  lemma OneMoreHit(walked: seq<nat>, hits: set<nat>, id: nat)
    ensures Hits(walked + [id], hits) == Hits(walked, hits) + if id in hits then 1 else 0
  {
    assert (walked + [id])[..|walked|] == walked;
  }

  /** The walk goes over each of the ids once. */
  ghost predicate WalksOver(walked: seq<nat>, ids: set<nat>) {
    (forall i, j :: 0 <= i < j < |walked| ==> walked[i] != walked[j]) && forall x :: x in walked <==> x in ids
  }

  lemma WalkOn(walked: seq<nat>, ids: set<nat>, rest: set<nat>, id: nat)
    requires WalksOver(walked, ids - rest) && id in rest && rest <= ids
    ensures WalksOver(walked + [id], ids - (rest - {id}))
  {
  }

  lemma {:induction false} HitsCount(walked: seq<nat>, ids: set<nat>, hits: set<nat>)
    requires WalksOver(walked, ids) && hits <= ids
    ensures Hits(walked, hits) == |hits|
    decreases |walked|
  {
    if walked == [] {
      assert hits == {};
    } else {
      var front, id := walked[..|walked| - 1], walked[|walked| - 1];
      assert walked == front + [id] && id !in front;
      HitsCount(front, ids - {id}, hits - {id});
      SameHits(front, hits, id);
      if id in hits {
        assert hits == (hits - {id}) + {id};
      } else {
        assert hits - {id} == hits;
      }
    }
  }

  lemma {:induction false} SameHits(walked: seq<nat>, hits: set<nat>, id: nat)
    requires id !in walked
    ensures Hits(walked, hits - {id}) == Hits(walked, hits)
  {
    if walked == [] {
    } else {
      SameHits(walked[..|walked| - 1], hits, id);
      assert walked[|walked| - 1] != id;
    }
  }

  lemma SweepStep<T>(m: map<nat, T>, doomed: set<nat>, rest: set<nat>, id: nat)
    requires id in rest
    ensures id in doomed ==> m - (doomed - (rest - {id})) == m - (doomed - rest) - {id}
    ensures id !in doomed ==> m - (doomed - (rest - {id})) == m - (doomed - rest)
  {
    if id !in doomed {
      assert doomed - (rest - {id}) == doomed - rest;
    } else {
      assert doomed - (rest - {id}) == (doomed - rest) + {id};
    }
  }

  lemma VisitStep(all: set<nat>, visited: set<nat>, rest: set<nat>, id: nat)
    requires visited == all - rest && id in rest && rest <= all
    requires forall x, y :: x in visited && y in rest ==> x < y
    requires forall x :: x in rest ==> id <= x
    ensures visited + {id} == all - (rest - {id})
    ensures forall x, y :: x in visited + {id} && y in rest - {id} ==> x < y
  {
  }

  class PlateRecognizer {
    const cfg: Config
    var tracks: map<nat, TrackPlateState>
    const dedup: DedupCache

    ghost function Repr(): set<object>
      reads this
    {
      {dedup} + set id | id in tracks :: tracks[id]
    }

    /** Each track is stored under its own id. */
    ghost predicate Valid()
      reads this
    {
      forall id :: id in tracks ==> tracks[id].id == id
    }

    ghost function View(): Rec
      reads this, Repr()
    {
      Rec(cfg, map id | id in tracks :: tracks[id].View(), dedup.View())
    }

    constructor (maxTimes: int, styles: seq<string>, sendMode: int, settle: real, wait: real)
      ensures Valid() && fresh(Repr())
      ensures View() == Rec(Config(if maxTimes <= 0 then DEFAULT_MAX_RECOGNIZE_TIMES else maxTimes,
                                   if styles == [] then DEFAULT_STYLES else styles, sendMode, 1.0,
                                   MaxReal(0.0, settle), MaxReal(0.0, wait)),
                            map[], Cache(DEDUP_CACHE_SIZE, DEDUP_TTL_S, map[], []))
    {
      cfg := Config(if maxTimes <= 0 then DEFAULT_MAX_RECOGNIZE_TIMES else maxTimes,
                    if styles == [] then DEFAULT_STYLES else styles, sendMode, 1.0,
                    MaxReal(0.0, settle), MaxReal(0.0, wait));
      tracks := map[];
      dedup := new DedupCache(DEDUP_CACHE_SIZE, DEDUP_TTL_S);
    }

    method Sight(state: TrackPlateState, cls: int, conf: real, inZone: bool, now: real) returns (justFinal: bool)
      modifies state
      ensures (state.View(), justFinal) == SightingOf(old(state.View()), cls, conf, inZone, now)
    {
      if inZone {
        state.OnEnterPolygon(now);
        if cls >= 0 {
          state.AddClass(cls, conf);
        }
        return false;
      }
      if state.zone.inPolygon {
        state.OnLeavePolygon(now);
      }
      if !state.zone.everEntered {
        return false;
      }
      justFinal := state.TryFinalizeMissed(now);
    }

    method GetOrCreate(id: nat, now: real) returns (state: TrackPlateState)
      requires Valid()
      modifies this`tracks
      ensures Valid() && tracks == old(tracks)[id := state]
      ensures if id in old(tracks) then state == old(tracks)[id] else fresh(state)
      ensures state.View() == Sighted(old(View()), id, now)
    {
      if id !in tracks {
        state := new TrackPlateState(id, now, cfg.maxTimes, cfg.styles);
        tracks := tracks[id := state];
      } else {
        state := tracks[id];
      }
    }

    method ObserveVehicleAt(id: nat, cls: int, conf: real, inZone: bool, now: real) returns (justFinal: bool)
      requires Valid()
      modifies this, Repr()
      ensures Valid() && fresh(Repr() - old(Repr()))
      ensures (View(), justFinal) == ObserveVehicle(old(View()), id, cls, conf, inZone, now)
    {
      var state := GetOrCreate(id, now);
      justFinal := Sight(state, cls, conf, inZone, now);
      assert View().tracks == old(View()).tracks[id := tracks[id].View()];
    }

    method ObserveHelmetAt(id: nat, people: int)
      requires Valid()
      modifies Repr()
      ensures Valid() && tracks == old(tracks) && View() == ObserveHelmet(old(View()), id, people)
    {
      if people <= 0 || id !in tracks {
        return;
      }
      tracks[id].AddHelmetObservation(people);
      assert View().tracks == old(View()).tracks[id := tracks[id].View()];
    }

    method ObserveLaneAt(id: nat, zone: string)
      requires Valid()
      modifies Repr()
      ensures Valid() && tracks == old(tracks) && View() == ObserveLane(old(View()), id, zone)
    {
      if zone == "" || id !in tracks || !tracks[id].zone.everEntered {
        return;
      }
      tracks[id].AddWrongLaneObservation(zone);
      assert View().tracks == old(View()).tracks[id := tracks[id].View()];
    }

    method ObserveWrongWayAt(id: nat, crossed: string, now: real)
      requires Valid()
      modifies Repr()
      ensures Valid() && tracks == old(tracks) && View() == ObserveWrongWay(old(View()), id, crossed, now)
    {
      if id !in tracks {
        return;
      }
      tracks[id].AddWrongWayObservation(crossed, now);
      assert View().tracks == old(View()).tracks[id := tracks[id].View()];
    }

    method AddOcrReadingAt(id: nat, chars: CharSequence, raw: string, now: real, meanConf: real, sampleArea: real,
                           plateArea: real) returns (status: OcrStatus)
      requires Valid()
      modifies Repr()
      ensures Valid() && tracks == old(tracks)
      ensures (View(), status) == ObserveReading(old(View()), id, chars, raw, now, meanConf, sampleArea, plateArea)
    {
      if id !in tracks {
        return Rejected;
      }
      status := tracks[id].AddOcrReading(chars, raw, now, meanConf, sampleArea, plateArea);
      assert View().tracks == old(View()).tracks[id := tracks[id].View()];
    }

    method MarkSnapshotTaken(id: nat, k: EventKind)
      requires Valid()
      modifies Repr()
      ensures Valid() && tracks == old(tracks) && View() == TakeSnapshot(old(View()), id, k)
    {
      if id !in tracks {
        return;
      }
      var v := tracks[id].kinds.Get(k);
      tracks[id].SetKind(k, v.(needsSnapshot := false, hasSnapshot := true));
      assert View().tracks == old(View()).tracks[id := tracks[id].View()];
    }

    method FinalizeMissed(now: real) returns (n: nat)
      requires Valid()
      modifies Repr()
      ensures Valid() && tracks == old(tracks) && View() == FinalizeAllMissed(old(View()), now)
      ensures n == |MissedOut(old(View()).tracks, now)|
    {
      ghost var hits, walked := MissedOut(View().tracks, now), [];
      n, walked := WalkMissed(now, hits);
      HitsCount(walked, tracks.Keys, hits);
    }

    /** The walk so far: the tracks outside `rest` have had their miss. */
    ghost predicate MissedBeyond(was: Rec, rest: set<nat>, now: real)
      reads this, Repr()
    {
      && was.cfg == cfg && tracks.Keys == was.tracks.Keys && rest <= tracks.Keys && dedup.View() == was.dedup
      && forall id :: id in tracks ==>
           tracks[id].View() == (if id in rest then was.tracks[id] else TryFinalizeMiss(was.tracks[id], now).0)
    }

    method MissNext(rest: set<nat>, now: real, ghost was: Rec) returns (id: nat, done: bool)
      requires Valid() && rest != {} && MissedBeyond(was, rest, now)
      modifies Repr()
      ensures Valid() && tracks == old(tracks) && id in rest && MissedBeyond(was, rest - {id}, now)
      ensures done <==> id in MissedOut(was.tracks, now)
    {
      id := LowestId(rest);
      done := tracks[id].TryFinalizeMissed(now);
    }

    method WalkMissed(now: real, ghost hits: set<nat>) returns (n: nat, ghost walked: seq<nat>)
      requires Valid() && hits == MissedOut(View().tracks, now)
      modifies Repr()
      ensures Valid() && tracks == old(tracks) && View() == FinalizeAllMissed(old(View()), now)
      ensures WalksOver(walked, tracks.Keys) && n == Hits(walked, hits)
    {
      var rest := tracks.Keys;
      ghost var was := View();
      n, walked := 0, [];
      while rest != {}
        invariant Valid() && tracks == old(tracks) && MissedBeyond(was, rest, now)
        invariant WalksOver(walked, tracks.Keys - rest) && n == Hits(walked, hits)
        decreases rest
      {
        var id, done := MissNext(rest, now, was);
        OneMoreHit(walked, hits, id);
        WalkOn(walked, tracks.Keys, rest, id);
        walked := walked + [id];
        if done {
          n := n + 1;
        }
        rest := rest - {id};
      }
      assert tracks.Keys - {} == tracks.Keys;
    }

    method ClearStaleWrongWay(now: real) returns (n: nat)
      requires Valid()
      modifies Repr()
      ensures Valid() && tracks == old(tracks) && View() == ClearStale(old(View()), now)
      ensures n == |StaleOnes(old(View()), now)|
    {
      ghost var hits, walked := StaleOnes(View(), now), [];
      if cfg.wwWait <= 0.0 {
        assert hits == {};
        return 0;
      }
      n, walked := WalkStale(now, hits);
      HitsCount(walked, tracks.Keys, hits);
    }

    /** The walk so far: the tracks outside `rest` have had a stale violation cleared. */
    ghost predicate ClearedBeyond(was: Rec, rest: set<nat>, now: real)
      reads this, Repr()
    {
      && was.cfg == cfg && tracks.Keys == was.tracks.Keys && rest <= tracks.Keys && dedup.View() == was.dedup
      && forall id :: id in tracks ==>
           tracks[id].View() == (if id in rest then was.tracks[id] else DropStale(was.tracks[id], cfg, now))
    }

    method ClearNext(rest: set<nat>, now: real, ghost was: Rec) returns (id: nat, cleared: bool)
      requires Valid() && cfg.wwWait > 0.0 && rest != {} && ClearedBeyond(was, rest, now)
      modifies Repr()
      ensures Valid() && tracks == old(tracks) && id in rest && ClearedBeyond(was, rest - {id}, now)
      ensures cleared <==> id in StaleOnes(was, now)
    {
      id := LowestId(rest);
      cleared := ClearIfStale(tracks[id], now);
    }

    method WalkStale(now: real, ghost hits: set<nat>) returns (n: nat, ghost walked: seq<nat>)
      requires Valid() && cfg.wwWait > 0.0 && hits == StaleOnes(View(), now)
      modifies Repr()
      ensures Valid() && tracks == old(tracks) && View() == ClearStale(old(View()), now)
      ensures WalksOver(walked, tracks.Keys) && n == Hits(walked, hits)
    {
      var rest := tracks.Keys;
      ghost var was := View();
      n, walked := 0, [];
      while rest != {}
        invariant Valid() && tracks == old(tracks) && ClearedBeyond(was, rest, now)
        invariant WalksOver(walked, tracks.Keys - rest) && n == Hits(walked, hits)
        decreases rest
      {
        var id, cleared := ClearNext(rest, now, was);
        OneMoreHit(walked, hits, id);
        WalkOn(walked, tracks.Keys, rest, id);
        walked := walked + [id];
        if cleared {
          n := n + 1;
        }
        rest := rest - {id};
      }
      assert tracks.Keys - {} == tracks.Keys;
    }

    method ClearIfStale(state: TrackPlateState, now: real) returns (cleared: bool)
      requires cfg.wwWait > 0.0
      modifies state
      ensures cleared == StaleWrongWay(old(state.View()), cfg, now)
      ensures state.View() == DropStale(old(state.View()), cfg, now)
    {
      var ww := state.kinds.Get(WrongWay);
      if ww.hits <= 0 || ww.posted {
        return false;
      }
      if ww.firstHitAt <= 0.0 || now < ww.firstHitAt + cfg.wwWait {
        return false;
      }
      state.ResetKind(WrongWay);
      return true;
    }

    /** One round of the readiness loop: the gates of k, then the cache. */
    method AskKind(state: TrackPlateState, k: EventKind, now: real) returns (yes: bool)
      modifies state`kinds
      ensures yes == (GatesOpen(old(state.View()), k, cfg, now)
                      && !AlreadyEmitted(dedup.seen, KeyOf(old(state.View()), k), now))
      ensures state.kinds == old(state.kinds).Set(k, KindAfterAsk(old(state.View()), k, dedup.seen, cfg, now))
    {
      yes := false;
      var ks := state.kinds.Get(k);
      TableExtensional(state.kinds.Set(k, ks), state.kinds);
      if k != Plate && ks.hits <= 0 {
        return;
      }
      if ks.pushed || ks.posted {
        return;
      }
      if k == WrongWay && cfg.wwSettle > 0.0 && ks.pairedAt > 0.0 && now < ks.pairedAt + cfg.wwSettle {
        return;
      }
      if ks.lastAttempt > 0.0 && now - ks.lastAttempt < cfg.retryInterval {
        return;
      }
      var emitted := dedup.CheckEmitted(Key(state.id, state.final.emitPlate, k), now);
      if emitted {
        state.SetKind(k, ks.(pushed := true, posted := true));
        return;
      }
      state.SetKind(k, ks.(lastAttempt := now));
      yes := true;
    }

    method ReadyMask(state: TrackPlateState, now: real) returns (ready: KindSet)
      modifies state
      ensures ready == ReadyKinds(old(state.View()), dedup.seen, cfg, now)
      ensures state.View() == AfterAsk(old(state.View()), dedup.seen, cfg, now)
    {
      ready := {};
      if !state.final.chosen {
        return;
      }
      var plate := state.final.emitPlate;
      if !ShouldEmitPlate(plate, cfg.sendMode) {
        var pending := state.CollectPendingKinds();
        if pending != {} {
          state.MarkEveryKindPosted();
        }
        return;
      }
      ghost var was := state.View();
      for i := 0 to 4
        invariant state.View() == was.(kinds := state.kinds)
        invariant ready == set k | k in FirstKinds(i) && Ready(was, k, dedup.seen, cfg, now)
        invariant forall k: EventKind ::
                    state.kinds.Get(k) == (if k in FirstKinds(i) then KindAfterAsk(was, k, dedup.seen, cfg, now)
                                           else was.kinds.Get(k))
      {
        FirstKindsStep(i);
        var yes := AskKind(state, ALL_KINDS[i], now);
        if yes {
          ready := ready + {ALL_KINDS[i]};
        }
      }
      AllKindsComplete();
      TableExtensional(state.kinds, AfterAsk(was, dedup.seen, cfg, now).kinds);
    }

    method ReadyEntry(state: TrackPlateState, now: real) returns (ready: KindSet, entry: ReadyEmit)
      modifies state
      ensures ready == ReadyKinds(old(state.View()), dedup.seen, cfg, now)
      ensures state.View() == AfterAsk(old(state.View()), dedup.seen, cfg, now)
      ensures entry == EmitOf(old(state.View()), ready)
    {
      AskKeepsEmit(state.View(), dedup.seen, cfg, now, ReadyKinds(state.View(), dedup.seen, cfg, now));
      ready := ReadyMask(state, now);
      var cls := state.VoteClass();
      entry := EmitOf(state.View(), ready).(vehicleCls := cls);
    }

    /** One track of the walk: its entry joins the list if one of its kinds is ready. */
    method AskTrack(id: nat, now: real, out: seq<ReadyEmit>) returns (out': seq<ReadyEmit>)
      requires id in tracks
      modifies tracks[id]
      ensures tracks[id].View() == AfterAsk(old(tracks[id].View()), dedup.seen, cfg, now)
      ensures out' == Extended(out, old(tracks[id].View()), ReadyKinds(old(tracks[id].View()), dedup.seen, cfg, now))
    {
      var ready, entry := ReadyEntry(tracks[id], now);
      out' := if ready == {} then out else out + [entry];
    }

    /** The walk so far has asked the tracks outside `rest`, and `out` lists what was ready among them. */
    ghost predicate Walked(was: Rec, rest: set<nat>, now: real, out: seq<ReadyEmit>)
      reads this, Repr()
    {
      && was.cfg == cfg && tracks.Keys == was.tracks.Keys && rest <= tracks.Keys && dedup.View() == was.dedup
      && (forall x, y :: x in tracks.Keys - rest && y in rest ==> x < y)
      && (forall id :: id in tracks ==>
            tracks[id].View() == (if id in rest then was.tracks[id]
                                  else AfterAsk(was.tracks[id], was.dedup.seen, cfg, now)))
      && ListsReady(was, tracks.Keys - rest, now, out)
    }

    /** One round of the walk, at the lowest track not yet asked. */
    method AskNext(rest: set<nat>, now: real, out: seq<ReadyEmit>, ghost was: Rec) returns (id: nat, out': seq<ReadyEmit>)
      requires Valid() && rest != {} && Walked(was, rest, now, out)
      modifies set id | id in tracks :: tracks[id]
      ensures Valid() && tracks == old(tracks)
      ensures id in rest && Walked(was, rest - {id}, now, out')
    {
      id := LowestId(rest);
      VisitStep(tracks.Keys, tracks.Keys - rest, rest, id);
      ExtendReadyList(was, tracks.Keys - rest, id, now, out);
      out' := AskTrack(id, now, out);
    }

    method CollectReady(now: real) returns (out: seq<ReadyEmit>)
      requires Valid()
      modifies set id | id in tracks :: tracks[id]
      ensures Valid() && tracks == old(tracks)
      ensures View() == Collect(old(View()), now)
      ensures IsReadyList(old(View()), now, out)
    {
      out := [];
      var rest := tracks.Keys;
      ghost var was := View();
      while rest != {}
        invariant tracks == old(tracks) && Walked(was, rest, now, out)
        decreases rest
      {
        var id;
        id, out := AskNext(rest, now, out, was);
        rest := rest - {id};
      }
      assert tracks.Keys - rest == was.tracks.Keys;
    }

    method CommitEmit(id: nat, plate: string, kinds: KindSet, now: real) returns (ok: bool)
      requires Valid()
      modifies Repr()
      ensures Valid() && tracks == old(tracks)
      ensures (View(), ok) == Commit(old(View()), id, plate, kinds, now)
    {
      if kinds == {} || id !in tracks {
        return false;
      }
      var state := tracks[id];
      var committed: KindSet := {};
      for i := 0 to 4
        invariant CommitState(state.View(), dedup.View(), committed)
               == CommitKinds(old(state.View()), old(dedup.View()), plate, kinds, now, i)
        invariant forall j :: j in tracks && j != id ==> tracks[j].View() == old(tracks[j].View())
      {
        var k := ALL_KINDS[i];
        if k !in kinds {
          continue;
        }
        var fresh0 := dedup.TryEmit(Key(id, plate, k), now);
        if !fresh0 {
          continue;
        }
        var v := state.kinds.Get(k);
        state.SetKind(k, v.(pushed := true));
        committed := committed + {k};
      }
      assert View().tracks == old(View()).tracks[id := state.View()];
      return committed != {};
    }

    method SettleKindsOf(id: nat, want: KindSet, done: KindSet)
      requires Valid()
      modifies Repr()
      ensures Valid() && tracks == old(tracks)
      ensures View() == Settle(old(View()), id, want, done)
    {
      if id !in tracks {
        return;
      }
      var state := tracks[id];
      for i := 0 to 4
        invariant (state.View(), dedup.View()) == SettleKinds(old(state.View()), old(dedup.View()), want, done, i)
        invariant forall j :: j in tracks && j != id ==> tracks[j].View() == old(tracks[j].View())
      {
        var k := ALL_KINDS[i];
        if k !in want {
          continue;
        }
        var v := state.kinds.Get(k);
        if k in done {
          state.SetKind(k, v.(pushed := true, posted := true));
          continue;
        }
        state.SetKind(k, v.(pushed := false));
        dedup.ForgetInPlace(Key(id, state.final.emitPlate, k));
      }
      assert View().tracks == old(View()).tracks[id := state.View()];
    }

    method EraseIfDoomed(id: nat, now: real) returns (erased: bool)
      requires Valid() && id in tracks
      modifies this`tracks
      ensures erased == ShouldForceDelete(old(tracks)[id].View(), now)
      ensures tracks == if erased then old(tracks) - {id} else old(tracks)
    {
      erased := tracks[id].CheckForceDelete(now);
      if erased {
        tracks := tracks - {id};
      }
    }

    method CleanupTracks(now: real) returns (n: nat)
      requires Valid()
      modifies this`tracks
      ensures Valid() && tracks == old(tracks) - Doomed(old(View()).tracks, now)
      ensures View() == Cleanup(old(View()), now) && n == |Doomed(old(View()).tracks, now)|
    {
      ghost var doomed, walked := Doomed(View().tracks, now), [];
      n, walked := Sweep(now, doomed);
      HitsCount(walked, old(tracks).Keys, doomed);
    }

    method Sweep(now: real, ghost doomed: set<nat>) returns (n: nat, ghost walked: seq<nat>)
      requires Valid() && doomed == Doomed(View().tracks, now)
      modifies this`tracks
      ensures tracks == old(tracks) - doomed
      ensures WalksOver(walked, old(tracks).Keys) && n == Hits(walked, doomed)
    {
      var rest := tracks.Keys;
      n, walked := 0, [];
      while rest != {}
        invariant rest <= tracks.Keys && tracks == old(tracks) - (doomed - rest)
        invariant WalksOver(walked, old(tracks).Keys - rest) && n == Hits(walked, doomed)
        decreases rest
      {
        var id := LowestId(rest);
        SweepStep(old(tracks), doomed, rest, id);
        OneMoreHit(walked, doomed, id);
        WalkOn(walked, old(tracks).Keys, rest, id);
        walked := walked + [id];
        var erased := EraseIfDoomed(id, now);
        if erased {
          n := n + 1;
        }
        rest := rest - {id};
      }
      assert doomed - rest == doomed && old(tracks).Keys - rest == old(tracks).Keys;
    }
  }
}
