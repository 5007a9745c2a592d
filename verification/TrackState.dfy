/** One tracked vehicle: OCR readings until its plate is final, and four independent event kinds. */
module TrackState {
  import StableSorting
  import opened Kinds
  import opened Rules
  import opened Voting

  const MISS_TRACK_IDLE_S := 1.0
  const FORCE_DELETE_IDLE_S := 10.0
  const FORCE_DELETE_AGE_S := 120.0

  function MaxReal(a: real, b: real): real { if a < b then b else a }

  // ---------------------------------------------------------------------------------------------
  // Snapshot samples: best score per plate text, in key order

  datatype SnapshotScore = SnapshotScore(meanConf: real, area: real)

  datatype CropScore = CropScore(meanConf: real, plateArea: real)

  predicate SnapshotScoreBetter(cand: SnapshotScore, cur: SnapshotScore) {
    if cand.area != cur.area then cand.area > cur.area else cand.meanConf > cur.meanConf
  }

  type Samples = seq<(string, SnapshotScore)>

  function FindSample(s: Samples, key: string): (i: nat)
    ensures i <= |s|
    ensures i < |s| ==> s[i].0 == key
    ensures forall j :: 0 <= j < i ==> s[j].0 != key
  {
    if s == [] || s[0].0 == key then 0 else 1 + FindSample(s[1..], key)
  }

  predicate HasSample(s: Samples, key: string) { FindSample(s, key) < |s| }

  function ScoreOf(s: Samples, key: string): SnapshotScore
    requires HasSample(s, key)
  {
    s[FindSample(s, key)].1
  }

  function InsertSample(s: Samples, key: string, score: SnapshotScore): Samples {
    if s == [] || StableSorting.TextLess(key, s[0].0) then [(key, score)] + s
    else [s[0]] + InsertSample(s[1..], key, score)
  }

  function PutSample(s: Samples, key: string, score: SnapshotScore): Samples {
    var i := FindSample(s, key);
    if i < |s| then s[i := (key, score)] else InsertSample(s, key, score)
  }

  lemma {:induction false} InsertSampleLookup(s: Samples, key: string, score: SnapshotScore, k: string)
    requires !HasSample(s, key)
    ensures HasSample(InsertSample(s, key, score), key) && ScoreOf(InsertSample(s, key, score), key) == score
    ensures k != key ==> HasSample(InsertSample(s, key, score), k) == HasSample(s, k)
    ensures k != key && HasSample(s, k) ==> ScoreOf(InsertSample(s, key, score), k) == ScoreOf(s, k)
  {
    if s == [] || StableSorting.TextLess(key, s[0].0) {
      assert ([(key, score)] + s)[1..] == s;
    } else {
      assert !HasSample(s[1..], key);
      InsertSampleLookup(s[1..], key, score, k);
      var t := [s[0]] + InsertSample(s[1..], key, score);
      assert t[1..] == InsertSample(s[1..], key, score);
    }
  }

  lemma {:induction false} FindSampleUnique(s: Samples, key: string, i: nat)
    requires i < |s| && s[i].0 == key && forall j :: 0 <= j < i ==> s[j].0 != key
    ensures FindSample(s, key) == i
  {
  }

  lemma PutSampleLookup(s: Samples, key: string, score: SnapshotScore, k: string)
    ensures HasSample(PutSample(s, key, score), key) && ScoreOf(PutSample(s, key, score), key) == score
    ensures k != key ==> HasSample(PutSample(s, key, score), k) == HasSample(s, k)
    ensures k != key && HasSample(s, k) ==> ScoreOf(PutSample(s, key, score), k) == ScoreOf(s, k)
  {
    var i := FindSample(s, key);
    if i < |s| {
      var t := s[i := (key, score)];
      FindSampleUnique(t, key, i);
      if k != key {
        var j := FindSample(s, k);
        var j' := FindSample(t, k);
        if j < |s| {
          FindSampleUnique(t, k, j);
        } else {
          assert forall x :: 0 <= x < |t| ==> t[x].0 == s[x].0;
        }
      }
    } else {
      InsertSampleLookup(s, key, score, k);
    }
  }

  predicate IsBlankPlate(plate: string) { plate == "" || plate == EMPTY_PLATE }

  /** The scan of the first `n` samples for the best non-blank key; "" when there is none. */
  function BestNonBlank(s: Samples, n: nat): (key: string)
    requires n <= |s|
    ensures key != "" ==> HasSample(s, key)
  {
    if n == 0 then ""
    else
      var b := BestNonBlank(s, n - 1);
      var key := s[n - 1].0;
      if IsBlankPlate(key) then b
      else if b == "" || SnapshotScoreBetter(ScoreOf(s, key), ScoreOf(s, b)) then key
      else b
  }

  function BestAny(s: Samples, n: nat): (key: string)
    requires n <= |s| && s != []
    ensures HasSample(s, key)
  {
    if n == 0 then s[0].0
    else
      var b := BestAny(s, n - 1);
      var key := s[n - 1].0;
      if SnapshotScoreBetter(ScoreOf(s, key), ScoreOf(s, b)) then key else b
  }

  function PickSnapshotKey(s: Samples, plate: string): string {
    if s == [] then ""
    else if !IsBlankPlate(plate) && HasSample(s, plate) then plate
    else
      var b := BestNonBlank(s, |s|);
      if b != "" then b else BestAny(s, |s|)
  }

  lemma {:induction false} BestNonBlankMaximal(s: Samples, n: nat)
    requires n <= |s|
    ensures var b := BestNonBlank(s, n);
            && (b == "" <==> forall i :: 0 <= i < n ==> IsBlankPlate(s[i].0))
            && (b != "" ==> !IsBlankPlate(b) && HasSample(s, b))
            && (forall i :: b != "" && 0 <= i < n && !IsBlankPlate(s[i].0) ==>
                  !SnapshotScoreBetter(ScoreOf(s, s[i].0), ScoreOf(s, b)))
  {
    if n == 0 {
    } else {
      BestNonBlankMaximal(s, n - 1);
    }
  }

  lemma {:induction false} BestAnyMaximal(s: Samples, n: nat)
    requires n <= |s| && s != []
    ensures forall i :: 0 <= i < n ==> !SnapshotScoreBetter(ScoreOf(s, s[i].0), ScoreOf(s, BestAny(s, n)))
  {
    if n == 0 {
    } else {
      BestAnyMaximal(s, n - 1);
    }
  }

  /** The chosen snapshot belongs to the final plate if that text was sampled and is not blank; else it is a
      best-scored sample among the non-blank ones; else a best-scored sample of all. */
  lemma SnapshotKeyIsBest(s: Samples, plate: string)
    requires s != []
    ensures var key := PickSnapshotKey(s, plate);
            && HasSample(s, key)
            && (!IsBlankPlate(plate) && HasSample(s, plate) ==> key == plate)
            && (IsBlankPlate(plate) || !HasSample(s, plate) ==>
                  var nonBlank := exists i :: 0 <= i < |s| && !IsBlankPlate(s[i].0);
                  && (nonBlank ==> !IsBlankPlate(key))
                  && forall i :: 0 <= i < |s| && (nonBlank ==> !IsBlankPlate(s[i].0)) ==>
                       !SnapshotScoreBetter(ScoreOf(s, s[i].0), ScoreOf(s, key)))
  {
    BestNonBlankMaximal(s, |s|);
    BestAnyMaximal(s, |s|);
  }

  // ---------------------------------------------------------------------------------------------
  // The value of a track and its transitions

  /** Where the track is with respect to the plate polygon. */
  datatype Zone = Zone(inPolygon: bool, everEntered: bool, lastInZoneAt: real)

  /** What OCR collected so far. */
  datatype OcrLog = OcrLog(
    count: int,
    readings: seq<CharSequence>,
    numbers: seq<string>,
    firstOcrAt: real,
    maxArea: real,
    samples: Samples,
    lastCrop: CropScore)

  /** The final plate, once chosen. */
  datatype FinalPlate = FinalPlate(chosen: bool, plate: string, emitPlate: string, at: real, snapshotKey: string)

  datatype Track = Track(
    id: nat,
    maxTimes: int,
    styles: seq<string>,
    createdAt: real,
    zone: Zone,
    ocr: OcrLog,
    final: FinalPlate,
    classes: seq<(int, real)>,
    kinds: Table<ViolationState>,
    labels: Table<string>)

  const NO_OCR := OcrLog(0, [], [], 0.0, 0.0, [], CropScore(0.0, 0.0))
  const NO_PLATE := FinalPlate(false, "", "", 0.0, "")

  function NewTrack(id: nat, createdAt: real, maxTimes: int, styles: seq<string>): Track {
    Track(id, maxTimes, styles, createdAt, Zone(false, false, 0.0), NO_OCR, NO_PLATE, [],
          Uniform(FRESH_KIND), Uniform(""))
  }

  datatype OcrStatus = Rejected | Recognized | BestSnapshot | Finalized | FinalizedBestSnapshot

  function OnEnter(t: Track, now: real): Track {
    t.(zone := Zone(true, true, now))
  }

  function OnLeave(t: Track, now: real): Track {
    t.(zone := t.zone.(inPolygon := false, lastInZoneAt := now))
  }

  predicate CanOcr(t: Track) {
    && t.zone.inPolygon
    && !t.final.chosen
    && t.ocr.count < (if t.maxTimes < 2 * t.maxTimes then 2 * t.maxTimes else t.maxTimes)
  }

  function IdleOutOfZone(zone: Zone, now: real): real {
    if zone.inPolygon then 0.0 else MaxReal(0.0, now - zone.lastInZoneAt)
  }

  function SetPaired(v: ViolationState, now: real): ViolationState {
    if v.pairedAt <= 0.0 then v.(pairedAt := now) else v
  }

  function Chosen(ocr: OcrLog, styles: seq<string>, before: FinalPlate, now: real): FinalPlate {
    var plate := SelectBestPlate(ocr.readings, styles);
    FinalPlate(true, plate, NormalizePlateForEmit(plate, styles), if now > 0.0 then now else before.at,
               PickSnapshotKey(ocr.samples, plate))
  }

  /** The track with plate f: from now on a wrong-way violation is paired with it. */
  function Closed(t: Track, f: FinalPlate, now: real): Track {
    var way := t.kinds.Get(WrongWay);
    t.(final := f, kinds := if way.hits > 0 && now > 0.0 then t.kinds.Set(WrongWay, SetPaired(way, now)) else t.kinds)
  }

  function Finalize(t: Track, now: real): Track
    requires !t.final.chosen && t.ocr.readings != []
  {
    Closed(t, Chosen(t.ocr, t.styles, t.final, now), now)
  }

  function TryFinalizeMiss(t: Track, now: real): (Track, bool) {
    if t.final.chosen || t.zone.inPolygon || IdleOutOfZone(t.zone, now) <= MISS_TRACK_IDLE_S || t.ocr.readings == []
    then (t, false)
    else (Finalize(t, now), true)
  }

  function UpperSequence(chars: CharSequence): CharSequence {
    if chars == [] then []
    else UpperSequence(chars[..|chars| - 1]) +
         [CharReading(ToUpper(chars[|chars| - 1].text), chars[|chars| - 1].confidence)]
  }

  function Candidate(chars: CharSequence, meanConf: real, sampleArea: real): SnapshotScore
    requires chars != []
  {
    SnapshotScore(if meanConf > 0.0 then meanConf else SumConf(chars) / |chars| as real, MaxReal(0.0, sampleArea))
  }

  predicate BetterSample(samples: Samples, key: string, cand: SnapshotScore) {
    !HasSample(samples, key) || SnapshotScoreBetter(cand, ScoreOf(samples, key))
  }

  /** The bookkeeping of an accepted reading, before the decision to finalise. */
  function Record(o: OcrLog, chars: CharSequence, raw: string, now: real, meanConf: real, sampleArea: real,
                  plateArea: real): OcrLog
    requires chars != []
  {
    var key := ToUpper(raw);
    var cand := Candidate(chars, meanConf, sampleArea);
    OcrLog(
      o.count + 1,
      o.readings + [UpperSequence(chars)],
      o.numbers + [key],
      if o.firstOcrAt <= 0.0 && now > 0.0 then now else o.firstOcrAt,
      MaxReal(o.maxArea, cand.area),
      if BetterSample(o.samples, key, cand) then PutSample(o.samples, key, cand) else o.samples,
      CropScore(cand.meanConf, MaxReal(0.0, plateArea)))
  }

  /** The vehicle is still coming closer: its area beats the largest one so far by more than 5%. */
  predicate AreaGrew(o: OcrLog, cand: SnapshotScore) {
    o.maxArea > 0.0 && cand.area > o.maxArea * 1.05
  }

  function AddOcr(t: Track, chars: CharSequence, raw: string, now: real, meanConf: real, sampleArea: real,
                  plateArea: real): (Track, OcrStatus)
  {
    if !CanOcr(t) || chars == [] then (t, Rejected)
    else
      var cand := Candidate(chars, meanConf, sampleArea);
      var better := BetterSample(t.ocr.samples, ToUpper(raw), cand);
      var t' := t.(ocr := Record(t.ocr, chars, raw, now, meanConf, sampleArea, plateArea));
      if t'.ocr.count >= t.maxTimes && (!AreaGrew(t.ocr, cand) || t'.ocr.count >= t.maxTimes * 2) then
        (Finalize(t', now), if better then FinalizedBestSnapshot else Finalized)
      else (t', if better then BestSnapshot else Recognized)
  }

  function KindHit(v: ViolationState, now: real, detail: nat): ViolationState {
    v.(hits := v.hits + 1,
       detail := if detail > v.detail then detail else v.detail,
       firstHitAt := if v.firstHitAt <= 0.0 && now > 0.0 then now else v.firstHitAt,
       needsSnapshot := if !v.hasSnapshot then true else v.needsSnapshot)
  }

  function AddKindHit(t: Track, k: EventKind, now: real, detail: nat, tag: string): Track {
    t.(kinds := t.kinds.Set(k, KindHit(t.kinds.Get(k), now, detail)),
       labels := if t.labels.Get(k) == "" && tag != "" then t.labels.Set(k, tag) else t.labels)
  }

  function AddHelmet(t: Track, people: int): Track {
    if people <= 0 then t
    else
      var v := t.kinds.Get(NoHelmet);
      t.(kinds := t.kinds.Set(NoHelmet, v.(hits := v.hits + 1, detail := if people > v.detail then people else v.detail)))
  }

  function AddWrongLane(t: Track, zone: string): Track {
    AddKindHit(t, WrongLane, 0.0, 0, zone)
  }

  function AddWrongWay(t: Track, line: string, now: real): Track {
    var t' := AddKindHit(t, WrongWay, now, 0, line);
    if t.final.chosen && now > 0.0 then
      t'.(kinds := t'.kinds.Set(WrongWay, SetPaired(t'.kinds.Get(WrongWay), now)))
    else t'
  }

  function WithKind(t: Track, k: EventKind, v: ViolationState): Track {
    t.(kinds := t.kinds.Set(k, v))
  }

  function MarkPushed(t: Track, k: EventKind): Track {
    WithKind(t, k, t.kinds.Get(k).(pushed := true))
  }

  function MarkPosted(t: Track, k: EventKind): Track {
    WithKind(t, k, t.kinds.Get(k).(pushed := true, posted := true))
  }

  function UnmarkPushed(t: Track, k: EventKind): Track {
    WithKind(t, k, t.kinds.Get(k).(pushed := false))
  }

  function MarkAllPosted(t: Track): Track {
    MarkPosted(MarkPosted(MarkPosted(MarkPosted(t, Plate), NoHelmet), WrongLane), WrongWay)
  }

  function ClearKind(t: Track, k: EventKind): Track {
    t.(kinds := t.kinds.Set(k, FRESH_KIND), labels := t.labels.Set(k, ""))
  }

  function MarkSnapshot(t: Track, k: EventKind): Track {
    WithKind(t, k, t.kinds.Get(k).(needsSnapshot := false, hasSnapshot := true))
  }

  predicate Active(t: Track, k: EventKind) {
    if k == Plate then t.final.chosen else t.kinds.Get(k).hits > 0
  }

  function ActiveKinds(t: Track): KindSet {
    set k | k in {Plate, NoHelmet, WrongLane, WrongWay} && Active(t, k)
  }

  function PendingKinds(t: Track): KindSet {
    set k | k in ActiveKinds(t) && !t.kinds.Get(k).posted
  }

  predicate AllSettled(t: Track) { PendingKinds(t) == {} }

  predicate ShouldForceDelete(t: Track, now: real) {
    || (t.final.chosen && AllSettled(t))
    || (!t.zone.inPolygon && IdleOutOfZone(t.zone, now) > FORCE_DELETE_IDLE_S)
    || MaxReal(0.0, now - t.createdAt) > FORCE_DELETE_AGE_S
  }

  function VotedClass(t: Track): int {
    if t.classes == [] then -1 else Winner(t.classes)
  }

  // ---------------------------------------------------------------------------------------------
  // The track object

  class TrackPlateState {
    const id: nat
    const maxTimes: int
    const styles: seq<string>
    const createdAt: real
    var zone: Zone
    var ocr: OcrLog
    var final: FinalPlate
    var classes: seq<(int, real)>
    var kinds: Table<ViolationState>
    var labels: Table<string>

    function View(): Track
      reads this
    {
      Track(id, maxTimes, styles, createdAt, zone, ocr, final, classes, kinds, labels)
    }

    constructor (id: nat, createdAt: real, maxTimes: int, styles: seq<string>)
      ensures View() == NewTrack(id, createdAt, maxTimes, styles)
    {
      this.id, this.maxTimes, this.styles, this.createdAt := id, maxTimes, styles, createdAt;
      zone, ocr, final, classes := Zone(false, false, 0.0), NO_OCR, NO_PLATE, [];
      kinds, labels := Uniform(FRESH_KIND), Uniform("");
    }

    method OnEnterPolygon(now: real)
      modifies this`zone
      ensures View() == OnEnter(old(View()), now)
    {
      zone := zone.(inPolygon := true, everEntered := true);
      zone := zone.(lastInZoneAt := now);
    }

    method OnLeavePolygon(now: real)
      modifies this`zone
      ensures View() == OnLeave(old(View()), now)
    {
      zone := zone.(inPolygon := false);
      zone := zone.(lastInZoneAt := now);
    }

    method AddClass(cls: int, conf: real)
      modifies this`classes
      ensures View() == old(View()).(classes := old(classes) + [(cls, conf)])
    {
      classes := classes + [(cls, conf)];
    }

    method PickBestSnapshotKey()
      modifies this`final
      ensures final == old(final).(snapshotKey := PickSnapshotKey(ocr.samples, old(final).plate))
    {
      var samples := ocr.samples;
      if samples == [] {
        final := final.(snapshotKey := "");
        return;
      }
      if !IsBlankPlate(final.plate) {
        var i := FindSample(samples, final.plate);
        if i < |samples| {
          final := final.(snapshotKey := samples[i].0);
          return;
        }
      }
      var best := "";
      for i := 0 to |samples|
        invariant best == BestNonBlank(samples, i)
      {
        var key := samples[i].0;
        if !IsBlankPlate(key) {
          if best == "" || SnapshotScoreBetter(ScoreOf(samples, key), ScoreOf(samples, best)) {
            best := key;
          }
        }
      }
      if best != "" {
        final := final.(snapshotKey := best);
        return;
      }
      best := samples[0].0;
      for i := 0 to |samples|
        invariant best == BestAny(samples, i)
      {
        if SnapshotScoreBetter(ScoreOf(samples, samples[i].0), ScoreOf(samples, best)) {
          best := samples[i].0;
        }
      }
      final := final.(snapshotKey := best);
    }

    method FinalizePlate(now: real) returns (ok: bool)
      modifies this`final, this`kinds
      ensures ok == (!old(final).chosen && old(ocr).readings != [])
      ensures View() == if ok then Finalize(old(View()), now) else old(View())
    {
      if final.chosen {
        return false;
      }
      if ocr.readings == [] {
        return false;
      }
      var best := SelectBest(ocr.readings, styles);
      final := final.(plate := best, chosen := true);
      final := final.(emitPlate := NormalizePlateForEmit(final.plate, styles));
      if now > 0.0 {
        final := final.(at := now);
      }
      if kinds.Get(WrongWay).hits > 0 && now > 0.0 {
        kinds := kinds.Set(WrongWay, SetPaired(kinds.Get(WrongWay), now));
      }
      PickBestSnapshotKey();
      return true;
    }

    method TryFinalizeMissed(now: real) returns (ok: bool)
      modifies this`final, this`kinds
      ensures (View(), ok) == TryFinalizeMiss(old(View()), now)
    {
      if final.chosen || zone.inPolygon {
        return false;
      }
      if IdleOutOfZone(zone, now) <= MISS_TRACK_IDLE_S {
        return false;
      }
      ok := FinalizePlate(now);
    }

    method UpperCased(chars: CharSequence) returns (upper: CharSequence, confSum: real)
      ensures upper == UpperSequence(chars) && confSum == SumConf(chars)
    {
      upper, confSum := [], 0.0;
      for i := 0 to |chars|
        invariant upper == UpperSequence(chars[..i]) && confSum == SumConf(chars[..i])
      {
        assert chars[..i + 1][..i] == chars[..i];
        upper := upper + [CharReading(ToUpper(chars[i].text), chars[i].confidence)];
        confSum := confSum + chars[i].confidence;
      }
      assert chars[..|chars|] == chars;
    }

    method RecordReading(chars: CharSequence, raw: string, now: real, meanConf: real, sampleArea: real, plateArea: real)
      returns (better: bool, grew: bool)
      requires chars != []
      modifies this`ocr
      ensures better == BetterSample(old(ocr).samples, ToUpper(raw), Candidate(chars, meanConf, sampleArea))
      ensures grew == AreaGrew(old(ocr), Candidate(chars, meanConf, sampleArea))
      ensures ocr == Record(old(ocr), chars, raw, now, meanConf, sampleArea, plateArea)
    {
      var upper, confSum := UpperCased(chars);
      var key := ToUpper(raw);
      ocr := ocr.(readings := ocr.readings + [upper]);
      ocr := ocr.(numbers := ocr.numbers + [key]);
      ocr := ocr.(count := ocr.count + 1);
      if ocr.firstOcrAt <= 0.0 && now > 0.0 {
        ocr := ocr.(firstOcrAt := now);
      }
      var cand := SnapshotScore(if meanConf > 0.0 then meanConf else confSum / |chars| as real, MaxReal(0.0, sampleArea));
      grew := ocr.maxArea > 0.0 && cand.area > ocr.maxArea * 1.05;
      ocr := ocr.(maxArea := MaxReal(ocr.maxArea, cand.area));
      better := false;
      if !HasSample(ocr.samples, key) || SnapshotScoreBetter(cand, ScoreOf(ocr.samples, key)) {
        ocr := ocr.(samples := PutSample(ocr.samples, key, cand));
        better := true;
      }
      ocr := ocr.(lastCrop := CropScore(cand.meanConf, MaxReal(0.0, plateArea)));
    }

    method AddOcrReading(chars: CharSequence, raw: string, now: real, meanConf: real, sampleArea: real, plateArea: real)
      returns (status: OcrStatus)
      modifies this`ocr, this`final, this`kinds
      ensures (View(), status) == AddOcr(old(View()), chars, raw, now, meanConf, sampleArea, plateArea)
    {
      if !CanOcr(View()) {
        return Rejected;
      }
      if chars == [] {
        return Rejected;
      }
      var better, grew := RecordReading(chars, raw, now, meanConf, sampleArea, plateArea);
      var hardCap := ocr.count >= maxTimes * 2;
      if ocr.count >= maxTimes && (!grew || hardCap) {
        var done := FinalizePlate(now);
        if done {
          return if better then FinalizedBestSnapshot else Finalized;
        }
      }
      return if better then BestSnapshot else Recognized;
    }

    method RecordKindHit(k: EventKind, now: real, detail: nat, tag: string)
      modifies this`kinds, this`labels
      ensures kinds == old(kinds).Set(k, KindHit(old(kinds).Get(k), now, detail))
      ensures labels == if old(labels).Get(k) == "" && tag != "" then old(labels).Set(k, tag) else old(labels)
    {
      var v := kinds.Get(k);
      v := v.(hits := v.hits + 1);
      if detail > v.detail {
        v := v.(detail := detail);
      }
      if v.firstHitAt <= 0.0 && now > 0.0 {
        v := v.(firstHitAt := now);
      }
      if !v.hasSnapshot {
        v := v.(needsSnapshot := true);
      }
      assert v == KindHit(kinds.Get(k), now, detail);
      kinds := kinds.Set(k, v);
      if labels.Get(k) == "" && tag != "" {
        labels := labels.Set(k, tag);
      }
    }

    method AddHelmetObservation(people: int)
      modifies this
      ensures View() == AddHelmet(old(View()), people)
    {
      if people <= 0 {
        return;
      }
      var v := kinds.Get(NoHelmet);
      v := v.(hits := v.hits + 1);
      if people > v.detail {
        v := v.(detail := people);
      }
      kinds := kinds.Set(NoHelmet, v);
    }

    method AddWrongLaneObservation(zone: string)
      modifies this
      ensures View() == AddWrongLane(old(View()), zone)
    {
      RecordKindHit(WrongLane, 0.0, 0, zone);
    }

    method AddWrongWayObservation(line: string, now: real)
      modifies this
      ensures View() == AddWrongWay(old(View()), line, now)
    {
      RecordKindHit(WrongWay, now, 0, line);
      if final.chosen && now > 0.0 {
        kinds := kinds.Set(WrongWay, SetPaired(kinds.Get(WrongWay), now));
      }
    }

    method SetKind(k: EventKind, v: ViolationState)
      modifies this`kinds
      ensures View() == WithKind(old(View()), k, v)
    {
      kinds := kinds.Set(k, v);
    }

    method MarkEveryKindPosted()
      modifies this`kinds
      ensures View() == MarkAllPosted(old(View()))
    {
      for i := 0 to 4
        invariant forall k: EventKind ::
                    kinds.Get(k) == (if k in FirstKinds(i) then old(kinds).Get(k).(pushed := true, posted := true)
                                     else old(kinds).Get(k))
        invariant View() == old(View()).(kinds := kinds)
      {
        FirstKindsStep(i);
        var k := ALL_KINDS[i];
        kinds := kinds.Set(k, kinds.Get(k).(pushed := true, posted := true));
      }
      AllKindsComplete();
      TableExtensional(kinds, MarkAllPosted(old(View())).kinds);
    }

    method ResetKind(k: EventKind)
      modifies this
      ensures View() == ClearKind(old(View()), k)
    {
      kinds := kinds.Set(k, FRESH_KIND);
      labels := labels.Set(k, "");
    }

    method CollectActiveKinds() returns (m: KindSet)
      ensures m == ActiveKinds(View())
    {
      m := if final.chosen then {Plate} else {};
      if kinds.Get(NoHelmet).hits > 0 { m := m + {NoHelmet}; }
      if kinds.Get(WrongLane).hits > 0 { m := m + {WrongLane}; }
      if kinds.Get(WrongWay).hits > 0 { m := m + {WrongWay}; }
    }

    method CollectPendingKinds() returns (m: KindSet)
      ensures m == PendingKinds(View())
    {
      m := CollectActiveKinds();
      for i := 0 to 4
        invariant m == set k | k in ActiveKinds(View()) && !(k in FirstKinds(i) && kinds.Get(k).posted)
      {
        FirstKindsStep(i);
        if kinds.Get(ALL_KINDS[i]).posted {
          m := m - {ALL_KINDS[i]};
        }
      }
      AllKindsComplete();
    }

    method CheckForceDelete(now: real) returns (doomed: bool)
      ensures doomed == ShouldForceDelete(View(), now)
    {
      var pending := CollectPendingKinds();
      if final.chosen && pending == {} {
        return true;
      }
      var idle := IdleOutOfZone(zone, now);
      if !zone.inPolygon && idle > FORCE_DELETE_IDLE_S {
        return true;
      }
      return MaxReal(0.0, now - createdAt) > FORCE_DELETE_AGE_S;
    }

    method VoteClass() returns (cls: int)
      ensures cls == VotedClass(View())
    {
      if classes == [] {
        return -1;
      }
      cls := Vote(classes);
    }
  }
}
