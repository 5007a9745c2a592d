/** What holds of a track over every sequence of observations and flag changes. */
module TrackLifecycle {
  import opened Kinds
  import opened Rules
  import opened TrackState

  /** Everything that can happen to a track, as the recognizer drives it. */
  datatype TrackOp =
    | Enter
    | Leave
    | Missed
    | Ocr(chars: CharSequence, raw: string, meanConf: real, sampleArea: real, plateArea: real)
    | Class(cls: int, conf: real)
    | Helmet(people: int)
    | Lane(zone: string)
    | Way(line: string)
    | Push(k: EventKind)
    | Unpush(k: EventKind)
    | Post(k: EventKind)
    | PostAll
    | Attempt(k: EventKind)
    | Snapshot(k: EventKind)
    | ClearWay

  function Apply(t: Track, op: TrackOp, now: real): Track {
    match op
    case Enter => OnEnter(t, now)
    case Leave => OnLeave(t, now)
    case Missed => TryFinalizeMiss(t, now).0
    case Ocr(chars, raw, meanConf, sampleArea, plateArea) =>
      AddOcr(t, chars, raw, now, meanConf, sampleArea, plateArea).0
    case Class(cls, conf) => t.(classes := t.classes + [(cls, conf)])
    case Helmet(people) => AddHelmet(t, people)
    case Lane(zone) => AddWrongLane(t, zone)
    case Way(line) => AddWrongWay(t, line, now)
    case Push(k) => MarkPushed(t, k)
    case Unpush(k) => UnmarkPushed(t, k)
    case Post(k) => MarkPosted(t, k)
    case PostAll => MarkAllPosted(t)
    case Attempt(k) => WithKind(t, k, t.kinds.Get(k).(lastAttempt := now))
    case Snapshot(k) => MarkSnapshot(t, k)
    case ClearWay => ClearKind(t, WrongWay)
  }

  /** The accepted readings as (plate text, score), in order. */
  type History = seq<(string, SnapshotScore)>

  function Log(t: Track, hist: History, op: TrackOp): History {
    if op.Ocr? && CanOcr(t) && op.chars != [] then
      hist + [(ToUpper(op.raw), Candidate(op.chars, op.meanConf, op.sampleArea))]
    else hist
  }

  ghost predicate Logged(hist: History, key: string) {
    exists i :: 0 <= i < |hist| && hist[i].0 == key
  }

  /** The best score ever logged for `key`: it was logged, and nothing logged for the key is better. */
  ghost predicate IsBestScore(hist: History, key: string, score: SnapshotScore) {
    && (exists i :: 0 <= i < |hist| && hist[i] == (key, score))
    && (forall i :: 0 <= i < |hist| && hist[i].0 == key ==> !SnapshotScoreBetter(hist[i].1, score))
  }

  ghost predicate SamplesAreBest(samples: Samples, hist: History) {
    forall key :: (HasSample(samples, key) <==> Logged(hist, key))
               && (HasSample(samples, key) ==> IsBestScore(hist, key, ScoreOf(samples, key)))
  }

  /** Reading counts; while the plate is open fewer than 2N readings, never more than 2N. */
  ghost predicate CountsOk(t: Track) {
    && t.maxTimes > 0
    && t.ocr.count == |t.ocr.readings| == |t.ocr.numbers|
    && t.ocr.count <= 2 * t.maxTimes
    && (!t.final.chosen ==> t.ocr.count < 2 * t.maxTimes)
  }

  /** The final plate is the one selected from exactly the stored readings. */
  ghost predicate FinalOk(t: Track) {
    t.final.chosen ==>
      && t.ocr.readings != []
      && t.final.plate == SelectBestPlate(t.ocr.readings, t.styles)
      && t.final.emitPlate == NormalizePlateForEmit(t.final.plate, t.styles)
      && t.final.snapshotKey == PickSnapshotKey(t.ocr.samples, t.final.plate)
  }

  /** The wrong-way rendezvous time is set exactly when both sides are there, to the later of their times. */
  ghost predicate PairedOk(t: Track, clock: real) {
    var w := t.kinds.wrongWay;
    && (t.final.chosen ==> 0.0 < t.final.at <= clock)
    && (if w.hits > 0 then 0.0 < w.firstHitAt <= clock else w.firstHitAt == 0.0)
    && w.pairedAt == (if t.final.chosen && w.hits > 0 then MaxReal(t.final.at, w.firstHitAt) else 0.0)
  }

  ghost predicate LifeInv(t: Track, hist: History, clock: real) {
    && CountsOk(t)
    && SamplesAreBest(t.ocr.samples, hist)
    && FinalOk(t)
    && PairedOk(t, clock)
  }

  lemma NewTrackInv(id: nat, createdAt: real, maxTimes: int, styles: seq<string>, clock: real)
    requires maxTimes > 0
    ensures LifeInv(NewTrack(id, createdAt, maxTimes, styles), [], clock)
  {
  }

  lemma LoggedAppend(hist: History, e: (string, SnapshotScore), key: string)
    ensures Logged(hist + [e], key) <==> Logged(hist, key) || e.0 == key
  {
    if Logged(hist, key) {
      var i :| 0 <= i < |hist| && hist[i].0 == key;
      assert (hist + [e])[i].0 == key;
    }
    assert (hist + [e])[|hist|] == e;
  }

  lemma BestScoreAppend(hist: History, e: (string, SnapshotScore), key: string, score: SnapshotScore)
    requires IsBestScore(hist, key, score)
    ensures e.0 != key || !SnapshotScoreBetter(e.1, score) ==> IsBestScore(hist + [e], key, score)
    ensures e.0 == key && SnapshotScoreBetter(e.1, score) ==> IsBestScore(hist + [e], key, e.1)
  {
    var i :| 0 <= i < |hist| && hist[i] == (key, score);
    assert (hist + [e])[i] == (key, score);
    assert (hist + [e])[|hist|] == e;
  }

  lemma FirstScore(hist: History, e: (string, SnapshotScore))
    requires !Logged(hist, e.0)
    ensures IsBestScore(hist + [e], e.0, e.1)
  {
    assert (hist + [e])[|hist|] == e;
  }

  lemma RecordKeepsSamples(o: OcrLog, hist: History, chars: CharSequence, raw: string, now: real, meanConf: real,
                           sampleArea: real, plateArea: real)
    requires chars != [] && SamplesAreBest(o.samples, hist)
    ensures SamplesAreBest(Record(o, chars, raw, now, meanConf, sampleArea, plateArea).samples,
                           hist + [(ToUpper(raw), Candidate(chars, meanConf, sampleArea))])
  {
    var e := (ToUpper(raw), Candidate(chars, meanConf, sampleArea));
    var samples := Record(o, chars, raw, now, meanConf, sampleArea, plateArea).samples;
    forall key
      ensures HasSample(samples, key) <==> Logged(hist + [e], key)
      ensures HasSample(samples, key) ==> IsBestScore(hist + [e], key, ScoreOf(samples, key))
    {
      LoggedAppend(hist, e, key);
      PutSampleLookup(o.samples, e.0, e.1, key);
      if HasSample(o.samples, key) {
        BestScoreAppend(hist, e, key, ScoreOf(o.samples, key));
      } else if key == e.0 {
        FirstScore(hist, e);
      }
    }
  }

  /** Only an accepted reading touches the OCR log. */
  lemma OcrLogAfter(t: Track, op: TrackOp, now: real)
    ensures Apply(t, op, now).ocr ==
              if op.Ocr? && CanOcr(t) && op.chars != []
              then Record(t.ocr, op.chars, op.raw, now, op.meanConf, op.sampleArea, op.plateArea)
              else t.ocr
    ensures Apply(t, op, now).styles == t.styles && Apply(t, op, now).maxTimes == t.maxTimes
  {
  }

  /** Only a miss or an accepted reading can choose the plate, and only once. */
  lemma FinalAfter(t: Track, op: TrackOp, now: real)
    ensures var t' := Apply(t, op, now);
            || t'.final == t.final
            || (!t.final.chosen && t'.ocr.readings != [] && t'.final == Chosen(t'.ocr, t.styles, t.final, now))
    ensures !Apply(t, op, now).final.chosen && op.Ocr? && CanOcr(t) && op.chars != [] ==>
              Apply(t, op, now).ocr.count < 2 * t.maxTimes || Apply(t, op, now).ocr.count < t.maxTimes
  {
  }

  lemma StepKeepsCounts(t: Track, op: TrackOp, now: real)
    requires CountsOk(t)
    ensures CountsOk(Apply(t, op, now))
  {
    OcrLogAfter(t, op, now);
    FinalAfter(t, op, now);
  }

  lemma StepKeepsSamples(t: Track, hist: History, op: TrackOp, now: real)
    requires SamplesAreBest(t.ocr.samples, hist)
    ensures SamplesAreBest(Apply(t, op, now).ocr.samples, Log(t, hist, op))
  {
    OcrLogAfter(t, op, now);
    if op.Ocr? && CanOcr(t) && op.chars != [] {
      RecordKeepsSamples(t.ocr, hist, op.chars, op.raw, now, op.meanConf, op.sampleArea, op.plateArea);
    }
  }

  lemma StepKeepsFinal(t: Track, op: TrackOp, now: real)
    requires FinalOk(t)
    ensures FinalOk(Apply(t, op, now))
  {
    OcrLogAfter(t, op, now);
    FinalAfter(t, op, now);
  }

  lemma FinalizeKeepsPaired(t: Track, now: real)
    requires PairedOk(t, now) && !t.final.chosen && t.ocr.readings != [] && 0.0 < now
    ensures PairedOk(Finalize(t, now), now)
  {
    assert Chosen(t.ocr, t.styles, t.final, now).at == now;
  }

  lemma StepKeepsPaired(t: Track, op: TrackOp, before: real, now: real)
    requires PairedOk(t, before) && 0.0 < now && before <= now
    ensures PairedOk(Apply(t, op, now), now)
  {
    assert PairedOk(t, now);
    match op
    case Missed =>
      if !t.final.chosen && t.ocr.readings != [] {
        FinalizeKeepsPaired(t, now);
      }
    case Ocr(chars, raw, meanConf, sampleArea, plateArea) =>
      if CanOcr(t) && chars != [] {
        FinalizeKeepsPaired(t.(ocr := Record(t.ocr, chars, raw, now, meanConf, sampleArea, plateArea)), now);
      }
    case _ =>
  }

  lemma StepKeepsInv(t: Track, hist: History, op: TrackOp, before: real, now: real)
    requires LifeInv(t, hist, before) && 0.0 < now && before <= now
    ensures LifeInv(Apply(t, op, now), Log(t, hist, op), now)
  {
    StepKeepsCounts(t, op, now);
    StepKeepsSamples(t, hist, op, now);
    StepKeepsFinal(t, op, now);
    StepKeepsPaired(t, op, before, now);
  }

  /** A final plate, its emitted form and its snapshot key never change. */
  lemma FinalIsFrozen(t: Track, op: TrackOp, now: real)
    requires t.final.chosen
    ensures Apply(t, op, now).final == t.final
    ensures Apply(t, op, now).ocr == t.ocr
  {
  }

  function Run(t: Track, ops: seq<(TrackOp, real)>): Track
    decreases |ops|
  {
    if ops == [] then t else Run(Apply(t, ops[0].0, ops[0].1), ops[1..])
  }

  function RunLog(t: Track, hist: History, ops: seq<(TrackOp, real)>): History
    decreases |ops|
  {
    if ops == [] then hist else RunLog(Apply(t, ops[0].0, ops[0].1), Log(t, hist, ops[0].0), ops[1..])
  }

  ghost predicate Timed(ops: seq<(TrackOp, real)>, from: real) {
    && (forall i :: 0 <= i < |ops| ==> 0.0 < ops[i].1 && from <= ops[i].1)
    && (forall i, j :: 0 <= i < j < |ops| ==> ops[i].1 <= ops[j].1)
  }

  lemma {:induction false} RunKeepsInv(t: Track, hist: History, ops: seq<(TrackOp, real)>, before: real)
    requires LifeInv(t, hist, before) && Timed(ops, before)
    ensures LifeInv(Run(t, ops), RunLog(t, hist, ops), if ops == [] then before else ops[|ops| - 1].1)
    ensures t.final.chosen ==> Run(t, ops).final == t.final && Run(t, ops).ocr == t.ocr
    decreases |ops|
  {
    if ops == [] {
    } else {
      var (op, now) := ops[0];
      StepKeepsInv(t, hist, op, before, now);
      if t.final.chosen {
        FinalIsFrozen(t, op, now);
      }
      forall i | 0 <= i < |ops[1..]| ensures 0.0 < ops[1..][i].1 && now <= ops[1..][i].1 {
        assert ops[1..][i] == ops[i + 1];
      }
      RunKeepsInv(Apply(t, op, now), Log(t, hist, op), ops[1..], now);
    }
  }

  /** A timed run and its continuation. */
  lemma TimedSplit(ops: seq<(TrackOp, real)>, more: seq<(TrackOp, real)>, from: real)
    requires Timed(ops + more, from)
    ensures Timed(ops, from) && Timed(more, if ops == [] then from else ops[|ops| - 1].1)
  {
    var all := ops + more;
    assert forall i :: 0 <= i < |ops| ==> ops[i] == all[i];
    assert forall i :: 0 <= i < |more| ==> more[i] == all[|ops| + i];
  }

  /** Every run of a new track with N > 0: the readings are all kept and counted, they stay below 2N while the plate
      is open and never pass 2N; each sample is the best of its text; a plate once final is the selection from the
      stored readings and stays as it is through any continuation; and the wrong-way pairing time is exactly the later
      of the final time and the first hit. */
  lemma TrackRunsAreSound(id: nat, createdAt: real, maxTimes: int, styles: seq<string>,
                          ops: seq<(TrackOp, real)>, more: seq<(TrackOp, real)>)
    requires maxTimes > 0 && Timed(ops + more, 0.0)
    ensures var t0 := NewTrack(id, createdAt, maxTimes, styles);
            var t := Run(t0, ops);
            && LifeInv(t, RunLog(t0, [], ops), if ops == [] then 0.0 else ops[|ops| - 1].1)
            && (t.final.chosen ==> Run(t, more).final == t.final && Run(t, more).ocr == t.ocr)
  {
    var t0 := NewTrack(id, createdAt, maxTimes, styles);
    NewTrackInv(id, createdAt, maxTimes, styles, 0.0);
    TimedSplit(ops, more, 0.0);
    RunKeepsInv(t0, [], ops, 0.0);
    RunKeepsInv(Run(t0, ops), RunLog(t0, [], ops), more, if ops == [] then 0.0 else ops[|ops| - 1].1);
  }
}
