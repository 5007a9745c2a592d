/** When a track's plate becomes final, which sample is the best, and when the track is deleted: in terms of what was
    observed of it. */
module TrackDecisions {
  import opened Kinds
  import opened Rules
  import opened TrackState
  import opened TrackLifecycle
  import opened TrackEvidence
  import Selection
  import StableSorting

  // ---------------------------------------------------------------------------------------------
  // Where the vehicle is

  predicate AtBorder(op: TrackOp) { op.Enter? || op.Leave? }

  /** The zone is what the last crossing of its border says, at the time of that crossing. */
  ghost predicate IsZone(ops: Ops, z: Zone) {
    && (z.everEntered <==> Has(ops, (op: TrackOp) => op.Enter?))
    && if forall i :: 0 <= i < |ops| ==> !AtBorder(ops[i].0) then !z.inPolygon && z.lastInZoneAt == 0.0
       else exists i :: 0 <= i < |ops| && LastBorder(ops, i) && (z.inPolygon <==> ops[i].0.Enter?) && z.lastInZoneAt == ops[i].1
  }

  ghost predicate LastBorder(ops: Ops, i: nat)
    requires i < |ops|
  {
    AtBorder(ops[i].0) && forall j :: i < j < |ops| ==> !AtBorder(ops[j].0)
  }

  lemma ZoneAfter(t: Track, op: TrackOp, now: real)
    ensures Apply(t, op, now).zone == match op
              case Enter => Zone(true, true, now)
              case Leave => t.zone.(inPolygon := false, lastInZoneAt := now)
              case _ => t.zone
  {
  }

  lemma ZoneMore(ops: Ops, e: (TrackOp, real), z: Zone)
    requires IsZone(ops, z)
    ensures e.0.Enter? ==> IsZone(ops + [e], Zone(true, true, e.1))
    ensures e.0.Leave? ==> IsZone(ops + [e], z.(inPolygon := false, lastInZoneAt := e.1))
    ensures !AtBorder(e.0) ==> IsZone(ops + [e], z)
  {
    var all := ops + [e];
    HasMore(ops, e, (op: TrackOp) => op.Enter?);
    assert all[|ops|] == e && forall i :: 0 <= i < |ops| ==> all[i] == ops[i];
    if AtBorder(e.0) {
      assert LastBorder(all, |ops|);
    } else if i :| 0 <= i < |ops| && AtBorder(ops[i].0) {
      var k :| 0 <= k < |ops| && LastBorder(ops, k) && (z.inPolygon <==> ops[k].0.Enter?) && z.lastInZoneAt == ops[k].1;
      assert LastBorder(all, k);
      assert AtBorder(all[k].0);
    }
  }

  lemma {:induction false} ZoneIsHistory(t0: Track, ops: Ops)
    requires t0.zone == Zone(false, false, 0.0)
    ensures IsZone(ops, Run(t0, ops).zone)
    decreases |ops|
  {
    if ops == [] {
    } else {
      var n := |ops| - 1;
      ZoneIsHistory(t0, ops[..n]);
      RunLonger(t0, ops[..n], ops[n]);
      SplitLast(ops);
      ZoneAfter(Run(t0, ops[..n]), ops[n].0, ops[n].1);
      ZoneMore(ops[..n], ops[n], Run(t0, ops[..n]).zone);
    }
  }

  // ---------------------------------------------------------------------------------------------
  // What was read

  /** The score of a reading: its area, and its confidence - as reported, or else the mean over its characters. */
  lemma ScoreOfReading(chars: CharSequence, meanConf: real, sampleArea: real)
    requires chars != []
    ensures var c := Candidate(chars, meanConf, sampleArea);
            && c.area == (if sampleArea > 0.0 then sampleArea else 0.0)
            && (if meanConf > 0.0 then c.meanConf == meanConf else Selection.Scaled(c.meanConf, |chars|) == Selection.Total(chars))
  {
    Selection.SumConfIsTotal(chars);
    DividedBack(SumConf(chars), |chars|);
  }

  lemma DividedBack(a: real, n: nat)
    requires n > 0
    ensures Selection.Scaled(a / n as real, n) == a
  {
  }

  /** A larger area, or the same area with more confidence. */
  predicate Larger(a: SnapshotScore, b: SnapshotScore) { a.area > b.area || (a.area == b.area && a.meanConf > b.meanConf) }

  /** The log counts the readings, keeps their texts, and knows the largest area. */
  ghost predicate IsLog(o: OcrLog, hist: History) {
    && o.count == |o.readings| == |o.numbers| == |hist|
    && (forall i :: 0 <= i < |hist| ==> o.numbers[i] == hist[i].0)
    && (forall i :: 0 <= i < |hist| ==> hist[i].1.area <= o.maxArea)
    && (if o.maxArea == 0.0 then forall i :: 0 <= i < |hist| ==> hist[i].1.area <= 0.0
        else o.maxArea > 0.0 && exists i :: 0 <= i < |hist| && hist[i].1.area == o.maxArea)
  }

  lemma RecordKeepsLog(o: OcrLog, hist: History, chars: CharSequence, raw: string, now: real, meanConf: real,
                       sampleArea: real, plateArea: real)
    requires chars != [] && IsLog(o, hist)
    ensures IsLog(Record(o, chars, raw, now, meanConf, sampleArea, plateArea),
                  hist + [(ToUpper(raw), Candidate(chars, meanConf, sampleArea))])
  {
    var e := (ToUpper(raw), Candidate(chars, meanConf, sampleArea));
    var more := hist + [e];
    assert more[|hist|] == e && forall i :: 0 <= i < |hist| ==> more[i] == hist[i];
    var o' := Record(o, chars, raw, now, meanConf, sampleArea, plateArea);
    assert o'.maxArea == if o.maxArea < e.1.area then e.1.area else o.maxArea;
    if o.maxArea < e.1.area {
      assert more[|hist|].1.area == o'.maxArea;
    } else if o.maxArea != 0.0 {
      var i :| 0 <= i < |hist| && hist[i].1.area == o.maxArea;
      assert more[i].1.area == o'.maxArea;
    }
  }

  lemma StepKeepsLog(t: Track, hist: History, op: TrackOp, now: real)
    requires IsLog(t.ocr, hist)
    ensures IsLog(Apply(t, op, now).ocr, Log(t, hist, op))
  {
    OcrLogAfter(t, op, now);
    if op.Ocr? && CanOcr(t) && op.chars != [] {
      RecordKeepsLog(t.ocr, hist, op.chars, op.raw, now, op.meanConf, op.sampleArea, op.plateArea);
    }
  }

  lemma {:induction false} LogIsHistory(t: Track, hist: History, ops: Ops)
    requires IsLog(t.ocr, hist)
    ensures IsLog(Run(t, ops).ocr, RunLog(t, hist, ops))
    decreases |ops|
  {
    if ops == [] {
    } else {
      StepKeepsLog(t, hist, ops[0].0, ops[0].1);
      LogIsHistory(Apply(t, ops[0].0, ops[0].1), Log(t, hist, ops[0].0), ops[1..]);
    }
  }

  /** The characters that an operation adds to the readings. */
  function TakenNow(t: Track, op: TrackOp): seq<CharSequence> {
    if op.Ocr? && CanOcr(t) && op.chars != [] then [op.chars] else []
  }

  /** The characters of the readings that the run took, in order. */
  function Taken(t: Track, ops: Ops): seq<CharSequence>
    decreases |ops|
  {
    if ops == [] then [] else TakenNow(t, ops[0].0) + Taken(Apply(t, ops[0].0, ops[0].1), ops[1..])
  }

  /** The same characters in capitals. */
  ghost predicate InCapitals(upper: seq<CharSequence>, chars: seq<CharSequence>) {
    |upper| == |chars| && forall i :: 0 <= i < |chars| ==> OneInCapitals(upper[i], chars[i])
  }

  ghost predicate OneInCapitals(upper: CharSequence, chars: CharSequence) {
    |upper| == |chars| && forall j :: 0 <= j < |chars| ==> upper[j] == CharReading(ToUpper(chars[j].text), chars[j].confidence)
  }

  lemma {:induction false} UpperIsInCapitals(chars: CharSequence)
    ensures OneInCapitals(UpperSequence(chars), chars)
  {
    if chars == [] {
    } else {
      UpperIsInCapitals(chars[..|chars| - 1]);
    }
  }

  lemma CapitalsJoin(a: seq<CharSequence>, b: seq<CharSequence>, upper: CharSequence, chars: CharSequence)
    requires InCapitals(a, b) && OneInCapitals(upper, chars)
    ensures InCapitals(a + [upper], b + [chars])
  {
  }

  lemma StepTakes(t: Track, before: seq<CharSequence>, op: TrackOp, now: real)
    requires InCapitals(t.ocr.readings, before)
    ensures InCapitals(Apply(t, op, now).ocr.readings, before + TakenNow(t, op))
  {
    OcrLogAfter(t, op, now);
    if op.Ocr? && CanOcr(t) && op.chars != [] {
      UpperIsInCapitals(op.chars);
      CapitalsJoin(t.ocr.readings, before, UpperSequence(op.chars), op.chars);
    } else {
      assert before + [] == before;
    }
  }

  lemma OneAfterAnother(a: seq<CharSequence>, b: seq<CharSequence>, c: seq<CharSequence>)
    ensures a + b + c == a + (b + c)
  {
  }

  /** The log keeps the readings that were taken, in capitals. */
  lemma {:induction false} ReadingsAreTaken(t: Track, before: seq<CharSequence>, ops: Ops)
    requires InCapitals(t.ocr.readings, before)
    ensures InCapitals(Run(t, ops).ocr.readings, before + Taken(t, ops))
    decreases |ops|
  {
    if ops == [] {
      assert before + [] == before;
    } else {
      var (op, now) := ops[0];
      StepTakes(t, before, op, now);
      ReadingsAreTaken(Apply(t, op, now), before + TakenNow(t, op), ops[1..]);
      OneAfterAnother(before, TakenNow(t, op), Taken(Apply(t, op, now), ops[1..]));
    }
  }

  /** The time of the first reading that the run took; 0 without one. */
  function FirstTaken(t: Track, ops: Ops): real
    decreases |ops|
  {
    if ops == [] then 0.0
    else if TakenNow(t, ops[0].0) != [] then ops[0].1
    else FirstTaken(Apply(t, ops[0].0, ops[0].1), ops[1..])
  }

  /** The crop score of the last reading that the run took. */
  function LastCrop(t: Track, ops: Ops, before: CropScore): CropScore
    decreases |ops|
  {
    if ops == [] then before
    else
      var op := ops[0].0;
      LastCrop(Apply(t, op, ops[0].1), ops[1..],
               if TakenNow(t, op) == [] then before
               else CropScore(Candidate(op.chars, op.meanConf, op.sampleArea).meanConf,
                              if op.plateArea > 0.0 then op.plateArea else 0.0))
  }

  lemma {:induction false} FirstStampStays(t: Track, ops: Ops)
    requires t.ocr.firstOcrAt > 0.0
    ensures Run(t, ops).ocr.firstOcrAt == t.ocr.firstOcrAt
    decreases |ops|
  {
    if ops == [] {
    } else {
      OcrLogAfter(t, ops[0].0, ops[0].1);
      FirstStampStays(Apply(t, ops[0].0, ops[0].1), ops[1..]);
    }
  }

  /** The log knows when the first reading was taken, and the crop score of the last one. */
  lemma {:induction false} StampsOfRun(t: Track, ops: Ops)
    requires Positive(ops)
    ensures t.ocr.firstOcrAt == 0.0 ==> Run(t, ops).ocr.firstOcrAt == FirstTaken(t, ops)
    ensures Run(t, ops).ocr.lastCrop == LastCrop(t, ops, t.ocr.lastCrop)
    decreases |ops|
  {
    if ops == [] {
    } else {
      var (op, now) := ops[0];
      OcrLogAfter(t, op, now);
      StampsOfRun(Apply(t, op, now), ops[1..]);
      if TakenNow(t, op) != [] {
        FirstStampStays(Apply(t, op, now), ops[1..]);
      }
    }
  }

  // ---------------------------------------------------------------------------------------------
  // The reading that closes the plate

  /** The vehicle still comes closer: an area was measured before, and the new one beats every earlier one by more than a
      twentieth. */
  ghost predicate ComesCloser(hist: History, area: real) {
    && (exists i :: 0 <= i < |hist| && hist[i].1.area > 0.0)
    && forall i :: 0 <= i < |hist| && hist[i].1.area > 0.0 ==> area > hist[i].1.area * 1.05
  }

  lemma GrewIffComesCloser(o: OcrLog, hist: History, cand: SnapshotScore)
    requires IsLog(o, hist)
    ensures AreaGrew(o, cand) <==> ComesCloser(hist, cand.area)
  {
    if o.maxArea > 0.0 {
      var i :| 0 <= i < |hist| && hist[i].1.area == o.maxArea;
      assert hist[i].1.area > 0.0;
    }
  }

  lemma BestIffLarger(samples: Samples, hist: History, key: string, cand: SnapshotScore)
    requires SamplesAreBest(samples, hist)
    ensures BetterSample(samples, key, cand) <==> forall i :: 0 <= i < |hist| && hist[i].0 == key ==> Larger(cand, hist[i].1)
  {
    if HasSample(samples, key) {
      assert IsBestScore(hist, key, ScoreOf(samples, key));
      var i :| 0 <= i < |hist| && hist[i] == (key, ScoreOf(samples, key));
      assert hist[i].0 == key;
    } else {
      assert !Logged(hist, key);
    }
  }

  /** A reading is taken exactly while the plate is open, the vehicle is in the zone and there are characters. It closes the
      plate exactly when it is the N-th or a later one and the vehicle does not come closer, or it is the 2N-th; and it is
      the best snapshot so far exactly when it is larger than every earlier reading of the same text. */
  lemma ReadingDecides(t: Track, hist: History, chars: CharSequence, raw: string, now: real, meanConf: real, sampleArea: real,
                       plateArea: real)
    requires CountsOk(t) && SamplesAreBest(t.ocr.samples, hist) && IsLog(t.ocr, hist)
    ensures var (t', status) := AddOcr(t, chars, raw, now, meanConf, sampleArea, plateArea);
            var taken, n := !t.final.chosen && t.zone.inPolygon && chars != [], |hist| + 1;
            var closes := taken && (n >= 2 * t.maxTimes ||
                            (n >= t.maxTimes && !ComesCloser(hist, if sampleArea > 0.0 then sampleArea else 0.0)));
            var best := taken && forall i :: 0 <= i < |hist| && hist[i].0 == ToUpper(raw) ==>
                          Larger(Candidate(chars, meanConf, sampleArea), hist[i].1);
            && t'.final.chosen == (t.final.chosen || closes)
            && status == if !taken then Rejected else if closes then (if best then FinalizedBestSnapshot else Finalized)
                         else if best then BestSnapshot else Recognized
  {
    if !t.final.chosen && t.zone.inPolygon && chars != [] {
      var cand := Candidate(chars, meanConf, sampleArea);
      GrewIffComesCloser(t.ocr, hist, cand);
      BestIffLarger(t.ocr.samples, hist, ToUpper(raw), cand);
    }
  }

  // ---------------------------------------------------------------------------------------------
  // The best sample of all

  ghost predicate InKeyOrder(s: Samples) {
    forall i, j :: 0 <= i < j < |s| ==> StableSorting.TextLess(s[i].0, s[j].0)
  }

  lemma {:induction false} InsertInOrder(s: Samples, key: string, score: SnapshotScore)
    requires InKeyOrder(s) && !HasSample(s, key)
    ensures InKeyOrder(InsertSample(s, key, score))
    ensures forall x :: x in InsertSample(s, key, score) <==> x == (key, score) || x in s
  {
    if s == [] {
    } else if StableSorting.TextLess(key, s[0].0) {
      forall j | 0 <= j < |s| ensures StableSorting.TextLess(key, s[j].0) {
        StableSorting.TextOrder(key, s[0].0, s[j].0);
      }
    } else {
      assert !HasSample(s[1..], key) && s[0].0 != key;
      InsertInOrder(s[1..], key, score);
      FrontStays(s, key, InsertSample(s[1..], key, score), score);
    }
  }

  lemma FrontStays(s: Samples, key: string, rest: Samples, score: SnapshotScore)
    requires s != [] && InKeyOrder(s) && InKeyOrder(rest) && s[0].0 != key && !StableSorting.TextLess(key, s[0].0)
    requires forall x :: x in rest <==> x == (key, score) || x in s[1..]
    ensures InKeyOrder([s[0]] + rest) && forall x :: x in [s[0]] + rest <==> x == (key, score) || x in s
  {
    StableSorting.TextOrder(s[0].0, key, key);
    forall j | 0 <= j < |rest| ensures StableSorting.TextLess(s[0].0, rest[j].0) {
      assert rest[j] in rest;
    }
    assert s == [s[0]] + s[1..];
  }

  lemma PutInOrder(s: Samples, key: string, score: SnapshotScore)
    requires InKeyOrder(s)
    ensures InKeyOrder(PutSample(s, key, score))
  {
    if !HasSample(s, key) {
      InsertInOrder(s, key, score);
    }
  }

  lemma {:induction false} OrderIsKept(t: Track, ops: Ops)
    requires InKeyOrder(t.ocr.samples)
    ensures InKeyOrder(Run(t, ops).ocr.samples)
    decreases |ops|
  {
    if ops == [] {
    } else {
      var (op, now) := ops[0];
      OcrLogAfter(t, op, now);
      if op.Ocr? && CanOcr(t) && op.chars != [] {
        PutInOrder(t.ocr.samples, ToUpper(op.raw), Candidate(op.chars, op.meanConf, op.sampleArea));
      }
      OrderIsKept(Apply(t, op, now), ops[1..]);
    }
  }

  lemma {:induction false} LookupAt(s: Samples, i: nat)
    requires InKeyOrder(s) && i < |s|
    ensures HasSample(s, s[i].0) && ScoreOf(s, s[i].0) == s[i].1
  {
    forall j | 0 <= j < i ensures s[j].0 != s[i].0 {
      StableSorting.TextOrder(s[j].0, s[j].0, s[j].0);
    }
    FindSampleUnique(s, s[i].0, i);
  }

  /** The sample at j is the first largest one of those that count. */
  ghost predicate FirstLargest(s: Samples, n: nat, counts: string -> bool, j: nat)
    requires n <= |s|
  {
    && j < n && counts(s[j].0)
    && (forall i :: 0 <= i < n && counts(s[i].0) ==> !Larger(s[i].1, s[j].1))
    && (forall i :: 0 <= i < j && counts(s[i].0) ==> Larger(s[j].1, s[i].1))
  }

  lemma LargestMore(s: Samples, n: nat, counts: string -> bool, j: nat)
    requires 0 < n <= |s| && FirstLargest(s, n - 1, counts, j)
    ensures counts(s[n - 1].0) && Larger(s[n - 1].1, s[j].1) ==> FirstLargest(s, n, counts, n - 1)
    ensures !(counts(s[n - 1].0) && Larger(s[n - 1].1, s[j].1)) ==> FirstLargest(s, n, counts, j)
  {
  }

  lemma FirstCounted(s: Samples, n: nat, counts: string -> bool)
    requires 0 < n <= |s| && counts(s[n - 1].0) && forall i :: 0 <= i < n - 1 ==> !counts(s[i].0)
    ensures FirstLargest(s, n, counts, n - 1)
  {
  }

  lemma BetterIsLarger(a: SnapshotScore, b: SnapshotScore)
    ensures SnapshotScoreBetter(a, b) <==> Larger(a, b)
  {
  }

  lemma {:induction false} FirstNonBlank(s: Samples, n: nat) returns (j: nat)
    requires InKeyOrder(s) && n <= |s| && BestNonBlank(s, n) != ""
    ensures FirstLargest(s, n, NotBlank(), j) && BestNonBlank(s, n) == s[j].0
  {
    var b, counts := BestNonBlank(s, n - 1), NotBlank();
    LookupAt(s, n - 1);
    BestNonBlankMaximal(s, n - 1);
    if b == "" {
      j := n - 1;
      FirstCounted(s, n, counts);
    } else {
      var k := FirstNonBlank(s, n - 1);
      LookupAt(s, k);
      LargestMore(s, n, counts, k);
      BetterIsLarger(s[n - 1].1, s[k].1);
      j := if counts(s[n - 1].0) && Larger(s[n - 1].1, s[k].1) then n - 1 else k;
    }
  }

  lemma {:induction false} FirstAny(s: Samples, n: nat) returns (j: nat)
    requires InKeyOrder(s) && 0 < n <= |s|
    ensures FirstLargest(s, n, Any(), j) && BestAny(s, n) == s[j].0
  {
    LookupAt(s, n - 1);
    LookupAt(s, 0);
    if n == 1 {
      j := 0;
    } else {
      var k := FirstAny(s, n - 1);
      LookupAt(s, k);
      LargestMore(s, n, Any(), k);
      BetterIsLarger(s[n - 1].1, s[k].1);
      j := if Larger(s[n - 1].1, s[k].1) then n - 1 else k;
    }
  }

  function NotBlank(): string -> bool { (key: string) => !IsBlankPlate(key) }

  function Any(): string -> bool { (key: string) => true }

  ghost predicate AllBlank(s: Samples) { forall i :: 0 <= i < |s| ==> IsBlankPlate(s[i].0) }

  lemma FirstOfSamples(s: Samples) returns (j: nat)
    requires InKeyOrder(s) && s != []
    ensures FirstLargest(s, |s|, if AllBlank(s) then Any() else NotBlank(), j)
    ensures (if BestNonBlank(s, |s|) != "" then BestNonBlank(s, |s|) else BestAny(s, |s|)) == s[j].0
  {
    BestNonBlankMaximal(s, |s|);
    if BestNonBlank(s, |s|) != "" {
      j := FirstNonBlank(s, |s|);
    } else {
      j := FirstAny(s, |s|);
    }
  }

  /** On every run the picture is that of the final text if it was sampled and is not blank; else that of the first text, in
      alphabetical order, whose sample is as large as any - among the texts that are not blank, if there are any. */
  lemma PictureOfRun(t0: Track, ops: Ops, plate: string) returns (j: nat)
    requires t0.ocr == NO_OCR && Run(t0, ops).ocr.samples != []
    ensures var s := Run(t0, ops).ocr.samples;
            && InKeyOrder(s) && FirstLargest(s, |s|, if AllBlank(s) then Any() else NotBlank(), j)
            && PickSnapshotKey(s, plate) == if !IsBlankPlate(plate) && HasSample(s, plate) then plate else s[j].0
  {
    OrderIsKept(t0, ops);
    j := FirstOfSamples(Run(t0, ops).ocr.samples);
  }

  // ---------------------------------------------------------------------------------------------
  // Over every run of a track

  lemma AllAfter(t0: Track, ops: Ops, n: int)
    requires n > 0 && TrackLifecycle.Timed(ops, 0.0)
    requires exists id, at, styles :: t0 == NewTrack(id, at, n, styles)
    ensures var t, hist := Run(t0, ops), RunLog(t0, [], ops);
            && CountsOk(t) && SamplesAreBest(t.ocr.samples, hist) && IsLog(t.ocr, hist) && IsZone(ops, t.zone)
            && t.maxTimes == n && t.createdAt == t0.createdAt
  {
    var id, at, styles :| t0 == NewTrack(id, at, n, styles);
    NewTrackInv(id, at, n, styles, 0.0);
    RunKeepsInv(t0, [], ops, 0.0);
    LogIsHistory(t0, [], ops);
    ZoneIsHistory(t0, ops);
    RunKeepsMaking(t0, ops);
  }

  lemma {:induction false} RunKeepsMaking(t: Track, ops: Ops)
    ensures Run(t, ops).createdAt == t.createdAt && Run(t, ops).maxTimes == t.maxTimes
    decreases |ops|
  {
    if ops == [] {
    } else {
      MakingKept(t, ops[0].0, ops[0].1);
      RunKeepsMaking(Apply(t, ops[0].0, ops[0].1), ops[1..]);
    }
  }

  lemma MakingKept(t: Track, op: TrackOp, now: real)
    ensures Apply(t, op, now).createdAt == t.createdAt && Apply(t, op, now).maxTimes == t.maxTimes
  {
  }

  /** A track is closed by its absence exactly when the plate is open, something was read, the vehicle is not in the zone, and
      more than a second has passed since it crossed the border. */
  lemma MissDecides(t0: Track, ops: Ops, n: int, now: real)
    requires n > 0 && TrackLifecycle.Timed(ops, 0.0)
    requires exists id, at, styles :: t0 == NewTrack(id, at, n, styles)
    ensures var t := Run(t0, ops);
            && IsZone(ops, t.zone)
            && (TryFinalizeMiss(t, now).1 <==>
                  !t.final.chosen && RunLog(t0, [], ops) != [] && !t.zone.inPolygon && now - t.zone.lastInZoneAt > 1.0)
            && (TryFinalizeMiss(t, now).0.final.chosen <==> t.final.chosen || TryFinalizeMiss(t, now).1)
  {
    AllAfter(t0, ops, n);
  }

  /** The violation or the plate was observed, and was not settled since the history that counts for it began. */
  ghost predicate Unsettled(t: Track, ops: Ops, k: EventKind) {
    && (if k == Plate then t.final.chosen else CountHits(Window(ops, k), k) > 0)
    && !Has(Window(ops, k), (op: TrackOp) => IsPost(op, k))
  }

  lemma PendingIffUnsettled(t: Track, ops: Ops, k: EventKind)
    requires Evidence(t, Window(ops, k), k)
    ensures k in PendingKinds(t) <==> Unsettled(t, ops, k)
  {
    var p, q := op => IsPost(op, k), (op: TrackOp) => IsPost(op, k);
    assert Has(Window(ops, k), p) <==> Has(Window(ops, k), q);
  }

  /** A track is deleted exactly when its plate is final and nothing observed of it is unsettled, or the vehicle has been out
      of the zone for more than ten seconds, or the track is older than two minutes. */
  lemma DeletionDecides(t0: Track, ops: Ops, n: int, now: real)
    requires n > 0 && TrackLifecycle.Timed(ops, 0.0)
    requires exists id, at, styles :: t0 == NewTrack(id, at, n, styles)
    ensures var t := Run(t0, ops);
            && IsZone(ops, t.zone)
            && (ShouldForceDelete(t, now) <==>
                  || (t.final.chosen && forall k: EventKind :: !Unsettled(t, ops, k))
                  || (!t.zone.inPolygon && now - t.zone.lastInZoneAt > 10.0)
                  || now - t0.createdAt > 120.0)
  {
    var t := Run(t0, ops);
    AllAfter(t0, ops, n);
    forall k: EventKind ensures k in PendingKinds(t) <==> Unsettled(t, ops, k) {
      EvidenceIsHistory(t0, ops, k);
      PendingIffUnsettled(t, ops, k);
    }
  }
}
