/** The evidence that a track holds for each kind is exactly what its history of observations says. */
module TrackEvidence {
  import opened Kinds
  import opened TrackState
  import opened TrackLifecycle
  import Voting

  type Ops = seq<(TrackOp, real)>

  /** The part of the history that counts for kind k: a wrong-way reset starts that kind over. */
  function Window(ops: Ops, k: EventKind): Ops {
    if k != WrongWay || ops == [] then ops
    else
      var n := |ops| - 1;
      if ops[n].0.ClearWay? then [] else Window(ops[..n], k) + [ops[n]]
  }

  predicate IsHit(op: TrackOp, k: EventKind) {
    match k
    case Plate => false
    case NoHelmet => op.Helmet? && op.people > 0
    case WrongLane => op.Lane?
    case WrongWay => op.Way?
  }

  predicate IsPost(op: TrackOp, k: EventKind) { op == PostAll || op == Post(k) }

  function TextOf(op: TrackOp, k: EventKind): string {
    if k == WrongLane && op.Lane? then op.zone else if k == WrongWay && op.Way? then op.line else ""
  }

  function CountHits(w: Ops, k: EventKind): nat {
    if w == [] then 0 else CountHits(w[..|w| - 1], k) + if IsHit(w[|w| - 1].0, k) then 1 else 0
  }

  /** The largest head count seen. */
  ghost predicate IsPeak(w: Ops, peak: int) {
    && peak >= 0 && (peak == 0 || exists i :: 0 <= i < |w| && w[i].0 == Helmet(peak))
    && forall i :: 0 <= i < |w| && w[i].0.Helmet? ==> w[i].0.people <= peak
  }

  /** The first text that is not empty. */
  ghost predicate IsFirstText(w: Ops, k: EventKind, text: string) {
    if text == "" then forall i :: 0 <= i < |w| ==> TextOf(w[i].0, k) == ""
    else exists i :: 0 <= i < |w| && TextOf(w[i].0, k) == text && forall j :: 0 <= j < i ==> TextOf(w[j].0, k) == ""
  }

  /** The time of the first hit, 0 when there is none. */
  ghost predicate IsFirstTime(w: Ops, k: EventKind, at: real) {
    if at == 0.0 then forall i :: 0 <= i < |w| ==> !IsHit(w[i].0, k)
    else exists i :: 0 <= i < |w| && IsHit(w[i].0, k) && w[i].1 == at && forall j :: 0 <= j < i ==> !IsHit(w[j].0, k)
  }

  ghost predicate Has(w: Ops, p: TrackOp -> bool) { exists i :: 0 <= i < |w| && p(w[i].0) }

  ghost predicate Evidence(t: Track, w: Ops, k: EventKind) {
    var v := t.kinds.Get(k);
    && v.hits == CountHits(w, k)
    && (if k == NoHelmet then IsPeak(w, v.detail) else v.detail == 0)
    && IsFirstText(w, k, t.labels.Get(k))
    && (if k == WrongWay then IsFirstTime(w, k, v.firstHitAt) else v.firstHitAt == 0.0)
    && (v.posted <==> Has(w, op => IsPost(op, k)))
    && (v.hasSnapshot <==> Has(w, op => op == Snapshot(k)))
    && (v.needsSnapshot <==> (k == WrongLane || k == WrongWay) && v.hits > 0 && !v.hasSnapshot)
  }

  function ClassVotes(ops: Ops): seq<(int, real)> {
    if ops == [] then []
    else
      var n := |ops| - 1;
      ClassVotes(ops[..n]) + if ops[n].0.Class? then [(ops[n].0.cls, ops[n].0.conf)] else []
  }

  // ---------------------------------------------------------------------------------------------
  // One more operation

  lemma HasMore(w: Ops, e: (TrackOp, real), p: TrackOp -> bool)
    ensures Has(w + [e], p) <==> Has(w, p) || p(e.0)
  {
    if Has(w, p) {
      var i :| 0 <= i < |w| && p(w[i].0);
      assert p((w + [e])[i].0);
    }
    if p(e.0) {
      assert p((w + [e])[|w|].0);
    }
  }

  lemma CountMore(w: Ops, e: (TrackOp, real), k: EventKind)
    ensures CountHits(w + [e], k) == CountHits(w, k) + if IsHit(e.0, k) then 1 else 0
  {
    assert (w + [e])[..|w|] == w;
  }

  lemma PeakMore(w: Ops, e: (TrackOp, real), peak: int)
    requires IsPeak(w, peak)
    ensures IsPeak(w + [e], if e.0.Helmet? && e.0.people > peak then e.0.people else peak)
  {
    var v := w + [e];
    assert v[|w|] == e;
    if peak > 0 {
      var i :| 0 <= i < |w| && w[i].0 == Helmet(peak);
      assert v[i].0 == Helmet(peak);
    }
  }

  lemma FirstTextMore(w: Ops, e: (TrackOp, real), k: EventKind, text: string)
    requires IsFirstText(w, k, text)
    ensures IsFirstText(w + [e], k, if text == "" then TextOf(e.0, k) else text)
  {
    var v := w + [e];
    assert v[|w|] == e && forall i :: 0 <= i < |w| ==> v[i] == w[i];
    if text != "" {
      var i :| 0 <= i < |w| && TextOf(w[i].0, k) == text && forall j :: 0 <= j < i ==> TextOf(w[j].0, k) == "";
      assert TextOf(v[i].0, k) == text;
    } else if TextOf(e.0, k) != "" {
      assert TextOf(v[|w|].0, k) == TextOf(e.0, k);
    }
  }

  lemma FirstTimeMore(w: Ops, e: (TrackOp, real), k: EventKind, at: real)
    requires IsFirstTime(w, k, at) && 0.0 < e.1
    ensures IsFirstTime(w + [e], k, if at == 0.0 && IsHit(e.0, k) then e.1 else at)
  {
    var v := w + [e];
    assert v[|w|] == e && forall i :: 0 <= i < |w| ==> v[i] == w[i];
    if at != 0.0 {
      var i :| 0 <= i < |w| && IsHit(w[i].0, k) && w[i].1 == at && forall j :: 0 <= j < i ==> !IsHit(w[j].0, k);
      assert IsHit(v[i].0, k) && v[i].1 == at;
    } else if IsHit(e.0, k) {
      assert IsHit(v[|w|].0, k) && v[|w|].1 == e.1;
    }
  }

  /** What an operation does to the evidence of kind k. */
  ghost predicate Moves(t: Track, t': Track, op: TrackOp, now: real, k: EventKind) {
    var v, v' := t.kinds.Get(k), t'.kinds.Get(k);
    && v'.hits == v.hits + (if IsHit(op, k) then 1 else 0)
    && v'.detail == (if k == NoHelmet && op.Helmet? && op.people > v.detail then op.people else v.detail)
    && v'.firstHitAt == (if k == WrongWay && op.Way? && v.firstHitAt <= 0.0 then now else v.firstHitAt)
    && v'.posted == (v.posted || IsPost(op, k))
    && v'.hasSnapshot == (v.hasSnapshot || op == Snapshot(k))
    && v'.needsSnapshot == (if op == Snapshot(k) then false
                            else if (k == WrongLane || k == WrongWay) && IsHit(op, k) && !v.hasSnapshot then true
                            else v.needsSnapshot)
    && t'.labels.Get(k) == if t.labels.Get(k) == "" then TextOf(op, k) else t.labels.Get(k)
  }

  lemma ClosingMoves(t: Track, ocr: OcrLog, f: FinalPlate, op: TrackOp, now: real, k: EventKind)
    requires op.Missed? || op.Ocr?
    ensures Moves(t, Closed(t.(ocr := ocr), f, now), op, now, k)
    ensures Moves(t, t.(ocr := ocr), op, now, k)
  {
  }

  lemma ReadingMoves(t: Track, op: TrackOp, now: real, k: EventKind)
    requires op.Ocr?
    ensures Moves(t, Apply(t, op, now), op, now, k)
  {
    if CanOcr(t) && op.chars != [] {
      var ocr := Record(t.ocr, op.chars, op.raw, now, op.meanConf, op.sampleArea, op.plateArea);
      ClosingMoves(t, ocr, Chosen(ocr, t.styles, t.final, now), op, now, k);
    } else {
      ClosingMoves(t, t.ocr, t.final, op, now, k);
    }
  }

  lemma FlagMoves(t: Track, op: TrackOp, now: real, k: EventKind)
    requires op.Push? || op.Unpush? || op.Attempt?
    ensures Moves(t, Apply(t, op, now), op, now, k)
  {
  }

  lemma PostMoves(t: Track, op: TrackOp, now: real, k: EventKind)
    requires op.Post? || op.PostAll? || op.Snapshot?
    ensures Moves(t, Apply(t, op, now), op, now, k)
  {
  }

  lemma HitMoves(t: Track, op: TrackOp, now: real, k: EventKind)
    requires op.Helmet? || op.Lane?
    ensures Moves(t, Apply(t, op, now), op, now, k)
  {
  }

  lemma WayMoves(t: Track, op: TrackOp, now: real, k: EventKind)
    requires 0.0 < now && op.Way?
    ensures Moves(t, Apply(t, op, now), op, now, k)
  {
    var hit := AddKindHit(t, WrongWay, now, 0, op.line);
    HitByWay(t, hit, op, now, k);
    if t.final.chosen {
      PairingMoves(t, hit, SetPaired(hit.kinds.wrongWay, now), op, now, k);
    }
  }

  lemma HitByWay(t: Track, hit: Track, op: TrackOp, now: real, k: EventKind)
    requires 0.0 < now && op.Way? && hit == AddKindHit(t, WrongWay, now, 0, op.line)
    ensures Moves(t, hit, op, now, k)
  {
  }

  /** The pairing time is no evidence. */
  lemma PairingMoves(t: Track, hit: Track, v: ViolationState, op: TrackOp, now: real, k: EventKind)
    requires Moves(t, hit, op, now, k) && v == hit.kinds.wrongWay.(pairedAt := v.pairedAt)
    ensures Moves(t, hit.(kinds := hit.kinds.Set(WrongWay, v)), op, now, k)
  {
  }

  lemma KindAfter(t: Track, op: TrackOp, now: real, k: EventKind)
    requires 0.0 < now && !(k == WrongWay && op.ClearWay?)
    ensures Moves(t, Apply(t, op, now), op, now, k)
  {
    if op.Missed? {
      ClosingMoves(t, t.ocr, Chosen(t.ocr, t.styles, t.final, now), op, now, k);
    } else if op.Ocr? {
      ReadingMoves(t, op, now, k);
    } else if op.Push? || op.Unpush? || op.Attempt? {
      FlagMoves(t, op, now, k);
    } else if op.Post? || op.PostAll? || op.Snapshot? {
      PostMoves(t, op, now, k);
    } else if op.Helmet? || op.Lane? {
      HitMoves(t, op, now, k);
    } else if op.Way? {
      WayMoves(t, op, now, k);
    }
  }

  lemma FirstTimePositive(w: Ops, k: EventKind, at: real)
    requires IsFirstTime(w, k, at) && Positive(w)
    ensures at >= 0.0
  {
  }

  lemma StepKeepsEvidence(t: Track, w: Ops, e: (TrackOp, real), k: EventKind)
    requires Evidence(t, w, k) && 0.0 < e.1 && Positive(w)
    requires !(k == WrongWay && e.0.ClearWay?)
    ensures Evidence(Apply(t, e.0, e.1), w + [e], k)
  {
    KindAfter(t, e.0, e.1, k);
    MovesKeepEvidence(t, Apply(t, e.0, e.1), w, e, k);
  }

  lemma MovesKeepEvidence(t: Track, t': Track, w: Ops, e: (TrackOp, real), k: EventKind)
    requires Evidence(t, w, k) && 0.0 < e.1 && Positive(w) && Moves(t, t', e.0, e.1, k)
    ensures Evidence(t', w + [e], k)
  {
    var v := t.kinds.Get(k);
    CountMore(w, e, k);
    FirstTextMore(w, e, k, t.labels.Get(k));
    HasMore(w, e, op => IsPost(op, k));
    HasMore(w, e, op => op == Snapshot(k));
    if k == NoHelmet {
      PeakMore(w, e, v.detail);
    }
    if k == WrongWay {
      FirstTimePositive(w, k, v.firstHitAt);
      FirstTimeMore(w, e, k, v.firstHitAt);
    }
  }

  // ---------------------------------------------------------------------------------------------
  // Whole runs

  lemma {:induction false} RunLonger(t: Track, ops: Ops, e: (TrackOp, real))
    ensures Run(t, ops + [e]) == Apply(Run(t, ops), e.0, e.1)
    decreases |ops|
  {
    if ops == [] {
      assert [] + [e] == [e] && [e][1..] == [];
    } else {
      assert (ops + [e])[1..] == ops[1..] + [e];
      RunLonger(Apply(t, ops[0].0, ops[0].1), ops[1..], e);
    }
  }

  lemma {:induction false} WindowTimes(ops: Ops, k: EventKind)
    requires Positive(ops)
    ensures Positive(Window(ops, k))
  {
    if k == WrongWay && ops != [] && !ops[|ops| - 1].0.ClearWay? {
      WindowTimes(ops[..|ops| - 1], k);
    }
  }

  ghost predicate Positive(w: Ops) { forall i :: 0 <= i < |w| ==> 0.0 < w[i].1 }

  lemma PositiveFront(ops: Ops)
    requires Positive(ops) && ops != []
    ensures Positive(ops[..|ops| - 1]) && 0.0 < ops[|ops| - 1].1
  {
  }

  lemma WindowGrows(ops: Ops, k: EventKind)
    requires ops != []
    ensures Window(ops, k) == if k == WrongWay && ops[|ops| - 1].0.ClearWay? then []
                              else Window(ops[..|ops| - 1], k) + [ops[|ops| - 1]]
  {
    if k != WrongWay {
      SplitLast(ops);
      assert Window(ops, k) == ops && Window(ops[..|ops| - 1], k) == ops[..|ops| - 1];
    }
  }

  lemma SplitLast<T>(s: seq<T>)
    requires s != []
    ensures s == s[..|s| - 1] + [s[|s| - 1]]
  {
  }

  lemma ClearedEvidence(t: Track, now: real)
    ensures Evidence(Apply(t, ClearWay, now), [], WrongWay)
  {
  }

  /** The track t' after operation e, and the window w' that goes with it. */
  lemma OneMoreKeeps(t: Track, t': Track, w: Ops, w': Ops, e: (TrackOp, real), k: EventKind)
    requires Evidence(t, w, k) && Positive(w) && 0.0 < e.1 && t' == Apply(t, e.0, e.1)
    requires w' == if k == WrongWay && e.0.ClearWay? then [] else w + [e]
    ensures Evidence(t', w', k)
  {
    if k == WrongWay && e.0.ClearWay? {
      ClearedEvidence(t, e.1);
    } else {
      StepKeepsEvidence(t, w, e, k);
    }
  }

  /** After every run of a new track, the state of each kind is what its window of the history says: hits count the
      observations, the head count is the largest seen, the label is the first one, the first-hit time is the time of
      the first hit, a kind is posted exactly if it was posted, and a picture is asked for exactly while a lane or
      wrong-way violation has none. */
  lemma {:induction false} EvidenceIsHistory(t0: Track, ops: Ops, k: EventKind)
    requires t0.kinds == Uniform(FRESH_KIND) && t0.labels == Uniform("")
    requires Positive(ops)
    ensures Evidence(Run(t0, ops), Window(ops, k), k)
    decreases |ops|
  {
    if ops == [] {
    } else {
      var n := |ops| - 1;
      PositiveFront(ops);
      EvidenceIsHistory(t0, ops[..n], k);
      RunLonger(t0, ops[..n], ops[n]);
      SplitLast(ops);
      WindowTimes(ops[..n], k);
      WindowGrows(ops, k);
      OneMoreKeeps(Run(t0, ops[..n]), Run(t0, ops), Window(ops[..n], k), Window(ops, k), ops[n], k);
    }
  }

  lemma {:induction false} ClassesAreVotes(t0: Track, ops: Ops)
    requires t0.classes == []
    ensures Run(t0, ops).classes == ClassVotes(ops)
    decreases |ops|
  {
    if ops == [] {
    } else {
      var n := |ops| - 1;
      ClassesAreVotes(t0, ops[..n]);
      RunLonger(t0, ops[..n], ops[n]);
      assert ops[..n] + [ops[n]] == ops;
    }
  }

  /** The voted class is the argmax of the class observations of the run by votes, then confidence, then first
      appearance; -1 without observations. */
  lemma VotedClassIsArgmax(t0: Track, ops: Ops, c: int)
    requires t0.classes == []
    ensures var votes := ClassVotes(ops);
            if votes == [] then VotedClass(Run(t0, ops)) == -1
            else Voting.IsWinner(votes, c) <==> c == VotedClass(Run(t0, ops))
  {
    ClassesAreVotes(t0, ops);
    if ClassVotes(ops) != [] {
      Voting.WinnerIsArgmax(ClassVotes(ops), c);
    }
  }
}
