/** What commit, settle and the readiness question do to each other: retry, independence of kinds, and the
    wrong-way time window. */
module EmitGate {
  import opened Kinds
  import opened Rules
  import opened Dedup
  import opened TrackState
  import opened TrackLifecycle
  import opened Recognizer

  /** The keys of `kinds` for one track and plate. */
  function KeysFor(id: nat, plate: string, kinds: KindSet): set<Key> {
    set k | k in kinds :: Key(id, plate, k)
  }

  lemma KeysForMore(id: nat, plate: string, kinds: KindSet, k: EventKind)
    ensures KeysFor(id, plate, kinds + {k}) == KeysFor(id, plate, kinds) + {Key(id, plate, k)}
  {
  }

  /** Outside `keys`, everything remembered was already remembered, with the same expiry. */
  ghost predicate OnlyAdds(c: Cache, c': Cache, keys: set<Key>) {
    forall key :: key in c'.seen && key !in keys ==> key in c.seen && c'.seen[key] == c.seen[key]
  }

  /** t' is t with exactly the kinds of `m` marked pushed. */
  ghost predicate Pushed(t: Track, t': Track, m: KindSet) {
    && t' == t.(kinds := t'.kinds)
    && forall k: EventKind ::
         t'.kinds.Get(k) == (if k in m then t.kinds.Get(k).(pushed := true) else t.kinds.Get(k))
  }

  lemma PushOneMore(t: Track, t': Track, m: KindSet, k: EventKind)
    requires Pushed(t, t', m) && k !in m
    ensures Pushed(t, MarkPushed(t', k), m + {k})
  {
    forall j: EventKind
      ensures MarkPushed(t', k).kinds.Get(j) ==
                (if j in m + {k} then t.kinds.Get(j).(pushed := true) else t.kinds.Get(j))
    {
      assert t'.kinds.Get(j) == (if j in m then t.kinds.Get(j).(pushed := true) else t.kinds.Get(j));
    }
  }

  lemma {:induction false} CommitMarks(t: Track, c: Cache, plate: string, kinds: KindSet, now: real, n: nat)
    requires n <= 4
    ensures var s := CommitKinds(t, c, plate, kinds, now, n);
            s.committed <= kinds && s.committed <= FirstKinds(n) && Pushed(t, s.track, s.committed)
  {
    if n == 0 {
    } else {
      CommitMarks(t, c, plate, kinds, now, n - 1);
      FirstKindsStep(n - 1);
      var prev := CommitKinds(t, c, plate, kinds, now, n - 1);
      var k := ALL_KINDS[n - 1];
      PushOneMore(t, prev.track, prev.committed, k);
    }
  }

  lemma RememberOnlyAdds(c: Cache, c0: Cache, keys: set<Key>, key: Key, now: real)
    requires OnlyAdds(c0, c, keys)
    ensures OnlyAdds(c0, Remember(c, key, now), keys + {key})
  {
    RememberFacts(c, key, now);
  }

  lemma {:induction false} CommitRemembers(t: Track, c: Cache, plate: string, kinds: KindSet, now: real, n: nat)
    requires n <= 4
    ensures var s := CommitKinds(t, c, plate, kinds, now, n);
            && s.track.id == t.id
            && s.committed <= FirstKinds(n)
            && OnlyAdds(c, s.dedup, KeysFor(t.id, plate, s.committed))
  {
    if n == 0 {
    } else {
      CommitRemembers(t, c, plate, kinds, now, n - 1);
      FirstKindsStep(n - 1);
      var prev := CommitKinds(t, c, plate, kinds, now, n - 1);
      var k := ALL_KINDS[n - 1];
      RememberOnlyAdds(prev.dedup, c, KeysFor(t.id, plate, prev.committed), Key(t.id, plate, k), now);
      KeysForMore(t.id, plate, prev.committed, k);
    }
  }

  /** A wanted kind is committed unless the cache already had it when the commit began. */
  lemma {:induction false} CommitTakes(t: Track, c: Cache, plate: string, kinds: KindSet, now: real, n: nat, k: EventKind)
    requires n <= 4 && k in kinds * FirstKinds(n) && !AlreadyEmitted(c.seen, Key(t.id, plate, k), now)
    ensures k in CommitKinds(t, c, plate, kinds, now, n).committed
  {
    FirstKindsStep(n - 1);
    if k == ALL_KINDS[n - 1] {
      LastIsTaken(t, c, plate, kinds, now, n);
    } else {
      CommitTakes(t, c, plate, kinds, now, n - 1, k);
    }
  }

  lemma LastIsTaken(t: Track, c: Cache, plate: string, kinds: KindSet, now: real, n: nat)
    requires 0 < n <= 4 && ALL_KINDS[n - 1] in kinds && !AlreadyEmitted(c.seen, Key(t.id, plate, ALL_KINDS[n - 1]), now)
    ensures ALL_KINDS[n - 1] in CommitKinds(t, c, plate, kinds, now, n).committed
  {
    var k, prev := ALL_KINDS[n - 1], CommitKinds(t, c, plate, kinds, now, n - 1);
    FirstKindsStep(n - 1);
    CommitRemembers(t, c, plate, kinds, now, n - 1);
    CommitMarks(t, c, plate, kinds, now, n - 1);
    assert Key(t.id, plate, k) !in KeysFor(t.id, plate, prev.committed);
  }

  lemma {:induction false} SettleFacts(t: Track, c: Cache, want: KindSet, done: KindSet, n: nat)
    requires n <= 4
    ensures var (t', c') := SettleKinds(t, c, want, done, n);
            && t' == t.(kinds := t'.kinds)
            && (forall k: EventKind :: t'.kinds.Get(k) ==
                  (if k !in want * FirstKinds(n) then t.kinds.Get(k)
                   else if k in done then t.kinds.Get(k).(pushed := true, posted := true)
                   else t.kinds.Get(k).(pushed := false)))
            && c' == c.(seen := c'.seen)
            && c'.seen == c.seen - KeysFor(t.id, t.final.emitPlate, want * FirstKinds(n) - done)
  {
    if n == 0 {
    } else {
      SettleFacts(t, c, want, done, n - 1);
      FirstKindsStep(n - 1);
      var k := ALL_KINDS[n - 1];
      var before, after := want * FirstKinds(n - 1) - done, want * FirstKinds(n) - done;
      if k in want && k !in done {
        assert after == before + {k};
        KeysForMore(t.id, t.final.emitPlate, before, k);
      } else {
        assert after == before;
      }
    }
  }

  ghost predicate OwnIds(r: Rec) {
    forall id :: id in r.tracks ==> r.tracks[id].id == id
  }

  predicate ReadyAt(r: Rec, id: nat, k: EventKind, now: real) {
    id in r.tracks && Ready(r.tracks[id], k, r.dedup.seen, r.cfg, now)
  }

  /** Committing K on one track never takes readiness from any other kind, nor from any other track. */
  lemma CommitIsIndependent(r: Rec, id: nat, plate: string, kinds: KindSet, now: real,
                            id2: nat, k2: EventKind, now2: real)
    requires OwnIds(r) && ReadyAt(r, id2, k2, now2) && (id2 != id || k2 !in kinds)
    ensures ReadyAt(Commit(r, id, plate, kinds, now).0, id2, k2, now2)
  {
    if kinds != {} && id in r.tracks {
      AllKindsComplete();
      CommitMarks(r.tracks[id], r.dedup, plate, kinds, now, 4);
      CommitRemembers(r.tracks[id], r.dedup, plate, kinds, now, 4);
      var key := KeyOf(r.tracks[id2], k2);
      assert key !in KeysFor(id, plate, CommitKinds(r.tracks[id], r.dedup, plate, kinds, now, 4).committed);
    }
  }

  /** Settling K never takes readiness from any other kind or track either. */
  lemma SettleIsIndependent(r: Rec, id: nat, want: KindSet, done: KindSet, id2: nat, k2: EventKind, now2: real)
    requires OwnIds(r) && ReadyAt(r, id2, k2, now2) && (id2 != id || k2 !in want)
    ensures ReadyAt(Settle(r, id, want, done), id2, k2, now2)
  {
    if id in r.tracks {
      AllKindsComplete();
      SettleFacts(r.tracks[id], r.dedup, want, done, 4);
    }
  }

  /** The wrong-way settling gate. */
  predicate SettledLongEnough(t: Track, k: EventKind, cfg: Config, now: real) {
    var v := t.kinds.Get(k);
    k != WrongWay || cfg.wwSettle <= 0.0 || v.pairedAt <= 0.0 || now >= v.pairedAt + cfg.wwSettle
  }

  /** After a failed publish has been settled, the dedup cache can no longer block the kind: it is ready again
      exactly when its own gates say so. Holds in whatever state the settlement finds the recognizer. */
  lemma SettleReopens(r: Rec, id: nat, want: KindSet, done: KindSet, k: EventKind, now: real)
    requires OwnIds(r) && id in r.tracks && k in want && k !in done
    ensures var v := r.tracks[id].kinds.Get(k);
            ReadyAt(Settle(r, id, want, done), id, k, now) <==>
              && r.tracks[id].final.chosen
              && ShouldEmitPlate(r.tracks[id].final.emitPlate, r.cfg.sendMode)
              && (k == Plate || v.hits > 0)
              && !v.posted
              && SettledLongEnough(r.tracks[id], k, r.cfg, now)
              && (v.lastAttempt <= 0.0 || now - v.lastAttempt >= r.cfg.retryInterval)
  {
    AllKindsComplete();
    SettleFacts(r.tracks[id], r.dedup, want, done, 4);
    assert KeyOf(r.tracks[id], k) in KeysFor(id, r.tracks[id].final.emitPlate, want * FirstKinds(4) - done);
  }

  /** A settled kind that was done is never ready again. */
  lemma SettleCloses(r: Rec, id: nat, want: KindSet, done: KindSet, k: EventKind, now: real)
    requires k in want && k in done
    ensures !ReadyAt(Settle(r, id, want, done), id, k, now)
  {
    if id in r.tracks {
      AllKindsComplete();
      SettleFacts(r.tracks[id], r.dedup, want, done, 4);
    }
  }

  lemma AskFacts(t: Track, seen: map<Key, real>, cfg: Config, now: real, k: EventKind)
    requires t.final.chosen && ShouldEmitPlate(t.final.emitPlate, cfg.sendMode)
    ensures AfterAsk(t, seen, cfg, now) == t.(kinds := AfterAsk(t, seen, cfg, now).kinds)
    ensures AfterAsk(t, seen, cfg, now).kinds.Get(k) == KindAfterAsk(t, k, seen, cfg, now)
  {
  }

  /** One full failed cycle: asked at `now`, committed, settled with k wanted but not done. Then k is ready again
      at a later time exactly from the retry interval on (and past the wrong-way settling time); committed at
      `now`, it is not ready in between. */
  lemma RetryCycle(r: Rec, id: nat, want: KindSet, done: KindSet, k: EventKind, now: real, later: real)
    requires OwnIds(r) && id in r.tracks && 0.0 < now
    requires want <= ReadyOf(r, id, now) && k in want && k !in done
    ensures var t := r.tracks[id];
            var asked := Collect(r, now);
            var (committed, ok) := Commit(asked, id, t.final.emitPlate, want, now);
            && ok
            && !ReadyAt(committed, id, k, later)
            && (ReadyAt(Settle(committed, id, want, done), id, k, later) <==>
                  later - now >= r.cfg.retryInterval && SettledLongEnough(t, k, r.cfg, later))
  {
    var t := r.tracks[id];
    var asked := Collect(r, now);
    AllKindsComplete();
    AskFacts(t, r.dedup.seen, r.cfg, now, k);
    var t1 := asked.tracks[id];
    var plate := t.final.emitPlate;
    CommitMarks(t1, asked.dedup, plate, want, now, 4);
    assert k in ReadyOf(r, id, now);
    CommitTakes(t1, asked.dedup, plate, want, now, 4, k);
    var committed := Commit(asked, id, plate, want, now).0;
    SettleReopens(committed, id, want, done, k, later);
  }

  /** With both wrong-way timings on, clearing stale violations and then asking offers WRONG_WAY only inside
      [max(final time, first hit) + settle, first hit + wait) - and inside it whenever the other gates are open. */
  lemma WrongWayWindow(r: Rec, id: nat, now: real)
    requires OwnIds(r) && id in r.tracks && PairedOk(r.tracks[id], now)
    requires r.cfg.wwSettle > 0.0 && r.cfg.wwWait > 0.0
    ensures var t := r.tracks[id];
            var w := t.kinds.wrongWay;
            ReadyAt(ClearStale(r, now), id, WrongWay, now) <==>
              && t.final.chosen && ShouldEmitPlate(t.final.emitPlate, r.cfg.sendMode)
              && w.hits > 0 && !w.pushed && !w.posted
              && MaxReal(t.final.at, w.firstHitAt) + r.cfg.wwSettle <= now < w.firstHitAt + r.cfg.wwWait
              && (w.lastAttempt <= 0.0 || now - w.lastAttempt >= r.cfg.retryInterval)
              && !AlreadyEmitted(r.dedup.seen, KeyOf(t, WrongWay), now)
  {
  }

  /** So a plate that comes too late, or a settling time not shorter than the wait, keeps WRONG_WAY from being ready, until
      it is cleared and a new crossing starts it over. */
  lemma LatePlateSilencesWrongWay(r: Rec, id: nat, now: real)
    requires OwnIds(r) && id in r.tracks && PairedOk(r.tracks[id], now)
    requires r.cfg.wwSettle > 0.0 && r.cfg.wwWait > 0.0
    requires var t := r.tracks[id];
             t.final.at + r.cfg.wwSettle >= t.kinds.wrongWay.firstHitAt + r.cfg.wwWait || r.cfg.wwSettle >= r.cfg.wwWait
    ensures !ReadyAt(ClearStale(r, now), id, WrongWay, now)
  {
    WrongWayWindow(r, id, now);
  }
}
