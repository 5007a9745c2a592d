/** The camera watcher: it compares the wanted cameras with the last list applied and hands the pipeline a new list,
    one at a time, when they differ. */
module Watcher {
  import opened Pipeline
  import opened StableSorting

  predicate CodeLess(a: Camera, b: Camera) { TextLess(a.code, b.code) }

  predicate UsableCamera(camera: Camera) { camera.code != "" && camera.url != "" }

  function CodesOf(cameras: seq<Camera>): set<string> { set c | c in cameras :: c.code }

  /** Equal code, URL and id, position by position; the name is not compared. */
  predicate SameCameraSet(a: seq<Camera>, b: seq<Camera>) {
    |a| == |b| && forall i :: 0 <= i < |a| ==> a[i].code == b[i].code && a[i].url == b[i].url && a[i].id == b[i].id
  }

  function Cleaned(cameras: seq<Camera>): (r: seq<Camera>)
    ensures forall c :: c in r <==> c in cameras && UsableCamera(c)
  {
    if cameras == [] then []
    else
      var n := |cameras| - 1;
      assert cameras == cameras[..n] + [cameras[n]];
      Cleaned(cameras[..n]) + if UsableCamera(cameras[n]) then [cameras[n]] else []
  }

  predicate Selected(camera: Camera, applied: set<string>, ready: string -> bool) {
    camera.code in applied || ready(camera.url)
  }

  /** The cameras already applied or whose stream answers. */
  function ReadyOnes(cameras: seq<Camera>, applied: set<string>, ready: string -> bool): (r: seq<Camera>)
    ensures forall c :: c in r <==> c in cameras && Selected(c, applied, ready)
  {
    if cameras == [] then []
    else
      var n := |cameras| - 1;
      assert cameras == cameras[..n] + [cameras[n]];
      ReadyOnes(cameras[..n], applied, ready) + if Selected(cameras[n], applied, ready) then [cameras[n]] else []
  }

  datatype Pending = NoApply | Apply(cameras: seq<Camera>)

  datatype State = State(desired: seq<Camera>, lastApplied: seq<Camera>, pending: Pending)

  /** What the watcher would apply now. */
  function Target(s: State, requireReady: bool, ready: string -> bool): seq<Camera> {
    Sort(if requireReady then ReadyOnes(s.desired, CodesOf(s.lastApplied), ready) else s.desired, CodeLess)
  }

  function Woken(s: State, requireReady: bool, ready: string -> bool): State {
    var target := Target(s, requireReady, ready);
    if !SameCameraSet(target, s.lastApplied) && s.pending.NoApply? then s.(pending := Apply(target)) else s
  }

  function Fired(s: State): State {
    match s.pending
    case NoApply => s
    case Apply(cameras) => State(s.desired, cameras, NoApply)
  }

  // ---------------------------------------------------------------------------------------------
  // The object

  class CameraWatcher {
    const pipeline: Sources
    const requireReady: bool
    var desired: seq<Camera>
    var lastApplied: seq<Camera>
    var applyPending: bool
    var idle: seq<Camera>
    var loggedNotReady: set<string>

    function View(): State reads this {
      State(desired, lastApplied, if applyPending then Apply(idle) else NoApply)
    }

    constructor (pipeline: Sources, requireReady: bool)
      ensures View() == State([], [], NoApply) && loggedNotReady == {}
      ensures this.pipeline == pipeline && this.requireReady == requireReady
    {
      this.pipeline, this.requireReady := pipeline, requireReady;
      desired, lastApplied, applyPending, idle, loggedNotReady := [], [], false, [], {};
    }

    method SetDesired(cameras: seq<Camera>) returns (woken: bool)
      modifies `desired
      ensures woken == !SameCameraSet(old(desired), Sort(Cleaned(cameras), CodeLess))
      ensures desired == if woken then Sort(Cleaned(cameras), CodeLess) else old(desired)
    {
      var cleaned := [];
      for i := 0 to |cameras|
        invariant cleaned == Cleaned(cameras[..i])
      {
        assert cameras[..i + 1][..i] == cameras[..i];
        if !UsableCamera(cameras[i]) {
          continue;
        }
        cleaned := cleaned + [cameras[i]];
      }
      assert cameras[..|cameras|] == cameras;
      cleaned := Sort(cleaned, CodeLess);
      if SameCameraSet(desired, cleaned) {
        return false;
      }
      desired := cleaned;
      return true;
    }

    /** With distinct codes the cameras warned about are afterwards exactly those left out. */
    method FilterReady(cameras: seq<Camera>, ready: string -> bool) returns (r: seq<Camera>)
      modifies `loggedNotReady
      ensures r == if requireReady then ReadyOnes(cameras, CodesOf(lastApplied), ready) else cameras
      ensures requireReady && DistinctCodes(cameras) ==> loggedNotReady == CodesOf(cameras) - CodesOf(r)
    {
      if !requireReady {
        return cameras;
      }
      var applied := CodesOf(lastApplied);
      var desiredCodes: set<string> := {};
      r := [];
      for i := 0 to |cameras|
        invariant r == ReadyOnes(cameras[..i], applied, ready) && desiredCodes == CodesOf(cameras[..i])
        invariant CodesOf(r) <= desiredCodes
        invariant DistinctCodes(cameras) ==> loggedNotReady * desiredCodes == desiredCodes - CodesOf(r)
      {
        var camera := cameras[i];
        CodesOfMore(cameras, i);
        CodesOfLonger(r, camera);
        WarnedStep(loggedNotReady, desiredCodes, CodesOf(r), camera.code);
        desiredCodes := desiredCodes + {camera.code};
        if camera.code in applied || ready(camera.url) {
          r := r + [camera];
          loggedNotReady := loggedNotReady - {camera.code};
        } else {
          loggedNotReady := loggedNotReady + {camera.code};
        }
      }
      assert cameras[..|cameras|] == cameras;
      loggedNotReady := loggedNotReady * desiredCodes;
    }

    method ScheduleApply(ready: seq<Camera>)
      modifies `applyPending, `idle
      ensures View() == if old(applyPending) then old(View()) else old(View()).(pending := Apply(ready))
    {
      if applyPending {
        return;
      }
      applyPending := true;
      idle := ready;
    }

    method OnWake(ready: string -> bool)
      modifies this
      ensures View() == Woken(old(View()), requireReady, ready)
    {
      var list := FilterReady(desired, ready);
      list := Sort(list, CodeLess);
      var changed := !SameCameraSet(list, lastApplied);
      if changed && !applyPending {
        ScheduleApply(list);
      }
    }

    method OnApplyIdle(outcomes: string -> Outcome)
      requires applyPending && Owned(pipeline.View())
      modifies this, pipeline`slots, pipeline`freeIds, pipeline`bound
      ensures View() == Fired(old(View()))
      ensures pipeline.View() == Applied(old(pipeline.View()), pipeline.EnvNow(), old(idle), outcomes)
    {
      pipeline.ApplyCameraList(idle, outcomes);
      lastApplied := idle;
      applyPending := false;
    }
  }

  // ---------------------------------------------------------------------------------------------
  // Convergence

  ghost predicate DistinctCodes(cameras: seq<Camera>) {
    forall i, j :: 0 <= i < j < |cameras| ==> cameras[i].code != cameras[j].code
  }

  lemma CodesOfMore(cameras: seq<Camera>, i: nat)
    requires i < |cameras|
    ensures CodesOf(cameras[..i + 1]) == CodesOf(cameras[..i]) + {cameras[i].code}
    ensures cameras[..i + 1][..i] == cameras[..i]
    ensures DistinctCodes(cameras) ==> cameras[i].code !in CodesOf(cameras[..i])
  {
    assert cameras[..i + 1] == cameras[..i] + [cameras[i]];
  }

  lemma CodesOfLonger(r: seq<Camera>, camera: Camera)
    ensures CodesOf(r + [camera]) == CodesOf(r) + {camera.code}
  {
  }

  /** A code not seen before leaves the warned set when it is chosen and joins it otherwise. */
  lemma WarnedStep(warned: set<string>, seen: set<string>, chosen: set<string>, x: string)
    requires chosen <= seen
    ensures x !in seen && warned * seen == seen - chosen ==>
              && (warned - {x}) * (seen + {x}) == (seen + {x}) - (chosen + {x})
              && (warned + {x}) * (seen + {x}) == (seen + {x}) - chosen
  {
    if x !in seen && warned * seen == seen - chosen {
      forall y ensures y in seen ==> (y in warned <==> y !in chosen) {
        assert y in warned * seen <==> y in seen - chosen;
      }
    }
  }

  lemma SortKeepsCodes(cameras: seq<Camera>)
    ensures CodesOf(Sort(cameras, CodeLess)) == CodesOf(cameras)
    ensures forall c :: c in Sort(cameras, CodeLess) <==> c in cameras
  {
    SortPermutes(cameras, CodeLess);
    forall c ensures c in Sort(cameras, CodeLess) <==> c in cameras {
      assert c in multiset(Sort(cameras, CodeLess)) <==> c in multiset(cameras);
    }
  }

  lemma {:induction false} SameSelection(cameras: seq<Camera>, a: set<string>, b: set<string>, ready: string -> bool)
    requires forall c :: c in cameras ==> (Selected(c, a, ready) <==> Selected(c, b, ready))
    ensures ReadyOnes(cameras, a, ready) == ReadyOnes(cameras, b, ready)
  {
    if cameras == [] {
    } else {
      var n := |cameras| - 1;
      assert cameras == cameras[..n] + [cameras[n]];
      SameSelection(cameras[..n], a, b, ready);
    }
  }

  /** Nothing is scheduled, and waking up schedules nothing. */
  ghost predicate Quiescent(s: State, requireReady: bool, ready: string -> bool) {
    s.pending.NoApply? && Woken(s, requireReady, ready) == s
  }

  function Round(s: State, requireReady: bool, ready: string -> bool): State { Fired(Woken(s, requireReady, ready)) }

  /** With distinct codes and fixed answers of the streams, one wake-up and one idle call settle the watcher. */
  lemma OneRoundSettles(s: State, requireReady: bool, ready: string -> bool)
    requires s.pending.NoApply? && DistinctCodes(s.desired)
    ensures Quiescent(Round(s, requireReady, ready), requireReady, ready)
  {
    var t := Round(s, requireReady, ready);
    if t != s && requireReady {
      var first := ReadyOnes(s.desired, CodesOf(s.lastApplied), ready);
      SortKeepsCodes(first);
      SelectedAgain(s.desired, CodesOf(s.lastApplied), ready);
    }
  }

  /** Once the selected cameras count as applied, the same cameras are selected. */
  lemma SelectedAgain(cameras: seq<Camera>, applied: set<string>, ready: string -> bool)
    requires DistinctCodes(cameras)
    ensures ReadyOnes(cameras, CodesOf(ReadyOnes(cameras, applied, ready)), ready) == ReadyOnes(cameras, applied, ready)
  {
    var first := ReadyOnes(cameras, applied, ready);
    forall c | c in cameras ensures Selected(c, applied, ready) <==> Selected(c, CodesOf(first), ready) {
      if c.code in CodesOf(first) {
        var d :| d in first && d.code == c.code;
        SameCodeSame(cameras, c, d);
      }
    }
    SameSelection(cameras, applied, CodesOf(first), ready);
  }

  /** Whatever the codes, two rounds do. */
  lemma TwoRoundsSettle(s: State, requireReady: bool, ready: string -> bool)
    requires s.pending.NoApply?
    ensures Quiescent(Round(Round(s, requireReady, ready), requireReady, ready), requireReady, ready)
  {
    var t := Round(s, requireReady, ready);
    if requireReady && t != s {
      var first := ReadyOnes(s.desired, CodesOf(s.lastApplied), ready);
      var second := ReadyOnes(s.desired, CodesOf(first), ready);
      SortKeepsCodes(first);
      SortKeepsCodes(second);
      forall x ensures x in CodesOf(first) <==> x in CodesOf(second) {
        if x in CodesOf(first) {
          var c :| c in first && c.code == x;
          assert c in second;
        }
        if x in CodesOf(second) {
          var c :| c in second && c.code == x;
          assert c.code in CodesOf(first) || c in first;
        }
      }
      assert CodesOf(first) == CodesOf(second);
    }
  }

  lemma {:induction false} DesiredCodes(cameras: seq<Camera>)
    requires forall c :: c in cameras ==> UsableCamera(c)
    ensures Desired(cameras).Keys == CodesOf(cameras)
  {
    if cameras == [] {
    } else {
      var n := |cameras| - 1;
      assert cameras == cameras[..n] + [cameras[n]];
      DesiredCodes(cameras[..n]);
      CodesOfMore(cameras, n);
      assert cameras[..n + 1] == cameras;
    }
  }

  /** When the wake-up found a change and every source starts, the pipeline then holds the selected cameras, as many
      as fit, and the watcher is settled. */
  lemma PipelineFollows(s: State, requireReady: bool, ready: string -> bool, p: Pool, env: Env,
                        outcomes: string -> Outcome)
    requires s.pending.NoApply? && DistinctCodes(s.desired) && forall c :: c in s.desired ==> UsableCamera(c)
    requires Woken(s, requireReady, ready) != s && Consistent(p, env.max) && env.built
    requires forall c :: c in s.desired ==> Starts(env, outcomes(c.code))
    ensures var target := Target(s, requireReady, ready);
            var codes, r := CodesOf(target), Applied(p, env, target, outcomes);
            && r.slots.Keys <= codes && |r.slots.Keys| == (if |codes| < env.max then |codes| else env.max)
            && Quiescent(Round(s, requireReady, ready), requireReady, ready)
            && Round(s, requireReady, ready).lastApplied == target
  {
    var target := Target(s, requireReady, ready);
    SortKeepsCodes(if requireReady then ReadyOnes(s.desired, CodesOf(s.lastApplied), ready) else s.desired);
    DesiredCodes(target);
    forall c | c in Codes(target) ensures Starts(env, outcomes(c)) {
      assert c in Desired(target);
      var x :| x in target && x.code == c;
    }
    ApplyGuarantee(p, env, target, outcomes);
    ApplyFills(p, env, target, outcomes);
    OneRoundSettles(s, requireReady, ready);
  }

  lemma {:induction false} DesiredEntry(cameras: seq<Camera>, c: string)
    requires c in Desired(cameras)
    ensures Desired(cameras)[c] in cameras
  {
    var n := |cameras| - 1;
    if cameras[n].code != c || !UsableCamera(cameras[n]) {
      DesiredEntry(cameras[..n], c);
      assert Desired(cameras)[c] == Desired(cameras[..n])[c];
    }
  }

  /** The target stands for the selected cameras themselves. */
  lemma TargetEntries(s: State, requireReady: bool, ready: string -> bool)
    requires DistinctCodes(s.desired) && forall c :: c in s.desired ==> UsableCamera(c)
    ensures var target := Target(s, requireReady, ready);
            && Desired(target).Keys == CodesOf(target)
            && (forall c :: c in target ==> c.code in Desired(target) && Desired(target)[c.code] == c)
            && (forall c :: c in target <==> c in s.desired && (requireReady ==> Selected(c, CodesOf(s.lastApplied), ready)))
  {
    var target := Target(s, requireReady, ready);
    SortKeepsCodes(if requireReady then ReadyOnes(s.desired, CodesOf(s.lastApplied), ready) else s.desired);
    DesiredCodes(target);
    forall c | c in target ensures c.code in Desired(target) && Desired(target)[c.code] == c {
      assert c.code in CodesOf(target);
      DesiredEntry(target, c.code);
      SameCodeSame(s.desired, c, Desired(target)[c.code]);
    }
  }

  lemma SameCodeSame(cameras: seq<Camera>, a: Camera, b: Camera)
    requires DistinctCodes(cameras) && a in cameras && b in cameras && a.code == b.code
    ensures a == b
  {
  }

  /** A camera that runs already under the same URI, or whose start succeeds. */
  predicate Up(p: Pool, env: Env, outcomes: string -> Outcome, c: Camera) {
    (c.code in p.slots && ToUri(c.url) == p.slots[c.code].uri) || Starts(env, outcomes(c.code))
  }

  ghost predicate AllSelected(s: State, requireReady: bool, ready: string -> bool) {
    requireReady ==> forall c :: c in s.desired ==> Selected(c, CodesOf(s.lastApplied), ready)
  }

  ghost predicate AllUp(s: State, p: Pool, env: Env, outcomes: string -> Outcome) {
    forall c :: c in s.desired ==> Up(p, env, outcomes, c)
  }

  lemma TargetIsAllIff(s: State, requireReady: bool, ready: string -> bool)
    requires DistinctCodes(s.desired) && forall c :: c in s.desired ==> UsableCamera(c)
    ensures var codes := Desired(Target(s, requireReady, ready)).Keys;
            && codes <= CodesOf(s.desired)
            && (CodesOf(s.desired) <= codes <==> AllSelected(s, requireReady, ready))
  {
    var target := Target(s, requireReady, ready);
    TargetEntries(s, requireReady, ready);
    if CodesOf(s.desired) <= CodesOf(target) {
      forall c | c in s.desired ensures c in target {
        assert c.code in CodesOf(s.desired) && c.code in Desired(target);
        DesiredEntry(target, c.code);
        SameCodeSame(s.desired, c, Desired(target)[c.code]);
      }
    }
  }

  lemma ComesIsUp(s: State, p: Pool, env: Env, outcomes: string -> Outcome, d: map<string, Camera>)
    requires d.Keys == CodesOf(s.desired) && forall c :: c in s.desired ==> c.code in d && d[c.code] == c
    ensures (forall c :: c in d ==> Comes(p, env, d, outcomes, c)) <==> (forall c :: c in s.desired ==> Up(p, env, outcomes, c))
  {
    forall c | c in s.desired ensures Up(p, env, outcomes, c) <==> Comes(p, env, d, outcomes, c.code) {
    }
    forall x | x in d ensures exists c :: c in s.desired && c.code == x {
      assert x in CodesOf(s.desired);
    }
  }

  lemma AllUpIsAllCome(s: State, requireReady: bool, ready: string -> bool, p: Pool, env: Env, outcomes: string -> Outcome)
    requires DistinctCodes(s.desired) && forall c :: c in s.desired ==> UsableCamera(c)
    requires AllSelected(s, requireReady, ready)
    ensures var d := Desired(Target(s, requireReady, ready));
            d.Keys == CodesOf(s.desired) && (AllUp(s, p, env, outcomes) <==> forall c :: c in d ==> Comes(p, env, d, outcomes, c))
  {
    TargetIsAllIff(s, requireReady, ready);
    TargetEntries(s, requireReady, ready);
    ComesIsUp(s, p, env, outcomes, Desired(Target(s, requireReady, ready)));
  }

  /** After a wake-up that found a change and its idle call, every wanted camera is in the pipeline exactly when all of
      them are selected, they fit, and each of them runs already under the same URI or starts. */
  lemma AllWantedUpIff(s: State, requireReady: bool, ready: string -> bool, p: Pool, env: Env, outcomes: string -> Outcome)
    requires s.pending.NoApply? && DistinctCodes(s.desired) && forall c :: c in s.desired ==> UsableCamera(c)
    requires Woken(s, requireReady, ready) != s && Consistent(p, env.max) && env.built
    ensures CodesOf(s.desired) <= Applied(p, env, Woken(s, requireReady, ready).pending.cameras, outcomes).slots.Keys <==>
              AllSelected(s, requireReady, ready) && |CodesOf(s.desired)| <= env.max && AllUp(s, p, env, outcomes)
  {
    var target := Target(s, requireReady, ready);
    TargetIsAllIff(s, requireReady, ready);
    ApplyGuarantee(p, env, target, outcomes);
    AllComeIff(p, env, target, outcomes);
    if AllSelected(s, requireReady, ready) {
      AllUpIsAllCome(s, requireReady, ready, p, env, outcomes);
    }
  }

  /** The watcher gives up on a camera: one slot, one wanted camera whose source does not start, and after one round the
      pool is as empty as before and nothing is scheduled any more. */
  lemma WatcherGivesUp(camera: Camera, ready: string -> bool)
    requires UsableCamera(camera)
    ensures var s, p, env := State([camera], [], NoApply), Pool(map[], {0}, map[]), Env(true, false, 1);
            var never := (code: string) => Outcome(false, false, false);
            && Consistent(p, env.max)
            && Woken(s, false, ready).pending == Apply([camera])
            && Applied(p, env, [camera], never).slots == map[]
            && Round(s, false, ready) == State([camera], [camera], NoApply)
            && Quiescent(Round(s, false, ready), false, ready)
  {
    var s, p, env := State([camera], [], NoApply), Pool(map[], {0}, map[]), Env(true, false, 1);
    var never := (code: string) => Outcome(false, false, false);
    assert [camera][1..] == [] && [camera][..0] == [];
    assert Sort([camera], CodeLess) == [camera];
    assert Ids(1) == {0} && Owned(p);
    OneRoundSettles(s, false, ready);
    ApplyGuarantee(p, env, [camera], never);
    forall c ensures c !in Applied(p, env, [camera], never).slots {
      assert Fares(p, env, Desired([camera]), never, Applied(p, env, [camera], never), c);
    }
  }

  /** A new camera whose source does not start is recorded as applied all the same: the watcher settles without it
      and does not try again while the list and the streams stay as they are. */
  lemma FailedSourceIsNotRetried(s: State, requireReady: bool, ready: string -> bool, p: Pool, env: Env,
                                 outcomes: string -> Outcome, c: Camera)
    requires s.pending.NoApply? && DistinctCodes(s.desired) && Woken(s, requireReady, ready) != s
    requires c in Target(s, requireReady, ready) && c.code !in p.slots && !Starts(env, outcomes(c.code))
    requires Consistent(p, env.max) && env.built
    ensures c.code !in Applied(p, env, Target(s, requireReady, ready), outcomes).slots
    ensures Quiescent(Round(s, requireReady, ready), requireReady, ready)
  {
    var target := Target(s, requireReady, ready);
    ApplyGuarantee(p, env, target, outcomes);
    assert Fares(p, env, Desired(target), outcomes, Applied(p, env, target, outcomes), c.code);
    OneRoundSettles(s, requireReady, ready);
  }
}
