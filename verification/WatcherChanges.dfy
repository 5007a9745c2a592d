/** When the camera watcher acts: it schedules a new list exactly when the wanted cameras that can run differ, as a set of code,
    URL and id, from those applied last. */
module WatcherChanges {
  import opened StableSorting
  import opened Pipeline
  import opened Watcher

  /** What the watcher compares of a camera: everything but the name. */
  function FaceOf(c: Camera): (string, string, string) { (c.code, c.url, c.id) }

  function Faces(cameras: seq<Camera>): set<(string, string, string)> { set c | c in cameras :: FaceOf(c) }

  ghost predicate ByCode(cameras: seq<Camera>) {
    forall i, j :: 0 <= i < j < |cameras| ==> TextLess(cameras[i].code, cameras[j].code)
  }

  lemma FacesOfMore(cameras: seq<Camera>)
    requires cameras != []
    ensures Faces(cameras) == {FaceOf(cameras[0])} + Faces(cameras[1..])
  {
    assert cameras == [cameras[0]] + cameras[1..];
  }

  lemma FirstIsNotLater(cameras: seq<Camera>)
    requires ByCode(cameras) && cameras != []
    ensures FaceOf(cameras[0]) !in Faces(cameras[1..]) && ByCode(cameras[1..])
  {
    if FaceOf(cameras[0]) in Faces(cameras[1..]) {
      var c :| c in cameras[1..] && FaceOf(c) == FaceOf(cameras[0]);
      var i :| 0 <= i < |cameras[1..]| && cameras[1..][i] == c;
      TextOrder(cameras[0].code, cameras[i + 1].code, c.code);
    }
  }

  /** The camera with the lowest code comes first. */
  lemma LowestFirst(a: seq<Camera>, b: seq<Camera>)
    requires ByCode(a) && ByCode(b) && a != [] && b != [] && Faces(a) == Faces(b)
    ensures FaceOf(a[0]) == FaceOf(b[0])
  {
    var i := FaceAt(b, FaceOf(a[0]));
    var j := FaceAt(a, FaceOf(b[0]));
    TextOrder(a[0].code, b[0].code, a[0].code);
  }

  lemma FaceAt(cameras: seq<Camera>, face: (string, string, string)) returns (i: nat)
    requires face in Faces(cameras)
    ensures i < |cameras| && FaceOf(cameras[i]) == face
  {
    var c :| c in cameras && FaceOf(c) == face;
    i :| 0 <= i < |cameras| && cameras[i] == c;
  }

  lemma NoFaces(cameras: seq<Camera>)
    ensures Faces(cameras) == {} <==> cameras == []
  {
    if cameras != [] {
      assert cameras[0] in cameras;
      assert FaceOf(cameras[0]) in Faces(cameras);
    }
  }

  lemma SameFront(a: seq<Camera>, b: seq<Camera>)
    requires a != [] && b != []
    ensures SameCameraSet(a, b) <==> FaceOf(a[0]) == FaceOf(b[0]) && SameCameraSet(a[1..], b[1..])
  {
    if FaceOf(a[0]) == FaceOf(b[0]) && SameCameraSet(a[1..], b[1..]) {
      forall i | 0 <= i < |a| ensures FaceOf(a[i]) == FaceOf(b[i]) {
        if i > 0 {
          assert a[i] == a[1..][i - 1] && b[i] == b[1..][i - 1];
        }
      }
    }
    if SameCameraSet(a, b) {
      forall i | 0 <= i < |a[1..]| ensures FaceOf(a[1..][i]) == FaceOf(b[1..][i]) {
        assert a[1..][i] == a[i + 1] && b[1..][i] == b[i + 1];
      }
    }
  }

  /** Lists in the order of their codes agree position by position exactly when they have the same cameras. */
  lemma {:induction false} SameIffSameFaces(a: seq<Camera>, b: seq<Camera>)
    requires ByCode(a) && ByCode(b)
    ensures SameCameraSet(a, b) <==> Faces(a) == Faces(b)
  {
    NoFaces(a);
    NoFaces(b);
    if a == [] || b == [] {
    } else {
      FacesOfMore(a);
      FacesOfMore(b);
      FirstIsNotLater(a);
      FirstIsNotLater(b);
      SameFront(a, b);
      SameIffSameFaces(a[1..], b[1..]);
      if Faces(a) == Faces(b) {
        LowestFirst(a, b);
        assert Faces(a[1..]) == Faces(a) - {FaceOf(a[0])} && Faces(b[1..]) == Faces(b) - {FaceOf(b[0])};
      }
    }
  }

  lemma CodesAreStrict()
    ensures StrictWeakOrder(CodeLess)
  {
    TextsAreOrdered();
  }

  lemma SortedByCode(cameras: seq<Camera>)
    requires DistinctCodes(cameras)
    ensures ByCode(Sort(cameras, CodeLess)) && Faces(Sort(cameras, CodeLess)) == Faces(cameras)
  {
    CodesAreStrict();
    SortSorts(cameras, CodeLess);
    SortKeepsCodes(cameras);
    CodesStayDistinct(cameras);
    var sorted := Sort(cameras, CodeLess);
    forall i, j | 0 <= i < j < |sorted| ensures TextLess(sorted[i].code, sorted[j].code) {
      TextOrder(sorted[i].code, sorted[j].code, sorted[i].code);
    }
  }

  lemma CodesStayDistinct(cameras: seq<Camera>)
    requires DistinctCodes(cameras)
    ensures DistinctCodes(Sort(cameras, CodeLess))
  {
    SortDistinct(cameras, CodeLess);
    var sorted := Sort(cameras, CodeLess);
    forall i, j | 0 <= i < j < |sorted| ensures sorted[i].code != sorted[j].code {
      assert sorted[i] in sorted && sorted[j] in sorted;
      if sorted[i].code == sorted[j].code {
        SameCodeSame(cameras, sorted[i], sorted[j]);
      }
    }
  }

  lemma {:induction false} SelectionDistinct(cameras: seq<Camera>, applied: set<string>, ready: string -> bool)
    requires DistinctCodes(cameras)
    ensures DistinctCodes(ReadyOnes(cameras, applied, ready))
  {
    if cameras == [] {
    } else {
      var n := |cameras| - 1;
      var front := ReadyOnes(cameras[..n], applied, ready);
      SelectionDistinct(cameras[..n], applied, ready);
      forall i | 0 <= i < |front| ensures front[i].code != cameras[n].code {
        assert front[i] in front;
        var k :| 0 <= k < n && cameras[..n][k] == front[i];
      }
    }
  }

  /** The wanted cameras that can run: with the stream check on, those applied already or whose stream answers. */
  ghost predicate CanRun(s: State, requireReady: bool, ready: string -> bool, c: Camera) {
    c in s.desired && (requireReady ==> (exists d :: d in s.lastApplied && d.code == c.code) || ready(c.url))
  }

  lemma TargetIsRunnable(s: State, requireReady: bool, ready: string -> bool)
    requires DistinctCodes(s.desired)
    ensures var target := Target(s, requireReady, ready);
            ByCode(target) && (forall c :: c in target <==> CanRun(s, requireReady, ready, c))
  {
    var chosen := if requireReady then ReadyOnes(s.desired, CodesOf(s.lastApplied), ready) else s.desired;
    SelectionDistinct(s.desired, CodesOf(s.lastApplied), ready);
    SortedByCode(chosen);
    SortKeepsCodes(chosen);
  }

  /** A wake-up schedules the cameras that can run, in the order of their codes, exactly when nothing is pending and they
      differ from those applied last in code, URL or id. */
  lemma WakesIffDifferent(s: State, requireReady: bool, ready: string -> bool)
    requires DistinctCodes(s.desired) && ByCode(s.lastApplied)
    ensures var woken := Woken(s, requireReady, ready);
            var faces := set c | c in s.desired && CanRun(s, requireReady, ready, c) :: FaceOf(c);
            && (woken != s <==> s.pending.NoApply? && faces != Faces(s.lastApplied))
            && (woken != s ==> woken.pending.Apply? && woken == s.(pending := woken.pending) && ByCode(woken.pending.cameras)
                               && forall c :: c in woken.pending.cameras <==> CanRun(s, requireReady, ready, c))
  {
    TargetIsRunnable(s, requireReady, ready);
    var target := Target(s, requireReady, ready);
    SameIffSameFaces(target, s.lastApplied);
    assert (set c | c in s.desired && CanRun(s, requireReady, ready, c) :: FaceOf(c)) == Faces(target);
  }

  /** What is applied last stays in the order of its codes, from the empty list at the start on. */
  lemma AppliedByCode(s: State, requireReady: bool, ready: string -> bool)
    requires DistinctCodes(s.desired) && ByCode(s.lastApplied) && (s.pending.Apply? ==> ByCode(s.pending.cameras))
    ensures var t := Woken(s, requireReady, ready);
            ByCode(t.lastApplied) && (t.pending.Apply? ==> ByCode(t.pending.cameras)) && ByCode(Fired(t).lastApplied)
  {
    TargetIsRunnable(s, requireReady, ready);
  }
}
