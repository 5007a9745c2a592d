/** Which cameras a list stands for, and which of them get in when there is not enough room. */
module PipelineOrder {
  import opened StableSorting
  import opened Pipeline

  predicate HasCode(camera: Camera, c: string) { camera.code == c && c != "" && camera.url != "" }

  /** A list stands for the last usable entry of each code: at i, or nowhere when there is none. */
  lemma {:induction false} DesiredIsLast(cameras: seq<Camera>, c: string) returns (i: int)
    ensures -1 <= i < |cameras| && forall j :: i < j < |cameras| ==> !HasCode(cameras[j], c)
    ensures if i < 0 then c !in Desired(cameras)
            else HasCode(cameras[i], c) && c in Desired(cameras) && Desired(cameras)[c] == cameras[i]
  {
    var n := |cameras| - 1;
    if cameras == [] {
      i := -1;
    } else if HasCode(cameras[n], c) {
      i := n;
    } else {
      i := DesiredIsLast(cameras[..n], c);
      assert forall j :: 0 <= j < n ==> cameras[..n][j] == cameras[j];
    }
  }

  /** A URI stays as it is, a path from the root becomes one, and nothing else does. */
  lemma UriIsStable(source: string)
    ensures ToUri(ToUri(source)) == ToUri(source)
    ensures HasScheme(ToUri(source)) <==> HasScheme(source) || (source != "" && source[0] == '/')
  {
    if !HasScheme(source) && source != "" && source[0] == '/' {
      assert SchemeAt("file://" + source, 4) by {
        assert ("file://" + source)[4..] == "://" + source;
      }
    }
  }

  // ---------------------------------------------------------------------------------------------
  // Not enough room

  /** The last camera visited, when an earlier new one did not get in. */
  lemma LastStaysOut(p: Pool, env: Env, desired: map<string, Camera>, order: seq<string>, outcomes: string -> Outcome, d: string)
    requires Consistent(p, env.max) && env.built && order != [] && Usable(desired, order) && AllStart(env, order, outcomes)
    requires var n := |order| - 1;
             && d in order[..n] && d !in p.slots && order[n] !in p.slots
             && d !in ReconciledAll(p, env, desired, order[..n], outcomes).slots
    ensures order[|order| - 1] !in ReconciledAll(p, env, desired, order, outcomes).slots
  {
    var n := |order| - 1;
    UsablePrefix(desired, order);
    ReconciledAllKeeps(p, env, desired, order[..n], outcomes);
    NewCameras(p, env, desired, order[..n], outcomes, d);
    OthersUntouched(p, env, desired, order[..n], outcomes, order[n]);
    ReconciledNew(ReconciledAll(p, env, desired, order[..n], outcomes), env, desired[order[n]], outcomes(order[n]));
  }

  /** The last visit does not touch the other cameras. */
  lemma LastIsAlone(p: Pool, env: Env, desired: map<string, Camera>, order: seq<string>, outcomes: string -> Outcome, i: nat)
    requires Usable(desired, order) && i < |order| - 1
    ensures var n := |order| - 1;
            && Usable(desired, order[..n]) && order[..n][i] == order[i] && order[i] != order[n]
            && (order[i] in ReconciledAll(p, env, desired, order, outcomes).slots <==>
                  order[i] in ReconciledAll(p, env, desired, order[..n], outcomes).slots)
  {
    var n := |order| - 1;
    UsablePrefix(desired, order);
    ReconciledFrame(ReconciledAll(p, env, desired, order[..n], outcomes), env, desired[order[n]], outcomes(order[n]), order[i]);
  }

  /** A new camera that is visited after another new one which did not get in does not get in either, when all start. */
  lemma {:induction false} LaterStaysOut(p: Pool, env: Env, desired: map<string, Camera>, order: seq<string>,
                                         outcomes: string -> Outcome, i: nat, j: nat)
    requires Consistent(p, env.max) && env.built && Usable(desired, order) && AllStart(env, order, outcomes)
    requires i < j < |order| && order[i] !in p.slots && order[j] !in p.slots
    requires order[i] !in ReconciledAll(p, env, desired, order, outcomes).slots
    ensures order[j] !in ReconciledAll(p, env, desired, order, outcomes).slots
  {
    LastIsAlone(p, env, desired, order, outcomes, i);
    if j == |order| - 1 {
      LastStaysOut(p, env, desired, order, outcomes, order[i]);
    } else {
      LastIsAlone(p, env, desired, order, outcomes, j);
      LaterStaysOut(p, env, desired, order[..|order| - 1], outcomes, i, j);
    }
  }

  /** The cameras are visited in the order of their codes. */
  lemma VisitedInOrder(cameras: seq<Camera>, c: string, d: string) returns (i: nat, j: nat)
    requires c in Desired(cameras) && d in Desired(cameras) && c != d
    ensures var order := Sort(Codes(cameras), TextLess);
            && i < |order| && order[i] == c && j < |order| && order[j] == d && (TextLess(c, d) || j < i)
  {
    var order := Sort(Codes(cameras), TextLess);
    SortDistinct(Codes(cameras), TextLess);
    i :| 0 <= i < |order| && order[i] == c;
    j :| 0 <= j < |order| && order[j] == d;
    TextOrder(c, d, c);
    if i < j {
      CodesAreSorted(cameras, i, j);
    }
  }

  lemma CodesAreSorted(cameras: seq<Camera>, i: nat, j: nat)
    requires i < j < |Sort(Codes(cameras), TextLess)|
    ensures !TextLess(Sort(Codes(cameras), TextLess)[j], Sort(Codes(cameras), TextLess)[i])
  {
    TextsAreOrdered();
    SortSorts(Codes(cameras), TextLess);
  }

  lemma AppliedVisits(p: Pool, env: Env, cameras: seq<Camera>, outcomes: string -> Outcome)
    requires Consistent(p, env.max) && env.built
    ensures var desired, order := Desired(cameras), Sort(Codes(cameras), TextLess);
            var start := Pruned(p, p.slots.Keys - desired.Keys);
            && Usable(desired, order) && Consistent(start, env.max)
            && Applied(p, env, cameras, outcomes) == ReconciledAll(start, env, desired, order, outcomes)
            && (AllStart(env, Codes(cameras), outcomes) ==> AllStart(env, order, outcomes))
  {
    SortDistinct(Codes(cameras), TextLess);
    PrunedKeeps(p, env.max, p.slots.Keys - Desired(cameras).Keys);
  }

  /** When every source starts but not all new cameras fit, those that get in come before those that do not, in the order of
      their codes. */
  lemma LowestCodesGetIn(p: Pool, env: Env, cameras: seq<Camera>, outcomes: string -> Outcome, c: string, d: string)
    requires Consistent(p, env.max) && env.built && AllStart(env, Codes(cameras), outcomes)
    requires c in Desired(cameras) && d in Desired(cameras) && c !in p.slots && d !in p.slots
    requires c in Applied(p, env, cameras, outcomes).slots && d !in Applied(p, env, cameras, outcomes).slots
    ensures TextLess(c, d)
  {
    var desired := Desired(cameras);
    AppliedVisits(p, env, cameras, outcomes);
    PrunedSlots(p, desired, c);
    PrunedSlots(p, desired, d);
    var i, j := VisitedInOrder(cameras, c, d);
    if j < i {
      LaterStaysOut(Pruned(p, p.slots.Keys - desired.Keys), env, desired, Sort(Codes(cameras), TextLess), outcomes, j, i);
    }
  }
}
