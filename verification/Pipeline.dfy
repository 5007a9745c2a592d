/** The source slots of the pipeline: which camera owns which source id, and how a camera list is applied. */
module Pipeline {
  import opened StableSorting

  datatype Camera = Camera(id: string, code: string, name: string, url: string)

  /** What GStreamer answers when a source for a camera is created, gets its muxer pad, and syncs its state. */
  datatype Outcome = Outcome(element: bool, pad: bool, sync: bool)

  datatype Slot = Slot(sourceId: nat, uri: string, camera: Camera)

  /** `bound` is the probe's table of cameras by source id. */
  datatype Pool = Pool(slots: map<string, Slot>, free: set<nat>, bound: map<nat, Camera>)

  datatype Env = Env(built: bool, playing: bool, max: nat)

  // ---------------------------------------------------------------------------------------------
  // URIs

  predicate SchemeAt(s: string, i: nat) { i <= |s| && "://" <= s[i..] }

  predicate HasScheme(s: string) { exists i :: 0 <= i <= |s| && SchemeAt(s, i) }

  /** A raw file path becomes a file URI. */
  function ToUri(source: string): (r: string)
    ensures source != "" ==> r != ""
  {
    if HasScheme(source) then source
    else if source != "" && source[0] == '/' then "file://" + source
    else source
  }

  // ---------------------------------------------------------------------------------------------
  // The operations as functions

  function LowestFrom(free: set<nat>, i: nat, max: nat): (r: nat)
    requires exists k :: i <= k < max && k in free
    ensures r in free && i <= r < max && forall k :: i <= k < r ==> k !in free
    decreases max - i
  {
    if i in free then i else LowestFrom(free, i + 1, max)
  }

  /** The preferred id if it is free, else the lowest free id; -1 when there is none. */
  function AllocatedId(free: set<nat>, max: nat, preferred: int): int {
    if 0 <= preferred < max && preferred in free then preferred
    else if exists k :: 0 <= k < max && k in free then LowestFrom(free, 0, max)
    else -1
  }

  predicate Accepts(p: Pool, env: Env, camera: Camera) {
    env.built && camera.code != "" && camera.url != "" && camera.code !in p.slots && |p.slots.Keys| < env.max
  }

  predicate Starts(env: Env, o: Outcome) { o.element && o.pad && (env.playing ==> o.sync) }

  function Placed(p: Pool, camera: Camera, id: nat): Pool {
    Pool(p.slots[camera.code := Slot(id, ToUri(camera.url), camera)], p.free - {id}, p.bound[id := camera])
  }

  function Added(p: Pool, env: Env, camera: Camera, preferred: int, o: Outcome): (r: (Pool, bool)) {
    if !Accepts(p, env, camera) then (p, false)
    else
      var id := AllocatedId(p.free, env.max, preferred);
      if id < 0 then (p, false)
      else if !o.element || !o.pad then (p.(free := p.free - {id} + {id}), false)
      else
        var placed := Placed(p, camera, id);
        if env.playing && !o.sync then (Removed(placed, camera.code).0, false) else (placed, true)
  }

  function Removed(p: Pool, code: string): (r: (Pool, bool)) {
    if code !in p.slots then (p, false)
    else
      var id := p.slots[code].sourceId;
      (Pool(p.slots - {code}, p.free + {id}, p.bound - {id}), true)
  }

  function Renewed(p: Pool, camera: Camera): Pool
    requires camera.code in p.slots
  {
    var slot := p.slots[camera.code];
    p.(slots := p.slots[camera.code := slot.(camera := camera)], bound := p.bound[slot.sourceId := camera])
  }

  function Updated(p: Pool, env: Env, camera: Camera, o: Outcome): (r: (Pool, bool)) {
    if camera.code !in p.slots then (p, false)
    else
      var slot := p.slots[camera.code];
      if ToUri(camera.url) == slot.uri then
        (Renewed(p, camera), true)
      else Added(Removed(p, camera.code).0, env, camera, slot.sourceId, o)
  }

  /** The last usable entry of each code. */
  function Desired(cameras: seq<Camera>): (d: map<string, Camera>)
    ensures forall c :: c in d ==> d[c].code == c && c != "" && d[c].url != ""
  {
    if cameras == [] then map[]
    else
      var d, camera := Desired(cameras[..|cameras| - 1]), cameras[|cameras| - 1];
      if camera.code == "" || camera.url == "" then d else d[camera.code := camera]
  }

  /** The codes of the usable entries, each once. */
  function Codes(cameras: seq<Camera>): (r: seq<string>)
    ensures Distinct(r) && forall c :: c in r <==> c in Desired(cameras)
  {
    if cameras == [] then []
    else
      var rest, camera := cameras[..|cameras| - 1], cameras[|cameras| - 1];
      if camera.code == "" || camera.url == "" || camera.code in Desired(rest) then Codes(rest) else Codes(rest) + [camera.code]
  }

  function IdsOf(p: Pool, codes: set<string>): set<nat> {
    set c | c in p.slots && c in codes :: p.slots[c].sourceId
  }

  /** The pool without the given codes; their ids are free again. */
  function Pruned(p: Pool, codes: set<string>): Pool {
    Pool(p.slots - codes, p.free + IdsOf(p, codes), p.bound - IdsOf(p, codes))
  }

  /** One desired camera: added when it has no slot, updated when it has. */
  function Reconciled(p: Pool, env: Env, camera: Camera, o: Outcome): Pool {
    if camera.code !in p.slots then Added(p, env, camera, -1, o).0 else Updated(p, env, camera, o).0
  }

  function ReconciledAll(p: Pool, env: Env, desired: map<string, Camera>, order: seq<string>,
                         outcomes: string -> Outcome): Pool
    requires forall c :: c in order ==> c in desired
  {
    if order == [] then p
    else
      var n := |order| - 1;
      Reconciled(ReconciledAll(p, env, desired, order[..n], outcomes), env, desired[order[n]], outcomes(order[n]))
  }

  /** Applying a camera list: cameras no longer wanted go, then the wanted ones are visited in code order. */
  function Applied(p: Pool, env: Env, cameras: seq<Camera>, outcomes: string -> Outcome): Pool {
    if !env.built then p
    else
      var desired := Desired(cameras);
      SortDistinct(Codes(cameras), TextLess);
      ReconciledAll(Pruned(p, p.slots.Keys - desired.Keys), env, desired, Sort(Codes(cameras), TextLess), outcomes)
  }

  // ---------------------------------------------------------------------------------------------
  // The invariant

  function Ids(max: nat): (r: set<nat>)
    ensures forall i :: i in r <==> 0 <= i < max
  {
    if max == 0 then {} else Ids(max - 1) + {max - 1}
  }

  /** Free ids and bound ids partition 0..max-1; slots and bindings are two views of one assignment. */
  ghost predicate Consistent(p: Pool, max: nat) {
    Partition(p.free, p.bound.Keys, p.slots.Keys, max) && Owned(p)
  }

  ghost predicate Partition(free: set<nat>, used: set<nat>, codes: set<string>, max: nat) {
    free !! used && free + used == Ids(max) && |codes| + |free| == max
  }

  ghost predicate Owned(p: Pool) {
    && (forall c :: c in p.slots ==> OwnsItsId(p, c))
    && (forall i :: i in p.bound ==> IsOwned(p, i))
  }

  ghost predicate OwnsItsId(p: Pool, c: string)
    requires c in p.slots
  {
    var slot := p.slots[c];
    && slot.camera.code == c && c != "" && slot.camera.url != "" && slot.uri == ToUri(slot.camera.url)
    && slot.sourceId in p.bound && p.bound[slot.sourceId] == slot.camera
  }

  ghost predicate IsOwned(p: Pool, i: nat)
    requires i in p.bound
  {
    p.bound[i].code in p.slots && p.slots[p.bound[i].code].sourceId == i
  }

  /** Two cameras never share an id, and an id of a slot is never free. */
  lemma SlotsAreInjective(p: Pool, max: nat, a: string, b: string)
    requires Consistent(p, max) && a in p.slots && b in p.slots
    ensures p.slots[a].sourceId < max && p.slots[a].sourceId !in p.free
    ensures p.slots[a].sourceId == p.slots[b].sourceId ==> a == b
  {
    assert OwnsItsId(p, a) && OwnsItsId(p, b);
    assert p.slots[a].sourceId in Ids(max);
  }

  lemma IdsCount(max: nat)
    ensures |Ids(max)| == max
  {
    if max > 0 {
      IdsCount(max - 1);
      assert Ids(max) == Ids(max - 1) + {max - 1};
    }
  }

  lemma EmptyPoolIsConsistent(max: nat)
    ensures Consistent(Pool(map[], Ids(max), map[]), max)
  {
    IdsCount(max);
  }

  lemma BelowCapacityHasFreeId(p: Pool, max: nat)
    requires Consistent(p, max) && |p.slots.Keys| < max
    ensures exists k :: 0 <= k < max && k in p.free
  {
    assert p.free != {};
    var k :| k in p.free;
    assert k in Ids(max);
  }

  /** Below capacity there is always a free id: the branch that reports none never runs. */
  lemma AllocationSucceeds(p: Pool, max: nat, preferred: int)
    requires Consistent(p, max) && |p.slots.Keys| < max
    ensures var id := AllocatedId(p.free, max, preferred);
            && 0 <= id < max && id in p.free
            && if 0 <= preferred < max && preferred in p.free then id == preferred else forall k :: k in p.free ==> id <= k
  {
    BelowCapacityHasFreeId(p, max);
    AllocatedIsFree(p.free, max, preferred);
    assert p.free <= Ids(max);
  }

  lemma AllocatedIsFree(free: set<nat>, max: nat, preferred: int)
    requires exists k :: 0 <= k < max && k in free
    ensures var id := AllocatedId(free, max, preferred);
            && 0 <= id < max && id in free
            && if 0 <= preferred < max && preferred in free then id == preferred else forall k :: 0 <= k < id ==> k !in free
  {
  }

  lemma PlacedOwned(p: Pool, camera: Camera, id: nat)
    requires Owned(p) && id !in p.bound && camera.code !in p.slots && camera.code != "" && camera.url != ""
    ensures Owned(Placed(p, camera, id))
  {
    var q := Placed(p, camera, id);
    forall c | c in q.slots ensures OwnsItsId(q, c) {
      if c != camera.code {
        assert OwnsItsId(p, c);
      }
    }
    forall i | i in q.bound ensures IsOwned(q, i) {
      if i != id {
        assert IsOwned(p, i);
      }
    }
  }

  lemma PlacedKeys(p: Pool, camera: Camera, id: nat)
    ensures Placed(p, camera, id).slots.Keys == p.slots.Keys + {camera.code}
    ensures Placed(p, camera, id).bound.Keys == p.bound.Keys + {id}
  {
  }

  lemma PlacedKeeps(p: Pool, max: nat, camera: Camera, id: nat)
    requires Consistent(p, max) && id in p.free && camera.code !in p.slots && camera.code != "" && camera.url != ""
    ensures Consistent(Placed(p, camera, id), max)
  {
    PlacedOwned(p, camera, id);
    PlacedKeys(p, camera, id);
    IdTaken(p.free, p.bound.Keys, p.slots.Keys, max, id, camera.code);
  }

  lemma IdTaken(free: set<nat>, used: set<nat>, codes: set<string>, max: nat, id: nat, code: string)
    requires Partition(free, used, codes, max) && id in free && code !in codes
    ensures Partition(free - {id}, used + {id}, codes + {code}, max)
  {
    assert (free - {id}) + (used + {id}) == free + used;
    assert |codes + {code}| == |codes| + 1;
  }

  lemma IdReturned(free: set<nat>, used: set<nat>, codes: set<string>, max: nat, id: nat, code: string)
    requires Partition(free, used, codes, max) && id in used && code in codes
    ensures Partition(free + {id}, used - {id}, codes - {code}, max)
  {
    assert (free + {id}) + (used - {id}) == free + used;
    assert |codes - {code}| == |codes| - 1;
  }

  lemma RemovedOwned(p: Pool, code: string)
    requires Owned(p) && code in p.slots
    ensures Owned(Removed(p, code).0)
  {
    var q := Removed(p, code).0;
    assert OwnsItsId(p, code);
    forall c | c in q.slots ensures OwnsItsId(q, c) {
      assert OwnsItsId(p, c);
    }
    forall i | i in q.bound ensures IsOwned(q, i) {
      assert IsOwned(p, i);
    }
  }

  lemma RemovedKeeps(p: Pool, max: nat, code: string)
    requires Consistent(p, max)
    ensures Consistent(Removed(p, code).0, max)
  {
    if code in p.slots {
      RemovedOwned(p, code);
      var id, q := p.slots[code].sourceId, Removed(p, code).0;
      assert OwnsItsId(p, code);
      assert q.slots.Keys == p.slots.Keys - {code} && q.bound.Keys == p.bound.Keys - {id};
      IdReturned(p.free, p.bound.Keys, p.slots.Keys, max, id, code);
    }
  }

  lemma TakenAndReturned(free: set<nat>, id: nat)
    requires id in free
    ensures free - {id} + {id} == free
  {
  }

  lemma AddedKeeps(p: Pool, env: Env, camera: Camera, preferred: int, o: Outcome)
    requires Consistent(p, env.max)
    ensures Consistent(Added(p, env, camera, preferred, o).0, env.max)
  {
    if Accepts(p, env, camera) {
      AllocationSucceeds(p, env.max, preferred);
      var id := AllocatedId(p.free, env.max, preferred);
      if !o.element || !o.pad {
        TakenAndReturned(p.free, id);
        assert Added(p, env, camera, preferred, o).0 == p;
      } else {
        PlacedKeeps(p, env.max, camera, id);
        RemovedKeeps(Placed(p, camera, id), env.max, camera.code);
      }
    }
  }

  lemma RenewedKeeps(p: Pool, max: nat, camera: Camera)
    requires Consistent(p, max) && camera.code in p.slots && ToUri(camera.url) == p.slots[camera.code].uri
    ensures Consistent(Renewed(p, camera), max)
  {
    var q := Renewed(p, camera);
    assert OwnsItsId(p, camera.code);
    assert q.bound.Keys == p.bound.Keys && q.slots.Keys == p.slots.Keys;
    RenewedOwned(p, camera);
  }

  lemma RenewedOwned(p: Pool, camera: Camera)
    requires Owned(p) && camera.code in p.slots && ToUri(camera.url) == p.slots[camera.code].uri
    ensures Owned(Renewed(p, camera))
  {
    var q := Renewed(p, camera);
    assert OwnsItsId(p, camera.code);
    forall c | c in q.slots ensures OwnsItsId(q, c) {
      assert OwnsItsId(p, c);
    }
    forall i | i in q.bound ensures IsOwned(q, i) {
      assert IsOwned(p, i);
    }
  }

  lemma UpdatedKeeps(p: Pool, env: Env, camera: Camera, o: Outcome)
    requires Consistent(p, env.max)
    ensures Consistent(Updated(p, env, camera, o).0, env.max)
  {
    if camera.code in p.slots {
      if ToUri(camera.url) == p.slots[camera.code].uri {
        RenewedKeeps(p, env.max, camera);
      } else {
        RemovedKeeps(p, env.max, camera.code);
        AddedKeeps(Removed(p, camera.code).0, env, camera, p.slots[camera.code].sourceId, o);
      }
    }
  }

  lemma PrunedStep(p: Pool, codes: set<string>, c: string)
    requires Owned(p) && c !in codes && c in p.slots
    ensures Removed(Pruned(p, codes), c).0 == Pruned(p, codes + {c})
  {
    var q, r := Removed(Pruned(p, codes), c).0, Pruned(p, codes + {c});
    IdsOfMore(p, codes, c);
    MinusTwice(p.slots, codes, {c});
    MinusTwice(p.bound, IdsOf(p, codes), {p.slots[c].sourceId});
    assert q.free == r.free;
  }

  lemma IdsOfMore(p: Pool, codes: set<string>, c: string)
    requires c in p.slots
    ensures IdsOf(p, codes + {c}) == IdsOf(p, codes) + {p.slots[c].sourceId}
  {
  }

  lemma MinusTwice<K, V>(m: map<K, V>, a: set<K>, b: set<K>)
    ensures m - a - b == m - (a + b)
  {
  }

  lemma PrunedNothing(p: Pool)
    ensures Pruned(p, {}) == p
  {
    assert IdsOf(p, {}) == {};
    assert p.slots - {} == p.slots && p.bound - {} == p.bound;
  }

  lemma {:induction false} PrunedKeeps(p: Pool, max: nat, codes: set<string>)
    requires Consistent(p, max) && codes <= p.slots.Keys
    ensures Consistent(Pruned(p, codes), max)
    decreases |codes|
  {
    if codes == {} {
      PrunedNothing(p);
    } else {
      var c :| c in codes;
      var rest := codes - {c};
      assert rest + {c} == codes;
      PrunedKeeps(p, max, rest);
      OneMorePruned(p, max, rest, c);
    }
  }

  lemma OneMorePruned(p: Pool, max: nat, codes: set<string>, c: string)
    requires Owned(p) && Consistent(Pruned(p, codes), max) && c !in codes && c in p.slots
    ensures Consistent(Pruned(p, codes + {c}), max)
  {
    RemovedKeeps(Pruned(p, codes), max, c);
    PrunedStep(p, codes, c);
  }

  lemma ReconciledKeeps(p: Pool, env: Env, camera: Camera, o: Outcome)
    requires Consistent(p, env.max)
    ensures Consistent(Reconciled(p, env, camera, o), env.max)
  {
    AddedKeeps(p, env, camera, -1, o);
    UpdatedKeeps(p, env, camera, o);
  }

  lemma {:induction false} ReconciledAllKeeps(p: Pool, env: Env, desired: map<string, Camera>, order: seq<string>,
                                              outcomes: string -> Outcome)
    requires Consistent(p, env.max) && forall c :: c in order ==> c in desired
    ensures Consistent(ReconciledAll(p, env, desired, order, outcomes), env.max)
  {
    if order == [] {
    } else {
      var n := |order| - 1;
      ReconciledAllKeeps(p, env, desired, order[..n], outcomes);
      ReconciledKeeps(ReconciledAll(p, env, desired, order[..n], outcomes), env, desired[order[n]], outcomes(order[n]));
    }
  }

  lemma AppliedKeeps(p: Pool, env: Env, cameras: seq<Camera>, outcomes: string -> Outcome)
    requires Consistent(p, env.max)
    ensures Consistent(Applied(p, env, cameras, outcomes), env.max)
  {
    if env.built {
      var desired := Desired(cameras);
      SortDistinct(Codes(cameras), TextLess);
      PrunedKeeps(p, env.max, p.slots.Keys - desired.Keys);
      ReconciledAllKeeps(Pruned(p, p.slots.Keys - desired.Keys), env, desired, Sort(Codes(cameras), TextLess), outcomes);
    }
  }

  // --- whole runs

  datatype Op =
    | AddOp(camera: Camera, outcome: Outcome)
    | RemoveOp(code: string)
    | UpdateOp(camera: Camera, outcome: Outcome)
    | ApplyOp(cameras: seq<Camera>, outcomes: string -> Outcome)
    | PlayOp(playing: bool)

  function Step(p: Pool, env: Env, op: Op): (Pool, Env) {
    match op
    case AddOp(camera, o) => (Added(p, env, camera, -1, o).0, env)
    case RemoveOp(code) => (Removed(p, code).0, env)
    case UpdateOp(camera, o) => (Updated(p, env, camera, o).0, env)
    case ApplyOp(cameras, outcomes) => (Applied(p, env, cameras, outcomes), env)
    case PlayOp(playing) => (p, env.(playing := playing))
  }

  function Run(p: Pool, env: Env, ops: seq<Op>): (Pool, Env) {
    if ops == [] then (p, env)
    else
      var (q, e) := Run(p, env, ops[..|ops| - 1]);
      Step(q, e, ops[|ops| - 1])
  }

  lemma StepKeeps(p: Pool, env: Env, op: Op)
    requires Consistent(p, env.max)
    ensures Consistent(Step(p, env, op).0, env.max) && Step(p, env, op).1.max == env.max
  {
    var q := Step(p, env, op).0;
    match op
    case AddOp(camera, o) =>
      assert q == Added(p, env, camera, -1, o).0;
      AddedKeeps(p, env, camera, -1, o);
    case RemoveOp(code) =>
      assert q == Removed(p, code).0;
      RemovedKeeps(p, env.max, code);
    case UpdateOp(camera, o) =>
      assert q == Updated(p, env, camera, o).0;
      UpdatedKeeps(p, env, camera, o);
    case ApplyOp(cameras, outcomes) =>
      assert q == Applied(p, env, cameras, outcomes);
      AppliedKeeps(p, env, cameras, outcomes);
    case PlayOp(playing) =>
  }

  /** On every run, with every outcome of every GStreamer call, free ids and slot ids partition 0..max-1, no two
      cameras share an id, and the probe is bound to exactly the slots. */
  lemma {:induction false} RunsStayConsistent(p: Pool, env: Env, ops: seq<Op>)
    requires Consistent(p, env.max)
    ensures Consistent(Run(p, env, ops).0, env.max) && Run(p, env, ops).1.max == env.max
  {
    if ops == [] {
    } else {
      RunsStayConsistent(p, env, ops[..|ops| - 1]);
      var (q, e) := Run(p, env, ops[..|ops| - 1]);
      StepKeeps(q, e, ops[|ops| - 1]);
    }
  }

  // ---------------------------------------------------------------------------------------------
  // What applying a list achieves

  lemma ReconciledFrame(p: Pool, env: Env, camera: Camera, o: Outcome, c: string)
    requires c != camera.code
    ensures var r := Reconciled(p, env, camera, o);
            (c in r.slots <==> c in p.slots) && (c in p.slots ==> r.slots[c] == p.slots[c])
  {
  }

  /** A camera that has a slot keeps it and its id, with the new entry, unless the URI changed and the new source
      did not start. */
  lemma ReconciledOld(p: Pool, env: Env, camera: Camera, o: Outcome)
    requires Consistent(p, env.max) && env.built && camera.code in p.slots && camera.url != ""
    ensures var r, slot := Reconciled(p, env, camera, o), p.slots[camera.code];
            if ToUri(camera.url) == slot.uri || Starts(env, o)
            then camera.code in r.slots && r.slots[camera.code] == Slot(slot.sourceId, ToUri(camera.url), camera)
            else camera.code !in r.slots
  {
    if ToUri(camera.url) != p.slots[camera.code].uri {
      ReplacedOld(p, env, camera, o);
    }
  }

  lemma ReplacedOld(p: Pool, env: Env, camera: Camera, o: Outcome)
    requires Consistent(p, env.max) && env.built && camera.code in p.slots && camera.url != ""
    requires ToUri(camera.url) != p.slots[camera.code].uri
    ensures var r, slot := Reconciled(p, env, camera, o), p.slots[camera.code];
            if Starts(env, o)
            then camera.code in r.slots && r.slots[camera.code] == Slot(slot.sourceId, ToUri(camera.url), camera)
            else camera.code !in r.slots
  {
    var slot := p.slots[camera.code];
    assert OwnsItsId(p, camera.code);
    RemovedFrees(p, env.max, camera.code);
    AllocationSucceeds(Removed(p, camera.code).0, env.max, slot.sourceId);
  }

  lemma RemovedFrees(p: Pool, max: nat, code: string)
    requires Consistent(p, max) && code in p.slots
    ensures var q, id := Removed(p, code).0, p.slots[code].sourceId;
            Consistent(q, max) && |q.slots.Keys| < max && id in q.free && id < max
  {
    assert OwnsItsId(p, code);
    RemovedKeeps(p, max, code);
    assert p.slots[code].sourceId in Ids(max);
    assert Removed(p, code).0.free != {};
  }

  /** A camera without a slot gets one exactly when there is capacity and its source starts. */
  lemma ReconciledNew(p: Pool, env: Env, camera: Camera, o: Outcome)
    requires Consistent(p, env.max) && env.built && camera.code !in p.slots && camera.code != "" && camera.url != ""
    ensures var r := Reconciled(p, env, camera, o);
            if Starts(env, o) && |p.slots.Keys| < env.max
            then camera.code in r.slots && r.slots[camera.code].uri == ToUri(camera.url) && r.slots[camera.code].camera == camera
            else r == p
  {
    if |p.slots.Keys| < env.max {
      AllocationSucceeds(p, env.max, -1);
      var id := AllocatedId(p.free, env.max, -1);
      TakenAndReturned(p.free, id);
      if env.playing && o.element && o.pad && !o.sync {
        PlacedAndRemoved(p, camera, id, env.max);
      }
    }
  }

  lemma PlacedAndRemoved(p: Pool, camera: Camera, id: nat, max: nat)
    requires Consistent(p, max) && camera.code !in p.slots && id in p.free
    ensures Removed(Placed(p, camera, id), camera.code).0 == p
  {
    assert id !in p.bound;
    TakenAndReturned(p.free, id);
    BackToMap(p.slots, camera.code, Slot(id, ToUri(camera.url), camera));
    BackToMap(p.bound, id, camera);
  }

  lemma BackToMap<K, V>(m: map<K, V>, k: K, v: V)
    requires k !in m
    ensures m[k := v] - {k} == m
  {
  }

  /** Every listed code stands for a usable camera of the list. */
  ghost predicate Usable(desired: map<string, Camera>, order: seq<string>) {
    Distinct(order) && forall c :: c in order ==> c in desired && desired[c].code == c && c != "" && desired[c].url != ""
  }

  ghost predicate AllStart(env: Env, order: seq<string>, outcomes: string -> Outcome) {
    forall c :: c in order ==> Starts(env, outcomes(c))
  }

  lemma UsablePrefix(desired: map<string, Camera>, order: seq<string>)
    requires Usable(desired, order) && order != []
    ensures Usable(desired, order[..|order| - 1]) && order[|order| - 1] !in order[..|order| - 1]
    ensures forall c :: c in order <==> c in order[..|order| - 1] || c == order[|order| - 1]
  {
    assert order == order[..|order| - 1] + [order[|order| - 1]];
  }

  lemma {:induction false} OthersUntouched(p: Pool, env: Env, desired: map<string, Camera>, order: seq<string>,
                                           outcomes: string -> Outcome, c: string)
    requires Usable(desired, order) && c !in order
    ensures var r := ReconciledAll(p, env, desired, order, outcomes);
            (c in r.slots <==> c in p.slots) && (c in p.slots ==> r.slots[c] == p.slots[c])
  {
    if order == [] {
    } else {
      var n := |order| - 1;
      UsablePrefix(desired, order);
      OthersUntouched(p, env, desired, order[..n], outcomes, c);
      ReconciledFrame(ReconciledAll(p, env, desired, order[..n], outcomes), env, desired[order[n]], outcomes(order[n]), c);
    }
  }

  lemma {:induction false} OldCameras(p: Pool, env: Env, desired: map<string, Camera>, order: seq<string>,
                                      outcomes: string -> Outcome, c: string)
    requires Consistent(p, env.max) && env.built && Usable(desired, order) && c in order && c in p.slots
    ensures var r := ReconciledAll(p, env, desired, order, outcomes);
            if ToUri(desired[c].url) == p.slots[c].uri || Starts(env, outcomes(c))
            then c in r.slots && r.slots[c] == Slot(p.slots[c].sourceId, ToUri(desired[c].url), desired[c])
            else c !in r.slots
  {
    var n := |order| - 1;
    var q := ReconciledAll(p, env, desired, order[..n], outcomes);
    UsablePrefix(desired, order);
    ReconciledAllKeeps(p, env, desired, order[..n], outcomes);
    if c == order[n] {
      OthersUntouched(p, env, desired, order[..n], outcomes, c);
      ReconciledOld(q, env, desired[c], outcomes(c));
    } else {
      OldCameras(p, env, desired, order[..n], outcomes, c);
      ReconciledFrame(q, env, desired[order[n]], outcomes(order[n]), c);
    }
  }

  lemma {:induction false} NewCameras(p: Pool, env: Env, desired: map<string, Camera>, order: seq<string>,
                                      outcomes: string -> Outcome, c: string)
    requires Consistent(p, env.max) && env.built && Usable(desired, order) && c in order && c !in p.slots
    ensures var r := ReconciledAll(p, env, desired, order, outcomes);
            && (c in r.slots ==> Starts(env, outcomes(c)))
            && (c in r.slots ==> r.slots[c].camera == desired[c] && r.slots[c].uri == ToUri(desired[c].url))
            && (AllStart(env, order, outcomes) && c !in r.slots ==> |r.slots.Keys| == env.max)
  {
    var n := |order| - 1;
    var q := ReconciledAll(p, env, desired, order[..n], outcomes);
    UsablePrefix(desired, order);
    ReconciledAllKeeps(p, env, desired, order[..n], outcomes);
    if c == order[n] {
      OthersUntouched(p, env, desired, order[..n], outcomes, c);
      ReconciledNew(q, env, desired[c], outcomes(c));
    } else {
      NewCameras(p, env, desired, order[..n], outcomes, c);
      ReconciledFrame(q, env, desired[order[n]], outcomes(order[n]), c);
      if AllStart(env, order, outcomes) && c !in q.slots {
        NothingLost(q, env, desired[order[n]], outcomes(order[n]));
      }
    }
  }

  /** A step whose source starts loses no camera. */
  lemma NothingLost(p: Pool, env: Env, camera: Camera, o: Outcome)
    requires Consistent(p, env.max) && env.built && camera.code != "" && camera.url != "" && Starts(env, o)
    ensures p.slots.Keys <= Reconciled(p, env, camera, o).slots.Keys
    ensures |p.slots.Keys| <= |Reconciled(p, env, camera, o).slots.Keys| <= env.max
  {
    var r := Reconciled(p, env, camera, o);
    forall c | c in p.slots ensures c in r.slots {
      if c == camera.code {
        ReconciledOld(p, env, camera, o);
      } else {
        ReconciledFrame(p, env, camera, o, c);
      }
    }
    ReconciledKeeps(p, env, camera, o);
    SubsetSize(p.slots.Keys, r.slots.Keys);
  }

  lemma {:induction false} SubsetSize<T>(a: set<T>, b: set<T>)
    requires a <= b
    ensures |a| <= |b|
    ensures |a| == |b| ==> a == b
  {
    assert b == a + (b - a);
    assert |b| == |a| + |b - a|;
    if b - a == {} {
      assert a == b;
    }
  }

  /** How a single code fares. */
  ghost predicate Fares(p: Pool, env: Env, d: map<string, Camera>, outcomes: string -> Outcome, r: Pool, c: string) {
    if c !in d then c !in r.slots
    else
      && (c in r.slots ==> r.slots[c].camera == d[c] && r.slots[c].uri == ToUri(d[c].url))
      && (c in p.slots && c in r.slots ==> r.slots[c].sourceId == p.slots[c].sourceId)
      && (c in p.slots ==> (c in r.slots <==> ToUri(d[c].url) == p.slots[c].uri || Starts(env, outcomes(c))))
      && (c !in p.slots && c in r.slots ==> Starts(env, outcomes(c)))
  }

  lemma PrunedSlots(p: Pool, d: map<string, Camera>, c: string)
    ensures var start := Pruned(p, p.slots.Keys - d.Keys);
            (c in start.slots <==> c in p.slots && c in d) && (c in start.slots ==> start.slots[c] == p.slots[c])
  {
  }

  lemma AppliedFares(p: Pool, env: Env, cameras: seq<Camera>, outcomes: string -> Outcome, c: string)
    requires Consistent(p, env.max) && env.built
    ensures var d, r := Desired(cameras), Applied(p, env, cameras, outcomes);
            && Fares(p, env, d, outcomes, r, c)
            && (Missing(p, d, r, c) && AllStart(env, Codes(cameras), outcomes) ==> |r.slots.Keys| == env.max)
  {
    var d, order := Desired(cameras), Sort(Codes(cameras), TextLess);
    SortDistinct(Codes(cameras), TextLess);
    PrunedKeeps(p, env.max, p.slots.Keys - d.Keys);
    PrunedSlots(p, d, c);
    FaresFrom(p, Pruned(p, p.slots.Keys - d.Keys), env, d, order, outcomes, c);
  }

  /** A wanted camera that is new and did not get in. */
  predicate Missing(p: Pool, d: map<string, Camera>, r: Pool, c: string) {
    c in d && c !in p.slots && c !in r.slots
  }

  lemma FaresFrom(p: Pool, start: Pool, env: Env, d: map<string, Camera>, order: seq<string>,
                  outcomes: string -> Outcome, c: string)
    requires Consistent(start, env.max) && env.built && Usable(d, order) && (c in order <==> c in d)
    requires (c in start.slots <==> c in p.slots && c in d) && (c in start.slots ==> start.slots[c] == p.slots[c])
    ensures var r := ReconciledAll(start, env, d, order, outcomes);
            && Fares(p, env, d, outcomes, r, c)
            && (Missing(p, d, r, c) && AllStart(env, order, outcomes) ==> |r.slots.Keys| == env.max)
  {
    if c !in d {
      OthersUntouched(start, env, d, order, outcomes, c);
    } else if c in p.slots {
      OldCameras(start, env, d, order, outcomes, c);
    } else {
      NewCameras(start, env, d, order, outcomes, c);
    }
  }

  /** For every outcome of every start: only wanted cameras are left, each with its new entry; a camera that had a
      slot keeps its id, and loses the slot exactly when its URI changed and the new source did not start. */
  lemma ApplyGuarantee(p: Pool, env: Env, cameras: seq<Camera>, outcomes: string -> Outcome)
    requires Consistent(p, env.max) && env.built
    ensures forall c :: Fares(p, env, Desired(cameras), outcomes, Applied(p, env, cameras, outcomes), c)
    ensures Applied(p, env, cameras, outcomes).slots.Keys <= Desired(cameras).Keys
  {
    var d, r := Desired(cameras), Applied(p, env, cameras, outcomes);
    forall c ensures Fares(p, env, d, outcomes, r, c) {
      AppliedFares(p, env, cameras, outcomes, c);
    }
    forall c | c in r.slots ensures c in d {
      assert Fares(p, env, d, outcomes, r, c);
    }
  }

  /** When every source starts, exactly min(max, |desired|) cameras are left, and nobody is missing below capacity. */
  lemma ApplyFills(p: Pool, env: Env, cameras: seq<Camera>, outcomes: string -> Outcome)
    requires Consistent(p, env.max) && env.built && AllStart(env, Codes(cameras), outcomes)
    ensures var d, r := Desired(cameras).Keys, Applied(p, env, cameras, outcomes).slots.Keys;
            && |r| == (if |d| < env.max then |d| else env.max)
            && (forall c :: c in d && c !in r ==> |r| == env.max)
  {
    var d, r := Desired(cameras), Applied(p, env, cameras, outcomes);
    ApplyGuarantee(p, env, cameras, outcomes);
    AppliedKeeps(p, env, cameras, outcomes);
    assert |r.slots.Keys| <= env.max;
    forall c | c in d && c !in r.slots ensures |r.slots.Keys| == env.max {
      AppliedFares(p, env, cameras, outcomes, c);
      assert Starts(env, outcomes(c));
    }
    FullOrAll(r.slots.Keys, d.Keys, env.max);
  }

  lemma FullOrAll(r: set<string>, d: set<string>, max: nat)
    requires r <= d && |r| <= max && forall c :: c in d && c !in r ==> |r| == max
    ensures |r| == if |d| < max then |d| else max
  {
    SubsetSize(r, d);
    if r != d {
      var c :| c in d && c !in r;
    }
  }

  /** The camera of this code needs no start, or its start succeeds. */
  predicate Comes(p: Pool, env: Env, d: map<string, Camera>, outcomes: string -> Outcome, c: string)
    requires c in d
  {
    (c in p.slots && ToUri(d[c].url) == p.slots[c].uri) || Starts(env, outcomes(c))
  }

  /** No camera outside the wanted ones gets a slot while they are visited. */
  lemma {:induction false} StaysWithin(p: Pool, env: Env, desired: map<string, Camera>, order: seq<string>,
                                       outcomes: string -> Outcome)
    requires Usable(desired, order)
    ensures ReconciledAll(p, env, desired, order, outcomes).slots.Keys <= p.slots.Keys + set c | c in order
  {
    if order == [] {
    } else {
      var n := |order| - 1;
      UsablePrefix(desired, order);
      StaysWithin(p, env, desired, order[..n], outcomes);
      var q := ReconciledAll(p, env, desired, order[..n], outcomes);
      forall c | c in Reconciled(q, env, desired[order[n]], outcomes(order[n])).slots && c != order[n] ensures c in q.slots {
        ReconciledFrame(q, env, desired[order[n]], outcomes(order[n]), c);
      }
    }
  }

  /** A wanted camera has not got its slot before its turn, so there is room for it when all wanted ones fit. */
  lemma RoomAtItsTurn(p: Pool, env: Env, desired: map<string, Camera>, order: seq<string>, outcomes: string -> Outcome,
                      c: string)
    requires Usable(desired, order) && p.slots.Keys <= desired.Keys && |desired.Keys| <= env.max
    requires c in desired && c !in order && c !in p.slots
    ensures |ReconciledAll(p, env, desired, order, outcomes).slots.Keys| < env.max
  {
    StaysWithin(p, env, desired, order, outcomes);
    var r := ReconciledAll(p, env, desired, order, outcomes).slots.Keys;
    assert r <= desired.Keys - {c};
    SubsetSize(r, desired.Keys - {c});
  }

  lemma {:induction false} NewCamerasExact(p: Pool, env: Env, desired: map<string, Camera>, order: seq<string>,
                                           outcomes: string -> Outcome, c: string)
    requires Consistent(p, env.max) && env.built && Usable(desired, order) && c in order && c !in p.slots
    requires p.slots.Keys <= desired.Keys && |desired.Keys| <= env.max
    ensures c in ReconciledAll(p, env, desired, order, outcomes).slots <==> Starts(env, outcomes(c))
  {
    var n := |order| - 1;
    var q := ReconciledAll(p, env, desired, order[..n], outcomes);
    UsablePrefix(desired, order);
    ReconciledAllKeeps(p, env, desired, order[..n], outcomes);
    if c == order[n] {
      OthersUntouched(p, env, desired, order[..n], outcomes, c);
      RoomAtItsTurn(p, env, desired, order[..n], outcomes, c);
      ReconciledNew(q, env, desired[c], outcomes(c));
    } else {
      NewCamerasExact(p, env, desired, order[..n], outcomes, c);
      ReconciledFrame(q, env, desired[order[n]], outcomes(order[n]), c);
    }
  }

  /** When all wanted cameras fit, a wanted camera has a slot afterwards exactly when it runs already under the same URI
      or its start succeeds. */
  lemma ApplyExact(p: Pool, env: Env, cameras: seq<Camera>, outcomes: string -> Outcome, c: string)
    requires Consistent(p, env.max) && env.built && |Desired(cameras).Keys| <= env.max && c in Desired(cameras)
    ensures c in Applied(p, env, cameras, outcomes).slots <==> Comes(p, env, Desired(cameras), outcomes, c)
  {
    var d, order := Desired(cameras), Sort(Codes(cameras), TextLess);
    if c in p.slots {
      AppliedFares(p, env, cameras, outcomes, c);
    } else {
      SortDistinct(Codes(cameras), TextLess);
      PrunedKeeps(p, env.max, p.slots.Keys - d.Keys);
      PrunedSlots(p, d, c);
      NewCamerasExact(Pruned(p, p.slots.Keys - d.Keys), env, d, order, outcomes, c);
    }
  }

  /** All wanted cameras have a slot afterwards exactly when they fit and each of them runs already under the same URI or
      starts. */
  lemma AllComeIff(p: Pool, env: Env, cameras: seq<Camera>, outcomes: string -> Outcome)
    requires Consistent(p, env.max) && env.built
    ensures var d := Desired(cameras);
            d.Keys <= Applied(p, env, cameras, outcomes).slots.Keys <==>
              |d.Keys| <= env.max && forall c :: c in d ==> Comes(p, env, d, outcomes, c)
  {
    var d, r := Desired(cameras), Applied(p, env, cameras, outcomes);
    AppliedKeeps(p, env, cameras, outcomes);
    if d.Keys <= r.slots.Keys {
      SubsetSize(d.Keys, r.slots.Keys);
    }
    if |d.Keys| <= env.max {
      forall c | c in d ensures c in r.slots <==> Comes(p, env, d, outcomes, c) {
        ApplyExact(p, env, cameras, outcomes, c);
      }
    }
  }

  /** A pool that already has every listed camera it can hold. */
  ghost predicate Settled(p: Pool, env: Env, desired: map<string, Camera>, c: string)
    requires c in desired
  {
    if c in p.slots then p.slots[c].camera == desired[c] && p.slots[c].uri == ToUri(desired[c].url)
    else |p.slots.Keys| >= env.max
  }

  lemma SettledStep(p: Pool, env: Env, desired: map<string, Camera>, c: string, o: Outcome)
    requires Consistent(p, env.max) && c in desired && desired[c].code == c && Settled(p, env, desired, c)
    ensures Reconciled(p, env, desired[c], o) == p
  {
    if c in p.slots {
      RenewedSame(p, desired[c]);
    } else {
      assert !Accepts(p, env, desired[c]);
    }
  }

  lemma RenewedSame(p: Pool, camera: Camera)
    requires Owned(p) && camera.code in p.slots && p.slots[camera.code].camera == camera
    ensures Renewed(p, camera) == p
  {
    assert OwnsItsId(p, camera.code);
    SameEntry(p.slots, camera.code, p.slots[camera.code]);
    SameEntry(p.bound, p.slots[camera.code].sourceId, camera);
  }

  lemma SameEntry<K, V>(m: map<K, V>, k: K, v: V)
    requires k in m && m[k] == v
    ensures m[k := v] == m
  {
  }

  lemma {:induction false} SettledAll(p: Pool, env: Env, desired: map<string, Camera>, order: seq<string>,
                                      outcomes: string -> Outcome)
    requires Consistent(p, env.max) && Usable(desired, order)
    requires forall c :: c in order ==> Settled(p, env, desired, c)
    ensures ReconciledAll(p, env, desired, order, outcomes) == p
  {
    if order == [] {
    } else {
      var n := |order| - 1;
      UsablePrefix(desired, order);
      SettledAll(p, env, desired, order[..n], outcomes);
      SettledStep(p, env, desired, order[n], outcomes(order[n]));
    }
  }

  lemma SettledAfterApply(p: Pool, env: Env, cameras: seq<Camera>, outcomes: string -> Outcome, c: string)
    requires Consistent(p, env.max) && env.built && AllStart(env, Codes(cameras), outcomes) && c in Desired(cameras)
    ensures Settled(Applied(p, env, cameras, outcomes), env, Desired(cameras), c)
  {
    ApplyGuarantee(p, env, cameras, outcomes);
    ApplyFills(p, env, cameras, outcomes);
    assert Fares(p, env, Desired(cameras), outcomes, Applied(p, env, cameras, outcomes), c);
  }

  lemma NothingToPrune(r: Pool, wanted: set<string>)
    requires r.slots.Keys <= wanted
    ensures Pruned(r, r.slots.Keys - wanted) == r
  {
    assert r.slots.Keys - wanted == {};
    PrunedNothing(r);
  }

  /** A pool of wanted cameras only, all settled, is what the list makes of it. */
  lemma SettledIsApplied(r: Pool, env: Env, cameras: seq<Camera>, again: string -> Outcome)
    requires Consistent(r, env.max) && env.built && r.slots.Keys <= Desired(cameras).Keys
    requires forall c :: c in Desired(cameras) ==> Settled(r, env, Desired(cameras), c)
    ensures Applied(r, env, cameras, again) == r
  {
    SortDistinct(Codes(cameras), TextLess);
    NothingToPrune(r, Desired(cameras).Keys);
    SettledAll(r, env, Desired(cameras), Sort(Codes(cameras), TextLess), again);
  }

  /** Applying the same list again changes nothing, whatever GStreamer would answer then. */
  lemma ApplyTwice(p: Pool, env: Env, cameras: seq<Camera>, outcomes: string -> Outcome, again: string -> Outcome)
    requires Consistent(p, env.max) && env.built && AllStart(env, Codes(cameras), outcomes)
    ensures var r := Applied(p, env, cameras, outcomes); Applied(r, env, cameras, again) == r
  {
    var d, r := Desired(cameras), Applied(p, env, cameras, outcomes);
    forall c | c in d ensures Settled(r, env, d, c) {
      SettledAfterApply(p, env, cameras, outcomes, c);
    }
    ApplyGuarantee(p, env, cameras, outcomes);
    AppliedKeeps(p, env, cameras, outcomes);
    SettledIsApplied(r, env, cameras, again);
  }

  lemma OneLess(all: set<string>, todo: set<string>, c: string)
    requires todo <= all && c in todo
    ensures all - (todo - {c}) == all - todo + {c} && |todo - {c}| < |todo|
  {
  }

  lemma NoneOrAll(all: set<string>)
    ensures all - all == {} && all - {} == all
  {
  }

  // ---------------------------------------------------------------------------------------------
  // The object

  datatype SourceSpec = SourceSpec(uri: string, code: string)

  function CameraFromSpec(spec: SourceSpec): Camera { Camera(spec.code, spec.code, "", spec.uri) }

  ghost predicate HasSlot(p: Pool, spec: SourceSpec, id: nat) {
    spec.code in p.slots && p.slots[spec.code].sourceId == id && p.slots[spec.code].uri == ToUri(spec.uri)
  }

  lemma AddedIsPlaced(p: Pool, env: Env, camera: Camera, id: nat, o: Outcome)
    requires id < env.max && id in p.free && Added(p, env, camera, id, o).1
    ensures Added(p, env, camera, id, o).0 == Placed(p, camera, id) && camera.code !in p.slots
  {
  }

  lemma PlacedCount(p: Pool, camera: Camera, id: nat)
    requires camera.code !in p.slots
    ensures |Placed(p, camera, id).slots.Keys| == |p.slots.Keys| + 1
  {
    PlacedKeys(p, camera, id);
  }

  /** Sources added one after the other with their position as the preferred id get that id. */
  ghost predicate InOrder(p: Pool, max: nat, sources: seq<SourceSpec>, n: nat)
    requires n <= |sources|
  {
    && |p.slots.Keys| == n
    && (forall k :: n <= k < max ==> k in p.free)
    && (forall j :: 0 <= j < n ==> HasSlot(p, sources[j], j))
  }

  ghost predicate Filled(p: Pool, max: nat, sources: seq<SourceSpec>, n: nat)
    requires n <= |sources|
  {
    Consistent(p, max) && InOrder(p, max, sources, n)
  }

  lemma NothingFilled(max: nat, sources: seq<SourceSpec>)
    ensures Filled(Pool(map[], Ids(max), map[]), max, sources, 0)
  {
    EmptyPoolIsConsistent(max);
  }

  lemma AddedAt(p: Pool, env: Env, sources: seq<SourceSpec>, n: nat, o: Outcome)
    requires n < |sources| <= env.max && InOrder(p, env.max, sources, n)
    requires Added(p, env, CameraFromSpec(sources[n]), n, o).1
    ensures InOrder(Added(p, env, CameraFromSpec(sources[n]), n, o).0, env.max, sources, n + 1)
  {
    var camera := CameraFromSpec(sources[n]);
    AddedIsPlaced(p, env, camera, n, o);
    PlacedCount(p, camera, n);
    var q := Placed(p, camera, n);
    forall j | 0 <= j < n + 1 ensures HasSlot(q, sources[j], j) {
      assert j < n ==> HasSlot(p, sources[j], j);
    }
  }

  class Sources {
    var slots: map<string, Slot>
    var freeIds: set<nat>
    var bound: map<nat, Camera>
    var built: bool
    var playing: bool
    var maxSources: nat

    function View(): Pool reads this { Pool(slots, freeIds, bound) }

    function EnvNow(): Env reads this { Env(built, playing, maxSources) }

    constructor ()
      ensures !built && !playing && View() == Pool(map[], {}, map[])
    {
      slots, freeIds, bound := map[], {}, map[];
      built, playing, maxSources := false, false, 0;
    }

    /** Builds the pipeline around the configured sources; the i-th of them gets id i. */
    method Build(sources: seq<SourceSpec>, batchSize: int, outcomes: string -> Outcome) returns (ok: bool)
      requires !built && !playing && View() == Pool(map[], {}, map[])
      modifies this
      ensures ok ==> built && maxSources == (if batchSize > 0 then batchSize else |sources|)
      ensures built ==> Consistent(View(), maxSources) && |sources| <= maxSources
      ensures ok ==> InOrder(View(), maxSources, sources, |sources|)
    {
      if batchSize > 0 {
        maxSources := batchSize;
      } else if sources != [] {
        maxSources := |sources|;
      } else {
        return false;
      }
      if |sources| > maxSources {
        return false;
      }
      ok := FillPool(sources, outcomes);
    }

    method FillPool(sources: seq<SourceSpec>, outcomes: string -> Outcome) returns (ok: bool)
      requires |sources| <= maxSources && slots == map[] && bound == map[]
      modifies `built, `slots, `freeIds, `bound
      ensures built && Consistent(View(), maxSources)
      ensures ok ==> InOrder(View(), maxSources, sources, |sources|)
    {
      built := true;
      freeIds := Ids(maxSources);
      ok := AddAll(sources, outcomes);
    }

    method AddAll(sources: seq<SourceSpec>, outcomes: string -> Outcome) returns (ok: bool)
      requires |sources| <= maxSources && View() == Pool(map[], Ids(maxSources), map[])
      modifies `slots, `freeIds, `bound
      ensures Consistent(View(), maxSources)
      ensures ok ==> InOrder(View(), maxSources, sources, |sources|)
    {
      NothingFilled(maxSources, sources);
      for i := 0 to |sources|
        invariant Filled(View(), maxSources, sources, i)
      {
        var added := AddNext(sources, i, outcomes(sources[i].code));
        if !added {
          return false;
        }
      }
      return true;
    }

    method AddNext(sources: seq<SourceSpec>, n: nat, o: Outcome) returns (ok: bool)
      requires n < |sources| <= maxSources && Filled(View(), maxSources, sources, n)
      modifies `slots, `freeIds, `bound
      ensures Consistent(View(), maxSources)
      ensures ok ==> Filled(View(), maxSources, sources, n + 1)
    {
      ghost var p, env := View(), EnvNow();
      var camera := CameraFromSpec(sources[n]);
      AddedKeeps(p, env, camera, n, o);
      ok := AddSourceInternal(camera, n, o);
      if ok {
        AddedAt(p, env, sources, n, o);
      }
    }

    method AllocateSourceId(preferred: int) returns (id: int)
      modifies `freeIds
      ensures id == AllocatedId(old(freeIds), maxSources, preferred)
      ensures freeIds == if id < 0 then old(freeIds) else old(freeIds) - {id}
    {
      if 0 <= preferred < maxSources && preferred in freeIds {
        freeIds := freeIds - {preferred};
        return preferred;
      }
      if !exists k :: 0 <= k < maxSources && k in freeIds {
        return -1;
      }
      id := LowestFrom(freeIds, 0, maxSources);
      freeIds := freeIds - {id};
    }

    method AddSourceInternal(camera: Camera, preferred: int, o: Outcome) returns (ok: bool)
      modifies `slots, `freeIds, `bound
      ensures (View(), ok) == Added(old(View()), EnvNow(), camera, preferred, o)
    {
      if !built || camera.code == "" || camera.url == "" || camera.code in slots || |slots.Keys| >= maxSources {
        return false;
      }
      var id := AllocateSourceId(preferred);
      if id < 0 {
        return false;
      }
      if !o.element {
        freeIds := freeIds + {id};
        return false;
      }
      if !o.pad {
        freeIds := freeIds + {id};
        return false;
      }
      slots := slots[camera.code := Slot(id, ToUri(camera.url), camera)];
      bound := bound[id := camera];
      if playing {
        if !o.sync {
          var _ := RemoveSourceInternal(camera.code);
          return false;
        }
      }
      return true;
    }

    method RemoveSourceInternal(code: string) returns (ok: bool)
      modifies `slots, `freeIds, `bound
      ensures (View(), ok) == Removed(old(View()), code)
    {
      if code !in slots {
        return false;
      }
      var slot := slots[code];
      slots := slots - {code};
      freeIds := freeIds + {slot.sourceId};
      bound := bound - {slot.sourceId};
      return true;
    }

    method AddSource(camera: Camera, o: Outcome) returns (ok: bool)
      modifies `slots, `freeIds, `bound
      ensures (View(), ok) == Added(old(View()), EnvNow(), camera, -1, o)
    {
      ok := AddSourceInternal(camera, -1, o);
    }

    method UpdateSource(camera: Camera, o: Outcome) returns (ok: bool)
      modifies `slots, `freeIds, `bound
      ensures (View(), ok) == Updated(old(View()), EnvNow(), camera, o)
    {
      if camera.code !in slots {
        return false;
      }
      var slot := slots[camera.code];
      if ToUri(camera.url) == slot.uri {
        slots := slots[camera.code := slot.(camera := camera)];
        bound := bound[slot.sourceId := camera];
        return true;
      }
      var keepId := slot.sourceId;
      var removed := RemoveSourceInternal(camera.code);
      if !removed {
        return false;
      }
      ok := AddSourceInternal(camera, keepId, o);
    }

    method RemoveUnwanted(desired: map<string, Camera>)
      requires Owned(View())
      modifies `slots, `freeIds, `bound
      ensures View() == Pruned(old(View()), old(slots).Keys - desired.Keys)
    {
      ghost var p := View();
      var toRemove := slots.Keys - desired.Keys;
      ghost var unwanted := toRemove;
      PrunedNothing(p);
      NoneOrAll(unwanted);
      while toRemove != {}
        invariant toRemove <= unwanted
        invariant View() == Pruned(p, unwanted - toRemove)
        decreases |toRemove|
      {
        var code :| code in toRemove;
        PrunedStep(p, unwanted - toRemove, code);
        var _ := RemoveSourceInternal(code);
        OneLess(unwanted, toRemove, code);
        toRemove := toRemove - {code};
      }
    }

    method Reconcile(camera: Camera, o: Outcome)
      modifies `slots, `freeIds, `bound
      ensures View() == Reconciled(old(View()), EnvNow(), camera, o)
    {
      if camera.code !in slots {
        var _ := AddSource(camera, o);
      } else {
        var _ := UpdateSource(camera, o);
      }
    }

    method ApplyCameraList(cameras: seq<Camera>, outcomes: string -> Outcome)
      requires Owned(View())
      modifies `slots, `freeIds, `bound
      ensures View() == Applied(old(View()), EnvNow(), cameras, outcomes)
    {
      if !built {
        return;
      }
      var desired, codes := CollectDesired(cameras);
      RemoveUnwanted(desired);
      SortDistinct(codes, TextLess);
      ReconcileEach(desired, Sort(codes, TextLess), outcomes);
    }

    method ReconcileEach(desired: map<string, Camera>, order: seq<string>, outcomes: string -> Outcome)
      requires forall c :: c in order ==> c in desired
      modifies `slots, `freeIds, `bound
      ensures View() == ReconciledAll(old(View()), EnvNow(), desired, order, outcomes)
    {
      ghost var p := View();
      for n := 0 to |order|
        invariant View() == ReconciledAll(p, EnvNow(), desired, order[..n], outcomes)
      {
        assert order[..n + 1][..n] == order[..n];
        Reconcile(desired[order[n]], outcomes(order[n]));
      }
      assert order[..|order|] == order;
    }
  }

  method CollectDesired(cameras: seq<Camera>) returns (desired: map<string, Camera>, codes: seq<string>)
    ensures desired == Desired(cameras) && codes == Codes(cameras)
  {
    desired, codes := map[], [];
    for i := 0 to |cameras|
      invariant desired == Desired(cameras[..i]) && codes == Codes(cameras[..i])
    {
      assert cameras[..i + 1][..i] == cameras[..i];
      var camera := cameras[i];
      if camera.code == "" || camera.url == "" {
        continue;
      }
      if camera.code !in desired {
        codes := codes + [camera.code];
      }
      desired := desired[camera.code := camera];
    }
    assert cameras[..|cameras|] == cameras;
  }
}
