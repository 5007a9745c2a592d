/** The four independent event kinds of one track, the mask type over them, and the life cycle record
    that a track keeps for each kind. */
module Kinds {

  datatype EventKind = Plate | NoHelmet | WrongLane | WrongWay

  /** An `EventKindMask`: one bit per kind, so exactly a set of kinds. */
  type KindSet = set<EventKind>

  /** The order in which loops over `kEventKindCount` visit the kinds. */
  const ALL_KINDS: seq<EventKind> := [Plate, NoHelmet, WrongLane, WrongWay]

  /** The kinds among the first `n` of ALL_KINDS. */
  function FirstKinds(n: nat): KindSet
    requires n <= 4
  {
    set i | 0 <= i < n :: ALL_KINDS[i]
  }

  lemma FirstKindsStep(n: nat)
    requires n < 4
    ensures FirstKinds(n + 1) == FirstKinds(n) + {ALL_KINDS[n]}
    ensures ALL_KINDS[n] !in FirstKinds(n)
  {
  }

  lemma AllKindsComplete()
    ensures FirstKinds(4) == {Plate, NoHelmet, WrongLane, WrongWay}
    ensures forall k: EventKind :: k in FirstKinds(4)
  {
    forall k: EventKind ensures k in FirstKinds(4) {
      var i := match k case Plate => 0 case NoHelmet => 1 case WrongLane => 2 case WrongWay => 3;
      assert ALL_KINDS[i] == k;
    }
  }

  /** A fixed array indexed by kind. */
  datatype Table<T> = Table(plate: T, noHelmet: T, wrongLane: T, wrongWay: T) {
    function Get(k: EventKind): T {
      match k
      case Plate => plate
      case NoHelmet => noHelmet
      case WrongLane => wrongLane
      case WrongWay => wrongWay
    }

    function Set(k: EventKind, v: T): Table<T> {
      match k
      case Plate => this.(plate := v)
      case NoHelmet => this.(noHelmet := v)
      case WrongLane => this.(wrongLane := v)
      case WrongWay => this.(wrongWay := v)
    }
  }

  function Uniform<T>(v: T): Table<T> {
    Table(v, v, v, v)
  }

  lemma TableExtensional<T>(a: Table<T>, b: Table<T>)
    requires forall k: EventKind :: a.Get(k) == b.Get(k)
    ensures a == b
  {
    assert a.Get(Plate) == b.Get(Plate);
    assert a.Get(NoHelmet) == b.Get(NoHelmet);
    assert a.Get(WrongLane) == b.Get(WrongLane);
    assert a.Get(WrongWay) == b.Get(WrongWay);
  }

  /** Life cycle of one kind on one track; a time of 0 means "not yet". */
  datatype ViolationState = ViolationState(
    hits: nat,
    detail: nat,
    firstHitAt: real,
    pairedAt: real,
    lastAttempt: real,
    needsSnapshot: bool,
    hasSnapshot: bool,
    pushed: bool,
    posted: bool)

  const FRESH_KIND := ViolationState(0, 0, 0.0, 0.0, 0.0, false, false, false, false)
}
