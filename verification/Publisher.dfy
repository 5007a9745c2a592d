/** The publisher's outcome mask: which kinds of one job are finished, and which events went on the wire. */
module Publisher {
  import opened Kinds

  const CLASS_MOTORBIKE := 2

  datatype Threshold = Threshold(enabled: bool, minHits: int)

  datatype PublisherConfig = PublisherConfig(
    connected: bool,
    dryRun: bool,
    helmet: Threshold,
    wrongLane: Threshold,
    wrongWay: Threshold)

  /** The configuration loader raises every minimum to at least 1. */
  predicate Loaded(cfg: PublisherConfig) {
    cfg.helmet.minHits >= 1 && cfg.wrongLane.minHits >= 1 && cfg.wrongWay.minHits >= 1
  }

  /** What a job carries to the publisher. */
  datatype PlateEmit = PlateEmit(
    trackId: nat,
    plate: string,
    vehicleCls: int,
    noHelmetFrames: nat,
    wrongLaneFrames: nat,
    wrongWayHits: nat,
    hasFull: bool,
    hasCrop: bool)

  /** Everything the outside world decides during one publish: which uploads return a key, which sends succeed,
      and which codes the camera allows - asked once while sending and once more afterwards. */
  datatype World = World(
    fullKey: bool,
    cropKey: bool,
    sendOk: KindSet,
    allowed: KindSet,
    allowedLater: KindSet)

  function HitsOf(emit: PlateEmit, k: EventKind): nat {
    match k
    case Plate => 0
    case NoHelmet => emit.noHelmetFrames
    case WrongLane => emit.wrongLaneFrames
    case WrongWay => emit.wrongWayHits
  }

  predicate MeetsThreshold(cfg: PublisherConfig, emit: PlateEmit, k: EventKind) {
    match k
    case Plate => false
    case NoHelmet =>
      cfg.helmet.enabled && emit.vehicleCls == CLASS_MOTORBIKE && emit.noHelmetFrames >= cfg.helmet.minHits
    case WrongLane => cfg.wrongLane.enabled && emit.wrongLaneFrames >= cfg.wrongLane.minHits
    case WrongWay => cfg.wrongWay.enabled && emit.wrongWayHits >= cfg.wrongWay.minHits
  }

  predicate CanPublish(cfg: PublisherConfig, emit: PlateEmit, k: EventKind, allowed: KindSet) {
    MeetsThreshold(cfg, emit, k) && k in allowed
  }

  datatype PublishOutcome = Sent | Skipped | Retry

  const VIOLATION_ORDER: seq<EventKind> := [NoHelmet, WrongLane, WrongWay]

  /** At least one image got a key: otherwise nothing of the job can be published. */
  predicate Keyed(cfg: PublisherConfig, emit: PlateEmit, w: World) {
    && cfg.connected
    && ((emit.hasFull && (cfg.dryRun || w.fullKey)) || (emit.hasCrop && (cfg.dryRun || w.cropKey)))
  }

  predicate SendOk(cfg: PublisherConfig, w: World, k: EventKind) { cfg.dryRun || k in w.sendOk }

  predicate HasViolation(cfg: PublisherConfig, emit: PlateEmit, allowed: KindSet) {
    exists k :: k in {NoHelmet, WrongLane, WrongWay} && CanPublish(cfg, emit, k, allowed)
  }

  /** The kinds that this call finishes. */
  predicate Finished(cfg: PublisherConfig, emit: PlateEmit, w: World, k: EventKind) {
    && Keyed(cfg, emit, w)
    && if k == Plate then HasViolation(cfg, emit, w.allowedLater) || SendOk(cfg, w, Plate)
       else CanPublish(cfg, emit, k, w.allowed) ==> SendOk(cfg, w, k)
  }

  /** The kinds whose event this call hands to the broker. */
  predicate OnWire(cfg: PublisherConfig, emit: PlateEmit, w: World, k: EventKind) {
    && Keyed(cfg, emit, w)
    && SendOk(cfg, w, k)
    && if k == Plate then !HasViolation(cfg, emit, w.allowedLater) else CanPublish(cfg, emit, k, w.allowed)
  }

  function DoneMask(cfg: PublisherConfig, emit: PlateEmit, w: World): KindSet {
    set k | k in {Plate, NoHelmet, WrongLane, WrongWay} && Finished(cfg, emit, w, k)
  }

  function OnlyIf(yes: bool, k: EventKind): seq<EventKind> { if yes then [k] else [] }

  /** The events of one call, in sending order: the violations, then the vehicle event. */
  function SentEvents(cfg: PublisherConfig, emit: PlateEmit, w: World): seq<EventKind> {
    OnlyIf(OnWire(cfg, emit, w, NoHelmet), NoHelmet)
    + OnlyIf(OnWire(cfg, emit, w, WrongLane), WrongLane)
    + OnlyIf(OnWire(cfg, emit, w, WrongWay), WrongWay)
    + OnlyIf(OnWire(cfg, emit, w, Plate), Plate)
  }

  lemma CountOnly(a: bool, b: bool, c: bool, d: bool, k: EventKind)
    ensures multiset(OnlyIf(a, NoHelmet) + OnlyIf(b, WrongLane) + OnlyIf(c, WrongWay) + OnlyIf(d, Plate))[k] ==
              (match k case NoHelmet => if a then 1 else 0
                       case WrongLane => if b then 1 else 0
                       case WrongWay => if c then 1 else 0
                       case Plate => if d then 1 else 0)
  {
  }

  lemma SentOnce(cfg: PublisherConfig, emit: PlateEmit, w: World, k: EventKind)
    ensures multiset(SentEvents(cfg, emit, w))[k] == if OnWire(cfg, emit, w, k) then 1 else 0
  {
    CountOnly(OnWire(cfg, emit, w, NoHelmet), OnWire(cfg, emit, w, WrongLane), OnWire(cfg, emit, w, WrongWay),
              OnWire(cfg, emit, w, Plate), k);
  }

  function Turn(k: EventKind): nat {
    match k case NoHelmet => 0 case WrongLane => 1 case WrongWay => 2 case Plate => 3
  }

  /** The violations go out first, in a fixed order, and the vehicle event last. */
  lemma SendingOrder(cfg: PublisherConfig, emit: PlateEmit, w: World)
    ensures var sent := SentEvents(cfg, emit, w); forall i, j :: 0 <= i < j < |sent| ==> Turn(sent[i]) < Turn(sent[j])
  {
  }

  lemma DoneIffFinished(cfg: PublisherConfig, emit: PlateEmit, w: World, k: EventKind)
    ensures k in DoneMask(cfg, emit, w) <==> Finished(cfg, emit, w, k)
  {
  }

  /** A violation kind is reported unfinished exactly when it could be published and its send failed. Whatever
      goes on the wire is finished and goes there once, so a retry of this call repeats nothing. */
  lemma OnlySendFailuresRetry(cfg: PublisherConfig, emit: PlateEmit, w: World, k: EventKind)
    requires Keyed(cfg, emit, w)
    ensures k != Plate ==>
              (k !in DoneMask(cfg, emit, w) <==> CanPublish(cfg, emit, k, w.allowed) && !SendOk(cfg, w, k))
    ensures multiset(SentEvents(cfg, emit, w))[k] <= 1
    ensures k in SentEvents(cfg, emit, w) ==> OnWire(cfg, emit, w, k) && k in DoneMask(cfg, emit, w)
  {
    DoneIffFinished(cfg, emit, w, k);
    SentOnce(cfg, emit, w, k);
    assert k in SentEvents(cfg, emit, w) <==> k in multiset(SentEvents(cfg, emit, w));
  }

  /** PLATE can be finished with no event at all on the wire: exactly when the camera's permissions change during
      the call, so that the later question sees a violation that the sending loop skipped, or when a violation
      is still waiting for its own retry. */
  lemma PlateFinishedSilently(cfg: PublisherConfig, emit: PlateEmit, w: World)
    requires Keyed(cfg, emit, w)
    ensures Plate in DoneMask(cfg, emit, w) && SentEvents(cfg, emit, w) == [] <==>
              && HasViolation(cfg, emit, w.allowedLater)
              && forall k :: k in {NoHelmet, WrongLane, WrongWay} && CanPublish(cfg, emit, k, w.allowed) ==>
                   !SendOk(cfg, w, k)
  {
    forall k: EventKind ensures k in SentEvents(cfg, emit, w) <==> OnWire(cfg, emit, w, k) {
      SentOnce(cfg, emit, w, k);
      assert k in SentEvents(cfg, emit, w) <==> k in multiset(SentEvents(cfg, emit, w));
    }
    if SentEvents(cfg, emit, w) != [] {
      assert SentEvents(cfg, emit, w)[0] in SentEvents(cfg, emit, w);
    }
  }

  /** PLATE is finished although nothing goes on the wire. */
  ghost predicate SilentPlate(cfg: PublisherConfig, emit: PlateEmit, w: World) {
    Plate in DoneMask(cfg, emit, w) && SentEvents(cfg, emit, w) == []
  }

  /** Before the broker answers: PLATE can be finished silently exactly when the later question sees a violation and, in a
      dry run, where every send succeeds, the first one saw none. It is so whatever the broker answers exactly when the
      permissions changed: the first question saw no violation to publish and the later one does. */
  lemma SilentPlateBeforeSending(cfg: PublisherConfig, emit: PlateEmit, w: World)
    requires Keyed(cfg, emit, w)
    ensures (exists ok: KindSet :: SilentPlate(cfg, emit, w.(sendOk := ok))) <==>
              HasViolation(cfg, emit, w.allowedLater) && (cfg.dryRun ==> !HasViolation(cfg, emit, w.allowed))
    ensures (forall ok: KindSet :: SilentPlate(cfg, emit, w.(sendOk := ok))) <==>
              HasViolation(cfg, emit, w.allowedLater) && !HasViolation(cfg, emit, w.allowed)
  {
    forall ok: KindSet
      ensures SilentPlate(cfg, emit, w.(sendOk := ok)) <==>
                && HasViolation(cfg, emit, w.allowedLater)
                && forall k :: k in {NoHelmet, WrongLane, WrongWay} && CanPublish(cfg, emit, k, w.allowed) ==>
                     !SendOk(cfg, w.(sendOk := ok), k)
    {
      PlateFinishedSilently(cfg, emit, w.(sendOk := ok));
    }
    if HasViolation(cfg, emit, w.allowedLater) && (cfg.dryRun ==> !HasViolation(cfg, emit, w.allowed)) {
      assert SilentPlate(cfg, emit, w.(sendOk := {}));
    }
    if HasViolation(cfg, emit, w.allowed) {
      assert !SilentPlate(cfg, emit, w.(sendOk := {NoHelmet, WrongLane, WrongWay}));
    }
  }

  /** The permission for the wrong-way code arrives between the two questions: whatever the broker would answer, nothing is
      sent and PLATE counts as done. */
  lemma ArrivingPermissionIsSilent(emit: PlateEmit, ok: KindSet)
    requires emit.hasFull && emit.wrongWayHits == 1
    ensures var one := Threshold(true, 1);
            SilentPlate(PublisherConfig(true, false, one, one, one), emit, World(true, true, ok, {}, {WrongWay}))
  {
    var one := Threshold(true, 1);
    var cfg, w := PublisherConfig(true, false, one, one, one), World(true, true, ok, {}, {WrongWay});
    assert CanPublish(cfg, emit, WrongWay, w.allowedLater);
    PlateFinishedSilently(cfg, emit, w);
  }

  class EventPublisher {
    const cfg: PublisherConfig
    /** The kinds of the events handed over so far (in a dry run: logged), in order. */
    var sent: seq<EventKind>

    constructor (cfg: PublisherConfig)
      ensures this.cfg == cfg && sent == []
    {
      this.cfg := cfg;
      sent := [];
    }

    method PublishViolationKind(emit: PlateEmit, k: EventKind, w: World) returns (outcome: PublishOutcome)
      modifies this
      ensures outcome == if !CanPublish(cfg, emit, k, w.allowed) then Skipped
                         else if SendOk(cfg, w, k) then Sent else Retry
      ensures sent == old(sent) + if outcome == Sent then [k] else []
    {
      if k == Plate {
        return Skipped;
      }
      if !CanPublish(cfg, emit, k, w.allowed) {
        return Skipped;
      }
      if !cfg.dryRun && k !in w.sendOk {
        return Retry;
      }
      sent := sent + [k];
      return Sent;
    }

    method PublishViolations(emit: PlateEmit, w: World) returns (done: KindSet)
      requires Keyed(cfg, emit, w)
      modifies this
      ensures done == set k | k in {NoHelmet, WrongLane, WrongWay} && Finished(cfg, emit, w, k)
      ensures sent == old(sent) + SentViolations(cfg, emit, w, 3)
    {
      done := {};
      for i := 0 to 3
        invariant done == set k | k in VIOLATION_ORDER[..i] && Finished(cfg, emit, w, k)
        invariant sent == old(sent) + SentViolations(cfg, emit, w, i)
      {
        var k := VIOLATION_ORDER[i];
        assert VIOLATION_ORDER[..i + 1] == VIOLATION_ORDER[..i] + [k];
        var outcome := PublishViolationKind(emit, k, w);
        if outcome != Retry {
          done := done + {k};
        }
      }
      assert VIOLATION_ORDER[..3] == VIOLATION_ORDER;
    }

    method PublishPlateEvent(emit: PlateEmit, w: World) returns (done: KindSet)
      modifies this
      ensures done == DoneMask(cfg, emit, w)
      ensures sent == old(sent) + SentEvents(cfg, emit, w)
    {
      if !cfg.connected {
        return {};
      }
      var fullKey := emit.hasFull && (cfg.dryRun || w.fullKey);
      var cropKey := emit.hasCrop && (cfg.dryRun || w.cropKey);
      if !fullKey && !cropKey {
        return {};
      }
      done := PublishViolations(emit, w);
      var hasViolation := CanPublish(cfg, emit, NoHelmet, w.allowedLater)
                       || CanPublish(cfg, emit, WrongLane, w.allowedLater)
                       || CanPublish(cfg, emit, WrongWay, w.allowedLater);
      assert hasViolation == HasViolation(cfg, emit, w.allowedLater);
      SentViolationsAll(cfg, emit, w);
      if hasViolation {
        done := done + {Plate};
        return;
      }
      if !cfg.dryRun && Plate !in w.sendOk {
        return;
      }
      sent := sent + [Plate];
      done := done + {Plate};
    }
  }

  /** The events of the violation loop after its first n rounds. */
  function SentViolations(cfg: PublisherConfig, emit: PlateEmit, w: World, n: nat): seq<EventKind>
    requires n <= 3
  {
    if n == 0 then []
    else SentViolations(cfg, emit, w, n - 1)
         + if OnWire(cfg, emit, w, VIOLATION_ORDER[n - 1]) then [VIOLATION_ORDER[n - 1]] else []
  }

  lemma SentViolationsAll(cfg: PublisherConfig, emit: PlateEmit, w: World)
    ensures SentEvents(cfg, emit, w) ==
              SentViolations(cfg, emit, w, 3) + if OnWire(cfg, emit, w, Plate) then [Plate] else []
  {
    assert SentViolations(cfg, emit, w, 1) == if OnWire(cfg, emit, w, NoHelmet) then [NoHelmet] else [];
    assert SentViolations(cfg, emit, w, 2) ==
           SentViolations(cfg, emit, w, 1) + if OnWire(cfg, emit, w, WrongLane) then [WrongLane] else [];
    assert SentViolations(cfg, emit, w, 3) ==
           SentViolations(cfg, emit, w, 2) + if OnWire(cfg, emit, w, WrongWay) then [WrongWay] else [];
  }
}
