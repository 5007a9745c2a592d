/** The emit protocol: the probe thread commits jobs and queues them, a worker thread publishes and settles them.
    Every locked section of the program is one atomic step; the steps of the threads interleave freely. */
module EmitProtocol {
  import opened Kinds
  import opened Rules
  import opened Dedup
  import opened TrackState
  import opened Recognizer
  import opened Publisher

  const MAX_EMIT_QUEUE: nat := 8

  /** A job of this recognizer, tagged with the incarnation of its track: a track that is deleted and seen again
      under the same id is a new incarnation. Jobs of other cameras share the queue. */
  datatype Job = Own(inc: nat, want: KindSet, emit: PlateEmit) | Foreign

  /** The probe thread: between frames; walking the ready list; about to queue a committed job. */
  datatype Probe =
    | Idle
    | Emitting(rest: seq<ReadyEmit>, now: real)
    | Holding(job: Job, rest: seq<ReadyEmit>, now: real)

  datatype Worker = Resting | Publishing(job: Job) | Settling(job: Job, done: KindSet)

  /** Besides the program's own state: what went on the wire, the jobs that were lost, and two notes on the past that
      no step reads - incarnations whose wrong-way state was thrown away while a job for it was under way, and
      incarnations for which a job that did not want PLATE came as far as sending the vehicle event. */
  datatype State = State(
    rec: Rec,
    incOf: map<nat, nat>,
    nextInc: nat,
    probe: Probe,
    queue: seq<Job>,
    worker: Worker,
    wire: seq<(nat, EventKind)>,
    dropped: seq<Job>,
    tainted: set<nat>,
    stray: set<nat>)

  function InitState(cfg: Config): State {
    State(Rec(cfg, map[], Cache(DEDUP_CACHE_SIZE, DEDUP_TTL_S, map[], [])), map[], 0, Idle, [], Resting, [], [], {}, {})
  }

  // ---------------------------------------------------------------------------------------------
  // The job queue

  /** Dropping from the front until there is room for one more job: what is lost, and what stays. */
  function Overflow(queue: seq<Job>): nat { if |queue| >= MAX_EMIT_QUEUE then |queue| - (MAX_EMIT_QUEUE - 1) else 0 }

  datatype NextJob = NoJob | Next(job: Job)

  /** The probe's queue object; `lost` records what `enqueue` threw away. */
  class EmitQueue {
    var queue: seq<Job>
    ghost var lost: seq<Job>

    constructor ()
      ensures queue == [] && lost == []
    {
      queue, lost := [], [];
    }

    method Enqueue(job: Job)
      modifies this
      ensures queue == old(queue)[Overflow(old(queue))..] + [job]
      ensures lost == old(lost) + old(queue)[..Overflow(old(queue))]
      ensures |queue| == if |old(queue)| < 8 then |old(queue)| + 1 else 8
      ensures |old(queue)| < 8 ==> lost == old(lost)
    {
      ghost var n := 0;
      while |queue| >= MAX_EMIT_QUEUE
        invariant 0 <= n <= Overflow(old(queue)) && queue == old(queue)[n..]
        invariant lost == old(lost) + old(queue)[..n]
        decreases |queue|
      {
        lost := lost + [queue[0]];
        queue := queue[1..];
        n := n + 1;
      }
      queue := queue + [job];
    }

    method TakeNext() returns (next: NextJob)
      modifies this`queue
      ensures next == if old(queue) == [] then NoJob else Next(old(queue)[0])
      ensures queue == if old(queue) == [] then [] else old(queue)[1..]
    {
      if queue == [] {
        return NoJob;
      }
      next := Next(queue[0]);
      queue := queue[1..];
    }
  }

  /** The figures a job carries: only the kinds really wanted this time are filled in. */
  function BuildEmit(e: ReadyEmit, want: KindSet, hasCrop: bool): PlateEmit {
    PlateEmit(e.trackId, e.plate, e.vehicleCls,
              if NoHelmet in want then e.payload.noHelmet.hits else 0,
              if WrongLane in want then e.payload.wrongLane.hits else 0,
              if WrongWay in want then e.payload.wrongWay.hits else 0,
              true, hasCrop)
  }

  // ---------------------------------------------------------------------------------------------
  // Steps

  datatype Event =
    | Sight(id: nat, cls: int, conf: real, inZone: bool, now: real)
    | Helmet(id: nat, people: int)
    | Lane(id: nat, zone: string)
    | Way(id: nat, line: string, now: real)
    | Reading(id: nat, chars: CharSequence, raw: string, now: real, meanConf: real, sampleArea: real, plateArea: real)
    | Snapshot(id: nat, k: EventKind)
    | Missed(now: real)
    | Stale(now: real)
    | Clean(now: real)
    | Ask(now: real, list: seq<ReadyEmit>)
    | CommitNext(hasImages: bool, hasCrop: bool)
    | Queue
    | QueueForeign
    | EndFrame
    | Take
    | Discard
    | Publish(world: World)
    | Settled

  /** Jobs that a thread still has to finish. */
  function ProbeJobs(p: Probe): seq<Job> { if p.Holding? then [p.job] else [] }

  function WorkerJobs(w: Worker): seq<Job> { if w.Resting? then [] else [w.job] }

  function OpenJobs(s: State): seq<Job> { s.queue + ProbeJobs(s.probe) + WorkerJobs(s.worker) }

  /** The assumption on track ids: when a job is settled, its id belongs to the vehicle it was made for, or to none. */
  predicate SettlesOwn(s: State) {
    s.worker.Settling? && s.worker.job.Own? && s.worker.job.emit.trackId in s.incOf ==>
      s.incOf[s.worker.job.emit.trackId] == s.worker.job.inc
  }

  /** The step can happen where the threads stand. */
  ghost predicate CanStep(s: State, ev: Event) {
    match ev
    case Stale(_) => s.probe.Idle?
    case Clean(_) => s.probe.Idle?
    case Ask(now, list) => s.probe.Idle? && IsReadyList(s.rec, now, list)
    case CommitNext(_, _) => s.probe.Emitting? && s.probe.rest != []
    case Queue => s.probe.Holding?
    case EndFrame => s.probe.Emitting? && s.probe.rest == []
    case Take => s.worker.Resting? && s.queue != []
    case Discard => s.worker.Publishing?
    case Publish(_) => s.worker.Publishing?
    case Settled => s.worker.Settling?
    case _ => true
  }

  /** The step can happen, and keeps the assumption on track ids. */
  ghost predicate Enabled(s: State, ev: Event) {
    CanStep(s, ev) && (ev.Settled? ==> SettlesOwn(s))
  }

  function Tagged(inc: nat, events: seq<EventKind>): seq<(nat, EventKind)> {
    if events == [] then [] else [(inc, events[0])] + Tagged(inc, events[1..])
  }

  function Enqueued(s: State, job: Job): State {
    var n := Overflow(s.queue);
    s.(queue := s.queue[n..] + [job], dropped := s.dropped + s.queue[..n])
  }

  /** Tracks whose wrong-way state is thrown away although a job for it is under way. */
  ghost function TaintedBy(s: State, now: real): set<nat>
    requires s.rec.tracks.Keys <= s.incOf.Keys
  {
    set id | id in s.rec.tracks && StaleWrongWay(s.rec.tracks[id], s.rec.cfg, now)
             && s.rec.tracks[id].kinds.wrongWay.pushed :: s.incOf[id]
  }

  /** A job that does not want PLATE is about to send the vehicle event: an image was stored, and the question just
      before the send finds no violation to publish. */
  predicate Stray(pub: PublisherConfig, job: Job, world: World)
    requires job.Own?
  {
    Plate !in job.want && Keyed(pub, job.emit, world) && !HasViolation(pub, job.emit, world.allowedLater)
  }

  /** WRONG_WAY needs the plate crop; without one it waits, and the other kinds go ahead. */
  function Wanted(ready: KindSet, hasCrop: bool): KindSet {
    if hasCrop then ready else ready - {WrongWay}
  }

  ghost function Step(s: State, ev: Event, pub: PublisherConfig): State
    requires s.incOf.Keys == s.rec.tracks.Keys && CanStep(s, ev)
  {
    match ev
    case Sight(id, cls, conf, inZone, now) =>
      var s' := s.(rec := ObserveVehicle(s.rec, id, cls, conf, inZone, now).0);
      if id in s.rec.tracks then s' else s'.(incOf := s.incOf[id := s.nextInc], nextInc := s.nextInc + 1)
    case Helmet(id, people) => s.(rec := ObserveHelmet(s.rec, id, people))
    case Lane(id, zone) => s.(rec := ObserveLane(s.rec, id, zone))
    case Way(id, line, now) => s.(rec := ObserveWrongWay(s.rec, id, line, now))
    case Reading(id, chars, raw, now, meanConf, sampleArea, plateArea) =>
      s.(rec := ObserveReading(s.rec, id, chars, raw, now, meanConf, sampleArea, plateArea).0)
    case Snapshot(id, k) => s.(rec := TakeSnapshot(s.rec, id, k))
    case Missed(now) => s.(rec := FinalizeAllMissed(s.rec, now))
    case Stale(now) => s.(rec := ClearStale(s.rec, now), tainted := s.tainted + TaintedBy(s, now))
    case Clean(now) =>
      var rec' := Cleanup(s.rec, now);
      s.(rec := rec', incOf := s.incOf - Doomed(s.rec.tracks, now))
    case Ask(now, list) => s.(rec := Collect(s.rec, now), probe := Emitting(list, now))
    case CommitNext(hasImages, hasCrop) =>
      var e, rest, now := s.probe.rest[0], s.probe.rest[1..], s.probe.now;
      var want := Wanted(e.ready, hasCrop);
      var (rec', ok) := Commit(s.rec, e.trackId, e.plate, want, now);
      if !hasImages || want == {} || !ok || e.trackId !in s.incOf then
        s.(rec := if !hasImages || want == {} then s.rec else rec', probe := Emitting(rest, now))
      else
        s.(rec := rec', probe := Holding(Own(s.incOf[e.trackId], want, BuildEmit(e, want, hasCrop)), rest, now))
    case Queue => Enqueued(s, s.probe.job).(probe := Emitting(s.probe.rest, s.probe.now))
    case QueueForeign => Enqueued(s, Foreign)
    case EndFrame => s.(probe := Idle)
    case Take =>
      s.(queue := s.queue[1..], worker := if s.queue[0].Own? then Publishing(s.queue[0]) else Resting)
    case Discard => s.(worker := Resting, dropped := s.dropped + [s.worker.job])
    case Publish(world) =>
      var job := s.worker.job;
      if job.Foreign? then s.(worker := Resting)
      else s.(worker := Settling(job, DoneMask(pub, job.emit, world)),
              wire := s.wire + Tagged(job.inc, SentEvents(pub, job.emit, world)),
              stray := s.stray + if Stray(pub, job, world) then {job.inc} else {})
    case Settled =>
      var job := s.worker.job;
      if job.Foreign? then s.(worker := Resting)
      else s.(rec := Settle(s.rec, job.emit.trackId, job.want, s.worker.done), worker := Resting)
  }

  // ---------------------------------------------------------------------------------------------
  // Counting

  function Holds(j: Job, inc: nat, k: EventKind): nat {
    if j.Own? && j.inc == inc && k in j.want then 1 else 0
  }

  /** How many jobs of `js` are about kind k of incarnation inc. */
  function Held(js: seq<Job>, inc: nat, k: EventKind): nat {
    if js == [] then 0 else Holds(js[0], inc, k) + Held(js[1..], inc, k)
  }

  /** Jobs not yet through the publisher, or lost on the way to it. */
  function Unpublished(s: State, inc: nat, k: EventKind): nat {
    Held(s.dropped, inc, k) + Held(s.queue, inc, k) + Held(ProbeJobs(s.probe), inc, k)
    + if s.worker.Publishing? then Holds(s.worker.job, inc, k) else 0
  }

  function Total(s: State, inc: nat, k: EventKind): nat {
    Unpublished(s, inc, k) + if s.worker.Settling? then Holds(s.worker.job, inc, k) else 0
  }

  /** How often kind k of incarnation inc was published. */
  function Published(s: State, inc: nat, k: EventKind): nat { multiset(s.wire)[(inc, k)] }

  lemma {:induction false} HeldConcat(a: seq<Job>, b: seq<Job>, inc: nat, k: EventKind)
    ensures Held(a + b, inc, k) == Held(a, inc, k) + Held(b, inc, k)
  {
    if a == [] {
      assert a + b == b;
    } else {
      assert (a + b)[0] == a[0] && (a + b)[1..] == a[1..] + b;
      HeldConcat(a[1..], b, inc, k);
    }
  }

  lemma HeldOne(j: Job, inc: nat, k: EventKind)
    ensures Held([j], inc, k) == Holds(j, inc, k)
  {
    assert [j][1..] == [];
  }

  lemma {:induction false} HeldMember(js: seq<Job>, j: Job, inc: nat, k: EventKind)
    requires j in js && Holds(j, inc, k) == 1
    ensures Held(js, inc, k) >= 1
  {
    if js[0] != j {
      assert j in js[1..];
      HeldMember(js[1..], j, inc, k);
    }
  }

  lemma {:induction false} TaggedCount(inc: nat, events: seq<EventKind>, inc2: nat, k: EventKind)
    ensures multiset(Tagged(inc, events))[(inc2, k)] == if inc2 == inc then multiset(events)[k] else 0
  {
    if events == [] {
    } else {
      TaggedCount(inc, events[1..], inc2, k);
      assert events == [events[0]] + events[1..];
    }
  }
}
