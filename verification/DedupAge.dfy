/** How long the cache remembers: its answers by the times of the accepted emissions alone. */
module DedupAge {
  import opened Dedup

  /** The time of the last accepted emission of each key that was not forgotten since. */
  type Book = map<Key, real>

  /** The emission is younger than the lifetime; with no lifetime it never ages. */
  predicate Young(book: Book, ttl: real, key: Key, now: real) {
    key in book && (ttl > 0.0 ==> now < book[key] + ttl)
  }

  /** The book kept beside the cache: a call that the cache accepts is written down with its time. */
  function Booked(book: Book, r: Run, op: Op, now: real): Book {
    match op
    case OpTryEmit(key) => if AlreadyEmitted(r.cache.seen, key, now) then book else book[key := now]
    case OpForget(key) => book - {key}
  }

  function BookAfter(book: Book, r: Run, ops: seq<(Op, real)>): Book
    decreases |ops|
  {
    if ops == [] then book
    else BookAfter(Booked(book, r, ops[0].0, ops[0].1), StepRun(r, ops[0].0, ops[0].1), ops[1..])
  }

  /** The log holds what is written in the book, with the expiry times that follow. */
  ghost predicate SameBook(book: Book, r: Run) {
    && book.Keys == r.log.Keys
    && forall key :: key in book ==>
         0.0 < book[key] <= r.clock && r.log[key] == if r.cache.ttl > 0.0 then book[key] + r.cache.ttl else 0.0
  }

  lemma StepKeepsBook(book: Book, r: Run, op: Op, now: real)
    requires SameBook(book, r) && 0.0 < now && r.clock <= now
    ensures SameBook(Booked(book, r, op, now), StepRun(r, op, now))
  {
    if op.OpTryEmit? {
      RememberFacts(r.cache, op.key, now);
    }
  }

  lemma {:induction false} RunKeepsBook(book: Book, r: Run, ops: seq<(Op, real)>)
    requires SameBook(book, r) && Timed(ops, r.clock)
    ensures SameBook(BookAfter(book, r, ops), RunOps(r, ops)) && RunOps(r, ops).cache.ttl == r.cache.ttl
    decreases |ops|
  {
    if ops == [] {
    } else {
      var (op, now) := ops[0];
      StepKeepsBook(book, r, op, now);
      TimedTail(ops, r.clock);
      if op.OpTryEmit? {
        RememberFacts(r.cache, op.key, now);
      }
      RunKeepsBook(Booked(book, r, op, now), StepRun(r, op, now), ops[1..]);
    }
  }

  lemma YoungIffLogged(book: Book, r: Run, key: Key, now: real)
    requires SameBook(book, r) && 0.0 < now
    ensures AlreadyEmitted(r.log, key, now) <==> Young(book, r.cache.ttl, key, now)
  {
  }

  /** Over every timed run from an empty cache: a key that the cache calls emitted was accepted last at some time t, not
      forgotten since, and it is before t plus the lifetime, if there is one. As long as no live entry was dropped for
      size, the cache calls exactly these keys emitted. */
  lemma EmittedIffYoung(maxlen: nat, ttl: real, ops: seq<(Op, real)>, key: Key, now: real)
    requires Timed(ops, 0.0) && (ops != [] ==> ops[|ops| - 1].1 <= now) && 0.0 < now
    ensures var r, book := RunOps(InitRun(maxlen, ttl), ops), BookAfter(map[], InitRun(maxlen, ttl), ops);
            && (AlreadyEmitted(r.cache.seen, key, now) ==> Young(book, ttl, key, now))
            && (!r.capacityFired ==> (AlreadyEmitted(r.cache.seen, key, now) <==> Young(book, ttl, key, now)))
  {
    RunKeepsBook(map[], InitRun(maxlen, ttl), ops);
    CacheRefinesLog(maxlen, ttl, ops, key, now);
    YoungIffLogged(BookAfter(map[], InitRun(maxlen, ttl), ops), RunOps(InitRun(maxlen, ttl), ops), key, now);
  }

  // ---------------------------------------------------------------------------------------------
  // The same without looking at the cache

  /** What a cache without a size bound would do, by ages alone. */
  function Ideal(book: Book, ttl: real, ops: seq<(Op, real)>): Book
    decreases |ops|
  {
    if ops == [] then book
    else
      var (op, now) := ops[0];
      var next := match op
        case OpTryEmit(key) => if Young(book, ttl, key, now) then book else book[key := now]
        case OpForget(key) => book - {key};
      Ideal(next, ttl, ops[1..])
  }

  lemma FiredBefore(r: Run, op: Op, now: real, ops: seq<(Op, real)>)
    requires !RunOps(StepRun(r, op, now), ops).capacityFired
    ensures !StepRun(r, op, now).capacityFired && !r.capacityFired
  {
    if StepRun(r, op, now).capacityFired {
      FiredStays(StepRun(r, op, now), ops);
    }
  }

  lemma {:induction false} BookIsIdeal(book: Book, r: Run, ops: seq<(Op, real)>)
    requires SameBook(book, r) && RunInv(r) && Timed(ops, r.clock) && !RunOps(r, ops).capacityFired
    ensures BookAfter(book, r, ops) == Ideal(book, r.cache.ttl, ops)
    decreases |ops|
  {
    if ops == [] {
    } else {
      var (op, now) := ops[0];
      FiredBefore(r, op, now, ops[1..]);
      StepKeepsBook(book, r, op, now);
      StepKeepsRunInv(r, op, now);
      TimedTail(ops, r.clock);
      if op.OpTryEmit? {
        RememberFacts(r.cache, op.key, now);
        QuietAgrees(r, now);
        YoungIffLogged(book, r, op.key, now);
      }
      BookIsIdeal(Booked(book, r, op, now), StepRun(r, op, now), ops[1..]);
    }
  }

  /** As long as no live entry was dropped for size, the cache answers every question as the ideal one. */
  lemma QuietCacheIsIdeal(maxlen: nat, ttl: real, ops: seq<(Op, real)>, key: Key, now: real)
    requires Timed(ops, 0.0) && (ops != [] ==> ops[|ops| - 1].1 <= now) && 0.0 < now
    requires !RunOps(InitRun(maxlen, ttl), ops).capacityFired
    ensures AlreadyEmitted(RunOps(InitRun(maxlen, ttl), ops).cache.seen, key, now) <==>
              Young(Ideal(map[], ttl, ops), ttl, key, now)
  {
    EmittedIffYoung(maxlen, ttl, ops, key, now);
    BookIsIdeal(map[], InitRun(maxlen, ttl), ops);
  }
}
