/** The bounded, expiring "already emitted" cache keyed by (track, plate, kind). */
module Dedup {
  import opened Kinds

  datatype Key = Key(trackId: nat, plate: string, kind: EventKind)

  /** The value of a cache: `seen` maps a key to its expiry time (0 = never), `fifo` is the insertion order. */
  datatype Cache = Cache(maxlen: nat, ttl: real, seen: map<Key, real>, fifo: seq<Key>)

  const DEDUP_CACHE_SIZE: nat := 50
  const DEDUP_TTL_S: real := 300.0

  predicate Expired(expireAt: real, now: real) {
    expireAt > 0.0 && now > 0.0 && now >= expireAt
  }

  predicate AlreadyEmitted(seen: map<Key, real>, key: Key, now: real) {
    key in seen && !Expired(seen[key], now)
  }

  function ExpiryOf(ttl: real, now: real): real {
    if now > 0.0 && ttl > 0.0 then now + ttl else 0.0
  }

  function Evict(c: Cache, now: real): Cache
    decreases |c.fifo|
  {
    if c.fifo == [] then c
    else
      var k := c.fifo[0];
      if k !in c.seen then Evict(c.(fifo := c.fifo[1..]), now)
      else if !Expired(c.seen[k], now) && |c.seen| <= c.maxlen then c
      else Evict(c.(seen := c.seen - {k}, fifo := c.fifo[1..]), now)
  }

  function Remember(c: Cache, key: Key, now: real): Cache {
    var c' := c.(seen := c.seen[key := ExpiryOf(c.ttl, now)]);
    if key in c.seen then c' else Evict(c'.(fifo := c.fifo + [key]), now)
  }

  function Forget(c: Cache, key: Key): Cache {
    c.(seen := c.seen - {key})
  }

  /** The cache object: `remember`, `forget` and `evict` update the two containers in place. */
  class DedupCache {
    const maxlen: nat
    const ttl: real
    var seen: map<Key, real>
    var fifo: seq<Key>

    function View(): Cache
      reads this
    {
      Cache(maxlen, ttl, seen, fifo)
    }

    constructor (maxlen: nat, ttl: real)
      ensures View() == Cache(maxlen, ttl, map[], [])
    {
      this.maxlen := maxlen;
      this.ttl := ttl;
      seen := map[];
      fifo := [];
    }

    method EvictInPlace(now: real)
      modifies this
      ensures View() == Evict(old(View()), now)
    {
      while fifo != []
        invariant Evict(View(), now) == Evict(old(View()), now)
        decreases |fifo|
      {
        var front := fifo[0];
        if front !in seen {
          fifo := fifo[1..];
          continue;
        }
        var expired := seen[front] > 0.0 && now > 0.0 && now >= seen[front];
        if !expired && |seen| <= maxlen {
          break;
        }
        seen := seen - {front};
        fifo := fifo[1..];
      }
    }

    method CheckEmitted(key: Key, now: real) returns (emitted: bool)
      ensures emitted == AlreadyEmitted(seen, key, now)
    {
      if key !in seen {
        return false;
      }
      if seen[key] > 0.0 && now > 0.0 && now >= seen[key] {
        return false;
      }
      return true;
    }

    method RememberInPlace(key: Key, now: real)
      modifies this
      ensures View() == Remember(old(View()), key, now)
    {
      var expireAt := if now > 0.0 && ttl > 0.0 then now + ttl else 0.0;
      if key in seen {
        seen := seen[key := expireAt];
        return;
      }
      seen := seen[key := expireAt];
      fifo := fifo + [key];
      EvictInPlace(now);
    }

    method TryEmit(key: Key, now: real) returns (ok: bool)
      modifies this
      ensures ok == !AlreadyEmitted(old(seen), key, now)
      ensures View() == if ok then Remember(old(View()), key, now) else old(View())
    {
      var emitted := CheckEmitted(key, now);
      if emitted {
        return false;
      }
      RememberInPlace(key, now);
      return true;
    }

    method ForgetInPlace(key: Key)
      modifies this
      ensures View() == Forget(old(View()), key)
    {
      seen := seen - {key};
    }
  }

  // ---------------------------------------------------------------------------------------------
  // What eviction keeps

  /** Every remembered key is queued, and the cache is within its bound. */
  ghost predicate Tracked(c: Cache) {
    forall k :: k in c.seen ==> k in c.fifo
  }

  ghost predicate Bounded(c: Cache) {
    Tracked(c) && |c.seen| <= c.maxlen
  }

  /** Queue entries that eviction throws away because their key was forgotten. */
  function StalePops(c: Cache, now: real): nat
    decreases |c.fifo|
  {
    if c.fifo == [] then 0
    else
      var k := c.fifo[0];
      if k !in c.seen then 1 + StalePops(c.(fifo := c.fifo[1..]), now)
      else if !Expired(c.seen[k], now) && |c.seen| <= c.maxlen then 0
      else StalePops(c.(seen := c.seen - {k}, fifo := c.fifo[1..]), now)
  }

  /** Eviction drops a live entry because of the size bound. */
  predicate CapacityFires(c: Cache, now: real)
    decreases |c.fifo|
  {
    if c.fifo == [] then false
    else
      var k := c.fifo[0];
      if k !in c.seen then CapacityFires(c.(fifo := c.fifo[1..]), now)
      else if !Expired(c.seen[k], now) then
        |c.seen| > c.maxlen
      else CapacityFires(c.(seen := c.seen - {k}, fifo := c.fifo[1..]), now)
  }

  lemma {:induction false} EvictFacts(c: Cache, now: real)
    ensures Evict(c, now).maxlen == c.maxlen && Evict(c, now).ttl == c.ttl
    ensures forall k :: k in Evict(c, now).seen ==> k in c.seen && Evict(c, now).seen[k] == c.seen[k]
    ensures Tracked(c) ==> Bounded(Evict(c, now))
    ensures |Evict(c, now).fifo| - |Evict(c, now).seen| == |c.fifo| - |c.seen| - StalePops(c, now)
    ensures !CapacityFires(c, now) ==>
              forall k :: k in c.seen && k !in Evict(c, now).seen ==> Expired(c.seen[k], now)
    decreases |c.fifo|
  {
    if c.fifo == [] {
      if Tracked(c) {
        assert c.seen.Keys == {};
        assert |c.seen| == 0;
      }
    } else {
      var k := c.fifo[0];
      assert c.fifo == [k] + c.fifo[1..];
      if k !in c.seen {
        EvictFacts(c.(fifo := c.fifo[1..]), now);
      } else if !Expired(c.seen[k], now) && |c.seen| <= c.maxlen {
      } else {
        var seen' := c.seen - {k};
        assert seen'.Keys == c.seen.Keys - {k};
        assert |seen'| == |c.seen| - 1;
        EvictFacts(c.(seen := seen', fifo := c.fifo[1..]), now);
      }
    }
  }

  lemma RememberFacts(c: Cache, key: Key, now: real)
    ensures Remember(c, key, now).maxlen == c.maxlen && Remember(c, key, now).ttl == c.ttl
    ensures forall k :: k in Remember(c, key, now).seen && k != key ==>
                k in c.seen && Remember(c, key, now).seen[k] == c.seen[k]
    ensures key in Remember(c, key, now).seen ==> Remember(c, key, now).seen[key] == ExpiryOf(c.ttl, now)
    ensures Bounded(c) ==> Bounded(Remember(c, key, now))
  {
    var c' := c.(seen := c.seen[key := ExpiryOf(c.ttl, now)]);
    if key in c.seen {
      assert c'.seen.Keys == c.seen.Keys;
      assert |c'.seen| == |c.seen|;
    } else {
      EvictFacts(c'.(fifo := c.fifo + [key]), now);
    }
  }

  // ---------------------------------------------------------------------------------------------
  // Whole runs: the cache against the unbounded log

  datatype Op = OpTryEmit(key: Key) | OpForget(key: Key)

  /** One call at time `now`; the counters record effective forgets and stale queue pops. */
  datatype Run = Run(cache: Cache, log: map<Key, real>, clock: real, forgets: nat, pops: nat, capacityFired: bool)

  function InitRun(maxlen: nat, ttl: real): Run {
    Run(Cache(maxlen, ttl, map[], []), map[], 0.0, 0, 0, false)
  }

  function StepRun(r: Run, op: Op, now: real): Run {
    match op
    case OpTryEmit(key) =>
      if AlreadyEmitted(r.cache.seen, key, now) then r.(clock := now)
      else
        var log' := r.log[key := ExpiryOf(r.cache.ttl, now)];
        var r' := r.(cache := Remember(r.cache, key, now), log := log', clock := now);
        if key in r.cache.seen then r'
        else
          var full := r.cache.(seen := r.cache.seen[key := ExpiryOf(r.cache.ttl, now)], fifo := r.cache.fifo + [key]);
          r'.(pops := r.pops + StalePops(full, now), capacityFired := r.capacityFired || CapacityFires(full, now))
    case OpForget(key) =>
      r.(cache := Forget(r.cache, key), log := r.log - {key}, clock := now,
         forgets := r.forgets + if key in r.cache.seen then 1 else 0)
  }

  ghost predicate RunInv(r: Run) {
    && Bounded(r.cache)
    && (forall k :: k in r.cache.seen ==> k in r.log && r.log[k] == r.cache.seen[k])
    && |r.cache.fifo| - |r.cache.seen| == r.forgets - r.pops
    && (!r.capacityFired ==> forall k :: k in r.log && k !in r.cache.seen ==> Expired(r.log[k], r.clock))
  }

  lemma InsertKeepsRunInv(r: Run, key: Key, now: real)
    requires RunInv(r) && 0.0 < now && r.clock <= now && key !in r.cache.seen
    ensures RunInv(StepRun(r, OpTryEmit(key), now))
  {
    var expire := ExpiryOf(r.cache.ttl, now);
    var full := r.cache.(seen := r.cache.seen[key := expire], fifo := r.cache.fifo + [key]);
    assert full.seen.Keys == r.cache.seen.Keys + {key};
    assert |full.seen| == |r.cache.seen| + 1;
    assert Tracked(full);
    EvictFacts(full, now);
    var r' := StepRun(r, OpTryEmit(key), now);
    assert r'.cache == Evict(full, now) && r'.log == r.log[key := expire];
    if !r'.capacityFired {
      forall k | k in r'.log && k !in r'.cache.seen ensures Expired(r'.log[k], now) {
        if k !in full.seen {
          assert k in r.log && Expired(r.log[k], r.clock);
        }
      }
    }
  }

  lemma RenewKeepsRunInv(r: Run, key: Key, now: real)
    requires RunInv(r) && 0.0 < now && r.clock <= now && key in r.cache.seen
    ensures RunInv(StepRun(r, OpTryEmit(key), now))
  {
    if !AlreadyEmitted(r.cache.seen, key, now) {
      var seen' := r.cache.seen[key := ExpiryOf(r.cache.ttl, now)];
      assert seen'.Keys == r.cache.seen.Keys;
      assert |seen'| == |r.cache.seen|;
    }
  }

  lemma ForgetKeepsRunInv(r: Run, key: Key, now: real)
    requires RunInv(r) && 0.0 < now && r.clock <= now
    ensures RunInv(StepRun(r, OpForget(key), now))
  {
    var seen' := r.cache.seen - {key};
    assert seen'.Keys == r.cache.seen.Keys - {key};
    assert |seen'| == |r.cache.seen| - if key in r.cache.seen then 1 else 0;
  }

  lemma StepKeepsRunInv(r: Run, op: Op, now: real)
    requires RunInv(r) && 0.0 < now && r.clock <= now
    ensures RunInv(StepRun(r, op, now))
  {
    match op
    case OpTryEmit(key) =>
      if key in r.cache.seen {
        RenewKeepsRunInv(r, key, now);
      } else {
        InsertKeepsRunInv(r, key, now);
      }
    case OpForget(key) => ForgetKeepsRunInv(r, key, now);
  }

  /** Calls with their times, starting from a given point. */
  function RunOps(r: Run, ops: seq<(Op, real)>): Run
    decreases |ops|
  {
    if ops == [] then r else RunOps(StepRun(r, ops[0].0, ops[0].1), ops[1..])
  }

  ghost predicate Timed(ops: seq<(Op, real)>, from: real) {
    && (forall i :: 0 <= i < |ops| ==> 0.0 < ops[i].1 && from <= ops[i].1)
    && (forall i, j :: 0 <= i < j < |ops| ==> ops[i].1 <= ops[j].1)
  }

  lemma {:induction false} RunKeepsInv(r: Run, ops: seq<(Op, real)>)
    requires RunInv(r) && Timed(ops, r.clock)
    ensures RunInv(RunOps(r, ops))
    ensures ops != [] ==> RunOps(r, ops).clock == ops[|ops| - 1].1
    ensures ops == [] ==> RunOps(r, ops).clock == r.clock
    decreases |ops|
  {
    if ops == [] {
    } else {
      StepKeepsRunInv(r, ops[0].0, ops[0].1);
      TimedTail(ops, r.clock);
      RunKeepsInv(StepRun(r, ops[0].0, ops[0].1), ops[1..]);
    }
  }

  lemma TimedTail(ops: seq<(Op, real)>, from: real)
    requires Timed(ops, from) && ops != []
    ensures Timed(ops[1..], ops[0].1)
    ensures ops[1..] != [] ==> ops[1..][|ops[1..]| - 1] == ops[|ops| - 1]
  {
    forall i | 0 <= i < |ops[1..]| ensures 0.0 < ops[1..][i].1 && ops[0].1 <= ops[1..][i].1 {
      assert ops[1..][i] == ops[i + 1];
    }
  }

  /** Over every timed run from an empty cache: the cache stays within its bound, it answers "already emitted"
      only where the unbounded log does, it answers exactly as the log as long as no live entry was ever
      dropped for size, and queue length minus remembered keys counts forgets minus stale pops. */
  lemma CacheRefinesLog(maxlen: nat, ttl: real, ops: seq<(Op, real)>, key: Key, now: real)
    requires Timed(ops, 0.0) && (ops != [] ==> ops[|ops| - 1].1 <= now) && 0.0 < now
    ensures var r := RunOps(InitRun(maxlen, ttl), ops);
            && |r.cache.seen| <= maxlen
            && (forall k :: k in r.cache.seen ==> k in r.cache.fifo)
            && |r.cache.fifo| - |r.cache.seen| == r.forgets - r.pops
            && (AlreadyEmitted(r.cache.seen, key, now) ==> AlreadyEmitted(r.log, key, now))
            && (!r.capacityFired ==> (AlreadyEmitted(r.cache.seen, key, now) <==> AlreadyEmitted(r.log, key, now)))
  {
    var r0 := InitRun(maxlen, ttl);
    RunKeepsInv(r0, ops);
    MaxlenConstant(r0, ops);
  }

  lemma {:induction false} MaxlenConstant(r: Run, ops: seq<(Op, real)>)
    ensures RunOps(r, ops).cache.maxlen == r.cache.maxlen
    decreases |ops|
  {
    if ops == [] {
    } else {
      if ops[0].0.OpTryEmit? {
        RememberFacts(r.cache, ops[0].0.key, ops[0].1);
      }
      MaxlenConstant(StepRun(r, ops[0].0, ops[0].1), ops[1..]);
    }
  }

  /** The keys that a run ever tries to emit. */
  function EmittedKeys(ops: seq<(Op, real)>): set<Key> {
    set i | 0 <= i < |ops| && ops[i].0.OpTryEmit? :: ops[i].0.key
  }

  lemma CapacityNeedsRoom(c: Cache, now: real)
    requires CapacityFires(c, now)
    ensures |c.seen| > c.maxlen
    decreases |c.fifo|
  {
    var k := c.fifo[0];
    if k !in c.seen {
      CapacityNeedsRoom(c.(fifo := c.fifo[1..]), now);
    } else if Expired(c.seen[k], now) {
      assert (c.seen - {k}).Keys == c.seen.Keys - {k};
      CapacityNeedsRoom(c.(seen := c.seen - {k}, fifo := c.fifo[1..]), now);
    }
  }

  lemma SubsetSize<T>(a: set<T>, b: set<T>)
    requires a <= b
    ensures |a| <= |b|
  {
    assert b == a + (b - a);
  }

  lemma {:induction false} FewKeysNeverFire(r: Run, ops: seq<(Op, real)>, keys: set<Key>)
    requires !r.capacityFired && r.cache.seen.Keys <= keys && EmittedKeys(ops) <= keys && |keys| <= r.cache.maxlen
    ensures !RunOps(r, ops).capacityFired
    decreases |ops|
  {
    if ops == [] {
    } else {
      var (op, now) := ops[0];
      var r' := StepRun(r, op, now);
      if op.OpTryEmit? {
        assert op.key in EmittedKeys(ops);
        RememberFacts(r.cache, op.key, now);
        var full := r.cache.(seen := r.cache.seen[op.key := ExpiryOf(r.cache.ttl, now)], fifo := r.cache.fifo + [op.key]);
        SubsetSize(full.seen.Keys, keys);
        if CapacityFires(full, now) {
          CapacityNeedsRoom(full, now);
        }
      }
      forall k | k in EmittedKeys(ops[1..]) ensures k in keys {
        var i :| 0 <= i < |ops[1..]| && ops[1..][i].0.OpTryEmit? && ops[1..][i].0.key == k;
        assert ops[i + 1].0.key in EmittedKeys(ops);
      }
      FewKeysNeverFire(r', ops[1..], keys);
    }
  }

  /** A run over at most `maxlen` different keys is answered exactly as by the unbounded log. */
  lemma ExactWithinCapacity(maxlen: nat, ttl: real, ops: seq<(Op, real)>, key: Key, now: real)
    requires Timed(ops, 0.0) && (ops != [] ==> ops[|ops| - 1].1 <= now) && 0.0 < now
    requires |EmittedKeys(ops)| <= maxlen
    ensures var r := RunOps(InitRun(maxlen, ttl), ops);
            AlreadyEmitted(r.cache.seen, key, now) <==> AlreadyEmitted(r.log, key, now)
  {
    FewKeysNeverFire(InitRun(maxlen, ttl), ops, EmittedKeys(ops));
    CacheRefinesLog(maxlen, ttl, ops, key, now);
  }

  function TryAll(keys: seq<Key>, now: real): seq<(Op, real)> {
    if keys == [] then [] else [(OpTryEmit(keys[0]), now)] + TryAll(keys[1..], now)
  }

  /** The first i keys are in the cache, in order and live, and in the log. */
  ghost predicate HoldsFirst(r: Run, keys: seq<Key>, i: nat, now: real)
    requires i <= |keys|
  {
    && r.cache.fifo == keys[..i] && |r.cache.seen| == i
    && (forall k :: k in r.cache.seen <==> k in keys[..i])
    && (forall k :: k in r.cache.seen ==> !Expired(r.cache.seen[k], now))
    && (i > 0 ==> AlreadyEmitted(r.log, keys[0], now))
  }

  ghost predicate AllDifferent(keys: seq<Key>) {
    forall a, b :: 0 <= a < b < |keys| ==> keys[a] != keys[b]
  }

  /** The cache with the next key put in, before eviction. */
  function WithNext(c: Cache, key: Key, now: real): Cache {
    c.(seen := c.seen[key := ExpiryOf(c.ttl, now)], fifo := c.fifo + [key])
  }

  lemma NextFits(r: Run, keys: seq<Key>, i: nat, now: real)
    requires 0.0 < now && i < |keys| && HoldsFirst(r, keys, i, now) && AllDifferent(keys)
    ensures keys[i] !in r.cache.seen
    ensures var full := WithNext(r.cache, keys[i], now);
            && full.fifo == keys[..i + 1] && |full.seen| == i + 1
            && (forall k :: k in full.seen <==> k in keys[..i + 1])
            && (forall k :: k in full.seen ==> !Expired(full.seen[k], now))
  {
    var full := WithNext(r.cache, keys[i], now);
    assert keys[..i + 1] == keys[..i] + [keys[i]];
    assert full.seen.Keys == r.cache.seen.Keys + {keys[i]};
  }

  lemma StaysWhileRoom(r: Run, keys: seq<Key>, i: nat, now: real)
    requires 0.0 < now && i < r.cache.maxlen < |keys| && HoldsFirst(r, keys, i, now) && AllDifferent(keys)
    ensures var r' := StepRun(r, OpTryEmit(keys[i]), now);
            HoldsFirst(r', keys, i + 1, now) && r'.cache.maxlen == r.cache.maxlen
  {
    NextFits(r, keys, i, now);
    var full := WithNext(r.cache, keys[i], now);
    assert full.fifo[0] in full.seen;
    assert Evict(full, now) == full;
  }

  lemma FirstGoesWhenFull(r: Run, keys: seq<Key>, i: nat, now: real)
    requires 0.0 < now && i == r.cache.maxlen < |keys| && HoldsFirst(r, keys, i, now) && AllDifferent(keys)
    ensures var r' := StepRun(r, OpTryEmit(keys[i]), now);
            keys[0] !in r'.cache.seen && AlreadyEmitted(r'.log, keys[0], now)
  {
    NextFits(r, keys, i, now);
    var full := WithNext(r.cache, keys[i], now);
    assert full.fifo[0] == keys[0] && keys[0] in full.seen;
    EvictFacts(full.(seen := full.seen - {keys[0]}, fifo := full.fifo[1..]), now);
  }

  lemma {:induction false} FillAndOverflow(r: Run, keys: seq<Key>, i: nat, now: real)
    requires 0.0 < now && |keys| == r.cache.maxlen + 1 && i < |keys| && HoldsFirst(r, keys, i, now) && AllDifferent(keys)
    ensures var r' := RunOps(r, TryAll(keys[i..], now));
            keys[0] !in r'.cache.seen && AlreadyEmitted(r'.log, keys[0], now)
    decreases |keys| - i
  {
    var r' := StepRun(r, OpTryEmit(keys[i]), now);
    RunFirst(r, keys, i, now);
    if i == r.cache.maxlen {
      FirstGoesWhenFull(r, keys, i, now);
      assert TryAll(keys[i + 1..], now) == [];
    } else {
      StaysWhileRoom(r, keys, i, now);
      FillAndOverflow(r', keys, i + 1, now);
    }
  }

  lemma RunFirst(r: Run, keys: seq<Key>, i: nat, now: real)
    requires i < |keys|
    ensures RunOps(r, TryAll(keys[i..], now)) == RunOps(StepRun(r, OpTryEmit(keys[i]), now), TryAll(keys[i + 1..], now))
  {
    assert keys[i..][1..] == keys[i + 1..];
    var ops := TryAll(keys[i..], now);
    assert ops[1..] == TryAll(keys[i + 1..], now);
  }

  /** And one key more is too many: when maxlen + 1 different keys are emitted at one time, the first is gone from the
      cache although the log still has it. */
  lemma OneKeyTooMany(maxlen: nat, ttl: real, keys: seq<Key>, now: real)
    requires 0.0 < now && |keys| == maxlen + 1 && AllDifferent(keys)
    ensures var r := RunOps(InitRun(maxlen, ttl), TryAll(keys, now));
            !AlreadyEmitted(r.cache.seen, keys[0], now) && AlreadyEmitted(r.log, keys[0], now)
  {
    FillAndOverflow(InitRun(maxlen, ttl), keys, 0, now);
    assert keys[0..] == keys;
  }

  // --- the exact condition: a live entry dropped for size is one the log still answers for

  /** Cache and log give every question at this time the same answer. */
  ghost predicate Agrees(r: Run, now: real) {
    forall key :: AlreadyEmitted(r.cache.seen, key, now) <==> AlreadyEmitted(r.log, key, now)
  }

  /** The entry that the size bound throws out. */
  lemma {:induction false} CapacityVictim(c: Cache, now: real) returns (k: Key)
    requires CapacityFires(c, now)
    ensures k in c.seen && !Expired(c.seen[k], now) && k !in Evict(c, now).seen
    decreases |c.fifo|
  {
    k := c.fifo[0];
    if k !in c.seen {
      k := CapacityVictim(c.(fifo := c.fifo[1..]), now);
    } else if Expired(c.seen[k], now) {
      k := CapacityVictim(c.(seen := c.seen - {k}, fifo := c.fifo[1..]), now);
    } else {
      EvictFacts(c.(seen := c.seen - {k}, fifo := c.fifo[1..]), now);
    }
  }

  lemma FiringParts(r: Run, op: Op, now: real)
    requires RunInv(r) && 0.0 < now && r.clock <= now && !r.capacityFired && StepRun(r, op, now).capacityFired
    ensures !Agrees(StepRun(r, op, now), now)
  {
    var key := op.key;
    var k := CapacityVictim(WithNext(r.cache, key, now), now);
    var r' := StepRun(r, op, now);
    assert r'.cache == Evict(WithNext(r.cache, key, now), now);
    assert k in r'.log && r'.log[k] == WithNext(r.cache, key, now).seen[k];
    assert AlreadyEmitted(r'.log, k, now) && !AlreadyEmitted(r'.cache.seen, k, now);
  }

  lemma QuietAgrees(r: Run, now: real)
    requires RunInv(r) && !r.capacityFired && 0.0 < now && r.clock <= now
    ensures Agrees(r, now)
  {
  }

  /** After every call of the run, at the time of the call, cache and log agree. */
  ghost predicate AgreesThroughout(r: Run, ops: seq<(Op, real)>)
    decreases |ops|
  {
    ops != [] ==>
      Agrees(StepRun(r, ops[0].0, ops[0].1), ops[0].1) && AgreesThroughout(StepRun(r, ops[0].0, ops[0].1), ops[1..])
  }

  lemma {:induction false} FiredStays(r: Run, ops: seq<(Op, real)>)
    requires r.capacityFired
    ensures RunOps(r, ops).capacityFired
    decreases |ops|
  {
    if ops == [] {
    } else {
      FiredStays(StepRun(r, ops[0].0, ops[0].1), ops[1..]);
    }
  }

  lemma {:induction false} AgreesIffFrom(r: Run, ops: seq<(Op, real)>)
    requires RunInv(r) && !r.capacityFired && Timed(ops, r.clock)
    ensures AgreesThroughout(r, ops) <==> !RunOps(r, ops).capacityFired
    decreases |ops|
  {
    if ops == [] {
    } else {
      var (op, now) := ops[0];
      var r' := StepRun(r, op, now);
      StepKeepsRunInv(r, op, now);
      TimedTail(ops, r.clock);
      if r'.capacityFired {
        FiringParts(r, op, now);
        FiredStays(r', ops[1..]);
      } else {
        QuietAgrees(r', now);
        AgreesIffFrom(r', ops[1..]);
      }
    }
  }

  /** On a timed run from an empty cache, cache and log agree after every call exactly when no live entry was ever dropped
      for size. */
  lemma AgreesIff(maxlen: nat, ttl: real, ops: seq<(Op, real)>)
    requires Timed(ops, 0.0)
    ensures AgreesThroughout(InitRun(maxlen, ttl), ops) <==> !RunOps(InitRun(maxlen, ttl), ops).capacityFired
  {
    AgreesIffFrom(InitRun(maxlen, ttl), ops);
  }
}
