/**
 * The per-IP rate limit applied to requests classified as malicious
 * (src/index.js, lines 49-66): a counter in the RATE_LIMITER_KV namespace,
 * keyed `ip:<client ip>`, read, incremented, checked against the limit and
 * written back with a 60-second expiry.
 */
module RateLimit {
  import opened Wrappers

  const Limit: nat := 20
  const TtlSeconds: nat := 60

  /** A stored counter and the expiration TTL it was written with. */
  datatype Entry = Entry(count: nat, ttl: nat)

  datatype Decision = Admit | Throttle

  /**
   * Whether the KV read fails (caught and logged) and whether the KV write
   * fails (it is not awaited; the request is answered regardless).
   */
  datatype StoreHealth = StoreHealth(readFails: bool, writeFails: bool)

  const Healthy := StoreHealth(false, false)

  /**
   * The key `ip:${clientIP}`: a missing CF-Connecting-IP header is `null`,
   * which the template literal renders as "null".
   */
  function KeyFor(ip: Option<string>): (key: string)
    ensures |key| >= 3 && key[..3] == "ip:"
    ensures ip.Some? ==> key[3..] == ip.value
    ensures ip.None? ==> key == "ip:null"
  {
    "ip:" + ip.GetOr("null")
  }

  /** Two present, different IPs never share a counter. */
  lemma KeyForInjective(a: string, b: string)
    requires KeyFor(Some(a)) == KeyFor(Some(b))
    ensures a == b
  {
    assert a == KeyFor(Some(a))[3..];
    assert b == KeyFor(Some(b))[3..];
  }

  /** The counter for `key`: a missing key counts as 0. */
  function Stored(store: map<string, Entry>, key: string): (n: nat)
    ensures key !in store ==> n == 0
    ensures key in store ==> n == store[key].count
  {
    if key in store then store[key].count else 0
  }

  /** No stored counter exceeds the limit. */
  ghost predicate Bounded(store: map<string, Entry>)
  {
    forall k :: k in store ==> store[k].count <= Limit
  }

  /**
   * One pass through the gate for `key`: the decision and the store after
   * it. A failed read admits without writing; a count over the limit
   * throttles without writing; otherwise the count is written unless the
   * write fails.
   */
  function GateStep(store: map<string, Entry>, key: string, health: StoreHealth): (r: (Decision, map<string, Entry>))
    ensures r.0 == Throttle ==> r.1 == store
    ensures r.1 == store || r.1 == store[key := Entry(Stored(store, key) + 1, TtlSeconds)]
    ensures r.1 != store ==> r.0 == Admit && Stored(store, key) < Limit
  {
    if health.readFails then (Admit, store)
    else
      var count := Stored(store, key) + 1;
      if count > Limit then (Throttle, store)
      else if health.writeFails then (Admit, store)
      else (Admit, store[key := Entry(count, TtlSeconds)])
  }

  /** Throttled exactly when the read succeeds and the incremented count exceeds 20. */
  lemma GateThreshold(store: map<string, Entry>, key: string, health: StoreHealth)
    ensures GateStep(store, key, health).0 == Throttle <==> !health.readFails && Stored(store, key) + 1 > Limit
  {
  }

  /** A throttled request writes nothing. */
  lemma NoWriteOnThrottle(store: map<string, Entry>, key: string, health: StoreHealth)
    requires GateStep(store, key, health).0 == Throttle
    ensures GateStep(store, key, health).1 == store
  {
  }

  /**
   * An admitted request with a working store writes the incremented count
   * with a 60-second TTL under its own key and changes no other key.
   */
  lemma AdmitWritesCount(store: map<string, Entry>, key: string)
    requires GateStep(store, key, Healthy).0 == Admit
    ensures var after := GateStep(store, key, Healthy).1;
            && after.Keys == store.Keys + {key}
            && after[key] == Entry(Stored(store, key) + 1, TtlSeconds)
            && forall k :: k in store && k != key ==> after[k] == store[k]
  {
  }

  /** A failed read or write never throttles on its own and leaves the store as it was. */
  lemma FailOpen(store: map<string, Entry>, key: string, health: StoreHealth)
    ensures health.readFails ==> GateStep(store, key, health) == (Admit, store)
    ensures health.writeFails ==> GateStep(store, key, health).1 == store
  {
  }

  /** The gate keeps every counter within the limit. */
  lemma GatePreservesBound(store: map<string, Entry>, key: string, health: StoreHealth)
    requires Bounded(store)
    ensures Bounded(GateStep(store, key, health).1)
  {
  }

  /** `n` consecutive requests for `key` through a working store: the decisions and the final store. */
  function Burst(store: map<string, Entry>, key: string, n: nat): (r: (seq<Decision>, map<string, Entry>))
    ensures |r.0| == n
    decreases n
  {
    if n == 0 then ([], store)
    else
      var (d, next) := GateStep(store, key, Healthy);
      var (rest, last) := Burst(next, key, n - 1);
      ([d] + rest, last)
  }

  /**
   * Starting from a counter `s` within the limit, the i-th request of a burst
   * is admitted exactly when `s + i < 20`, and the counter ends at
   * `min(s + n, 20)`.
   */
  lemma {:induction false} BurstDecisions(store: map<string, Entry>, key: string, n: nat)
    requires Stored(store, key) <= Limit
    ensures forall i :: 0 <= i < n ==> (Burst(store, key, n).0[i] == Admit <==> Stored(store, key) + i < Limit)
    ensures Stored(Burst(store, key, n).1, key) == if Stored(store, key) + n < Limit then Stored(store, key) + n else Limit
    decreases n
  {
    if n > 0 {
      var (d, next) := GateStep(store, key, Healthy);
      BurstDecisions(next, key, n - 1);
      var rest := Burst(next, key, n - 1).0;
      assert Burst(store, key, n).0 == [d] + rest;
      assert Stored(next, key) == if Stored(store, key) < Limit then Stored(store, key) + 1 else Limit;
      forall i | 1 <= i < n
        ensures Burst(store, key, n).0[i] == Admit <==> Stored(store, key) + i < Limit
      {
        assert Burst(store, key, n).0[i] == rest[i - 1];
      }
    }
  }

  /** From no counter, the first 20 requests are admitted and every later one is throttled. */
  lemma FirstTwentyAdmitted(store: map<string, Entry>, key: string, n: nat)
    requires key !in store
    ensures forall i :: 0 <= i < n && i < Limit ==> Burst(store, key, n).0[i] == Admit
    ensures forall i :: Limit <= i < n ==> Burst(store, key, n).0[i] == Throttle
  {
    BurstDecisions(store, key, n);
  }

  /** Once the KV store reaps an expired counter, the next request counts as the first. */
  lemma ExpiryResets(store: map<string, Entry>, key: string)
    ensures GateStep(store - {key}, key, Healthy) == (Admit, (store - {key})[key := Entry(1, TtlSeconds)])
  {
  }

  /** The RATE_LIMITER_KV namespace as the gate sees it. */
  class RateLimiter {
    var entries: map<string, Entry>

    ghost predicate Valid()
      reads this
    {
      Bounded(entries)
    }

    /** A namespace holding no counters. */
    constructor Empty()
      ensures Valid() && entries == map[]
    {
      entries := map[];
    }

    /** A namespace already holding counters within the limit. */
    constructor (initial: map<string, Entry>)
      requires Bounded(initial)
      ensures Valid() && entries == initial
    {
      entries := initial;
    }

    /**
     * Read, increment, check and write back, as the handler does for a
     * malicious request.
     */
    method Gate(ip: Option<string>, health: StoreHealth) returns (d: Decision)
      modifies this
      ensures (d, entries) == GateStep(old(entries), KeyFor(ip), health)
      ensures old(Valid()) ==> Valid()
    {
      var key := KeyFor(ip);
      if health.readFails {
        return Admit;
      }
      var current := if key in entries then entries[key].count else 0;
      var count := current + 1;
      if count > Limit {
        return Throttle;
      }
      if !health.writeFails {
        entries := entries[key := Entry(count, TtlSeconds)];
      }
      d := Admit;
    }

    /** The store reaps `key` when its TTL runs out. */
    method Expire(key: string)
      modifies this
      ensures entries == old(entries) - {key}
      ensures old(Valid()) ==> Valid()
    {
      entries := entries - {key};
    }
  }
}
