/**
 * The in-process rate limiter: a cache from key to the number of calls
 * counted for it. A call is refused once the key's count reaches the limit;
 * otherwise the count goes up by one. The cache forgets an entry 15 minutes
 * after it was last written or when it must make room past 500 entries;
 * the model lets any entry be forgotten at any time (`Forget`).
 */
module RateLimiter {
  const MaxEntries: nat := 500
  const TtlMillis: nat := 15 * 60 * 1000
  const DefaultLimit: nat := 5

  /** The count a key has: an absent entry counts as 0. */
  function Count(entries: map<string, nat>, key: string): nat {
    if key in entries then entries[key] else 0
  }

  /** One call: whether it is refused, and the cache afterwards. */
  datatype Decision = Decision(limited: bool, entries: map<string, nat>)

  function Decide(entries: map<string, nat>, key: string, limit: nat): (d: Decision)
    ensures d.limited <==> Count(entries, key) >= limit
    ensures d.limited ==> d.entries == entries
    ensures !d.limited ==> Count(d.entries, key) == Count(entries, key) + 1
    ensures forall k :: k != key ==> Count(d.entries, k) == Count(entries, k)
    ensures d.entries.Keys <= entries.Keys + {key}
  {
    var current := Count(entries, key);
    if current >= limit then Decision(true, entries)
    else Decision(false, entries[key := current + 1])
  }

  /** Every stored count is at most the limit. */
  predicate Bounded(entries: map<string, nat>, limit: nat) {
    forall k :: k in entries ==> entries[k] <= limit
  }

  /** A call never takes a count past the limit. */
  lemma DecideKeepsBounded(entries: map<string, nat>, key: string, limit: nat)
    requires Bounded(entries, limit)
    ensures Bounded(Decide(entries, key, limit).entries, limit)
  {
  }

  /** The answers to `n` consecutive calls with the same key and limit. */
  function Answers(entries: map<string, nat>, key: string, limit: nat, n: nat): (r: seq<bool>)
    ensures |r| == n
    decreases n
  {
    if n == 0 then []
    else
      var d := Decide(entries, key, limit);
      [d.limited] + Answers(d.entries, key, limit, n - 1)
  }

  /** From a count `c` not above the limit, call `i` is refused exactly when `c + i` has reached the limit. */
  lemma {:induction false} AnswersFrom(entries: map<string, nat>, key: string, limit: nat, n: nat, i: nat)
    requires Count(entries, key) <= limit && i < n
    ensures Answers(entries, key, limit, n)[i] <==> Count(entries, key) + i >= limit
    decreases n
  {
    var d := Decide(entries, key, limit);
    if i > 0 {
      AnswersFrom(d.entries, key, limit, n - 1, i - 1);
    }
  }

  /** With the default limit a key with no entry is let through exactly five times, then refused. */
  lemma FreshKeyFiveTimes(entries: map<string, nat>, key: string, n: nat, i: nat)
    requires key !in entries && i < n
    ensures Answers(entries, key, DefaultLimit, n)[i] <==> i >= 5
  {
    AnswersFrom(entries, key, DefaultLimit, n, i);
  }

  class Limiter {
    var entries: map<string, nat>

    constructor ()
      ensures entries == map[]
    {
      entries := map[];
    }

    /** `isRateLimited(key, limit)`. */
    method IsRateLimited(key: string, limit: nat) returns (limited: bool)
      modifies this
      ensures Decision(limited, entries) == Decide(old(entries), key, limit)
    {
      var current := if key in entries then entries[key] else 0;
      if current >= limit {
        return true;
      }
      entries := entries[key := current + 1];
      return false;
    }

    /** The cache drops an entry: it expired or was evicted. */
    method Forget(key: string)
      modifies this
      ensures entries == old(entries) - {key}
      ensures Count(entries, key) == 0
    {
      entries := entries - {key};
    }
  }
}
