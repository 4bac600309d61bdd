/**
 Brute-force lockout (app/services/bruteforce_service.py and the gate of `login_user`,
 app/services/auth_service.py:189-238): fixed-window counters and locks in a Redis key space.
 */
module Lockout {
  import opened Prelude
  import opened Text
  import opened LockoutKeys

  /** A stored number and the instant it disappears; None until EXPIRE or SET EX is called. */
  datatype Entry = Entry(value: nat, expires: Option<Time>)

  type Store = map<string, Entry>

  datatype Limits = Limits(maxAttempts: Positive, ttlSeconds: Positive) {
    function Ttl(): (t: int)
      ensures 0 < t
    {
      ttlSeconds * SECOND
    }
  }

  predicate Live(store: Store, now: Time, key: string) {
    key in store && (store[key].expires.Some? ==> now < store[key].expires.value)
  }

  function Attempts(store: Store, now: Time, key: string): nat {
    if Live(store, now, key) then store[key].value else 0
  }

  // ---- Specification of the three service calls ----

  function Bumped(lim: Limits, store: Store, now: Time, key: string): Store {
    var n := Attempts(store, now, key) + 1;
    store[key := Entry(n, if n == 1 then Some(now + lim.Ttl()) else store[key].expires)]
  }

  function RecordKey(lim: Limits, store: Store, now: Time, key: string): Store {
    var bumped := Bumped(lim, store, now, key);
    if bumped[key].value >= lim.maxAttempts
    then bumped[DerivedLockKey(key) := Entry(1, Some(now + lim.Ttl()))]
    else bumped
  }

  function RecordKeys(lim: Limits, store: Store, now: Time, keys: seq<string>): Store {
    if keys == [] then store
    else RecordKey(lim, RecordKeys(lim, store, now, keys[..|keys| - 1]), now, keys[|keys| - 1])
  }

  predicate Locked(store: Store, now: Time, email: string, ip: Option<string>) {
    exists key | key in LockKeys(email, ip) :: Live(store, now, key)
  }

  function Record(lim: Limits, store: Store, now: Time, email: string, ip: Option<string>): Store {
    RecordKeys(lim, store, now, CounterKeys(email, ip))
  }

  function Clear(store: Store, email: string, ip: Option<string>): Store {
    store - (set key | key in CounterKeys(email, ip) + LockKeys(email, ip))
  }

  // ---- The service, over a mutable key space ----

  class RedisClient {
    var store: Store

    constructor ()
      ensures store == map[]
    {
      store := map[];
    }

    method Exists(now: Time, key: string) returns (found: bool)
      ensures found == Live(store, now, key)
    {
      found := Live(store, now, key);
    }

    method Incr(now: Time, key: string) returns (n: nat)
      modifies this
      ensures n == Attempts(old(store), now, key) + 1
      ensures store == old(store)[key := Entry(n, if Live(old(store), now, key) then old(store)[key].expires else None)]
    {
      if Live(store, now, key) {
        n := store[key].value + 1;
        store := store[key := store[key].(value := n)];
      } else {
        n := 1;
        store := store[key := Entry(1, None)];
      }
    }

    method Expire(now: Time, key: string, ticks: int)
      requires key in store
      modifies this
      ensures store == old(store)[key := old(store)[key].(expires := Some(now + ticks))]
    {
      store := store[key := store[key].(expires := Some(now + ticks))];
    }

    method Set(now: Time, key: string, ticks: int)
      modifies this
      ensures store == old(store)[key := Entry(1, Some(now + ticks))]
    {
      store := store[key := Entry(1, Some(now + ticks))];
    }

    method Delete(keys: seq<string>)
      modifies this
      ensures store == old(store) - (set key | key in keys)
    {
      store := store - (set key | key in keys);
    }
  }

  method CheckLoginLockout(redis: RedisClient, now: Time, email: string, ip: Option<string>) returns (locked: bool)
    ensures locked == Locked(redis.store, now, email, ip)
  {
    var keys := LockKeys(email, ip);
    for i := 0 to |keys|
      invariant forall j | 0 <= j < i :: !Live(redis.store, now, keys[j])
    {
      var found := redis.Exists(now, keys[i]);
      if found {
        return true;
      }
    }
    return false;
  }

  method RecordFailedLogin(lim: Limits, redis: RedisClient, now: Time, email: string, ip: Option<string>)
    modifies redis
    ensures redis.store == Record(lim, old(redis.store), now, email, ip)
  {
    var keys := CounterKeys(email, ip);
    ghost var before := redis.store;
    for i := 0 to |keys|
      invariant redis.store == RecordKeys(lim, before, now, keys[..i])
    {
      assert keys[..i + 1][..i] == keys[..i];
      ghost var mid := redis.store;
      var attempts := redis.Incr(now, keys[i]);
      if attempts == 1 {
        redis.Expire(now, keys[i], lim.Ttl());
      }
      assert redis.store == Bumped(lim, mid, now, keys[i]);
      if attempts >= lim.maxAttempts {
        redis.Set(now, DerivedLockKey(keys[i]), lim.Ttl());
      }
    }
    assert keys[..|keys|] == keys;
  }

  method ClearFailedLogin(redis: RedisClient, email: string, ip: Option<string>)
    modifies redis
    ensures redis.store == Clear(old(redis.store), email, ip)
  {
    redis.Delete(CounterKeys(email, ip) + LockKeys(email, ip));
  }

  // ---- Login attempts against the gate ----

  datatype Credential = Wrong | CorrectInactive | Correct

  datatype Attempt = Attempt(at: Time, email: string, ip: Option<string>, credential: Credential)

  datatype Verdict = Refused | Rejected | Inactive | Admitted

  function Gate(store: Store, a: Attempt): Verdict {
    if Locked(store, a.at, a.email, a.ip) then Refused
    else match a.credential
      case Wrong => Rejected
      case CorrectInactive => Inactive
      case Correct => Admitted
  }

  function After(lim: Limits, store: Store, a: Attempt): Store {
    match Gate(store, a)
    case Rejected => Record(lim, store, a.at, a.email, a.ip)
    case Admitted => Clear(store, a.email, a.ip)
    case _ => store
  }

  function Run(lim: Limits, store: Store, attempts: seq<Attempt>): Store {
    if attempts == [] then store
    else After(lim, Run(lim, store, attempts[..|attempts| - 1]), attempts[|attempts| - 1])
  }

  /** The clock never goes back. */
  predicate InOrder(start: Time, attempts: seq<Attempt>) {
    && (forall i | 0 <= i < |attempts| :: start <= attempts[i].at)
    && forall i, j | 0 <= i < j < |attempts| :: attempts[i].at <= attempts[j].at
  }

  function LastTime(start: Time, attempts: seq<Attempt>): Time {
    if attempts == [] then start else attempts[|attempts| - 1].at
  }

  /** The times at which a password of this account was checked and found wrong. */
  function Failures(lim: Limits, store: Store, attempts: seq<Attempt>, subject: string): seq<Time> {
    if attempts == [] then []
    else
      var before, a := attempts[..|attempts| - 1], attempts[|attempts| - 1];
      Failures(lim, store, before, subject)
      + (if Lower(a.email) == subject && Gate(Run(lim, store, before), a) == Rejected then [a.at] else [])
  }

  /** Whether some login of this account got as far as clearing its counters. */
  predicate Cleared(lim: Limits, store: Store, attempts: seq<Attempt>, subject: string) {
    exists i | 0 <= i < |attempts| ::
      Lower(attempts[i].email) == subject && Gate(Run(lim, store, attempts[..i]), attempts[i]) == Admitted
  }
}
