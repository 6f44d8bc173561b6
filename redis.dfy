/**
  The session store: the Redis instance the handlers use as a key-value map
  whose entries expire. Network and server failures are a `fails` flag on each
  call. Expired entries read as absent.
*/
module Redis {
  import opened Wrappers

  /** A stored value and the instant (Unix seconds) from which it reads as absent; None never expires. */
  datatype Entry = Entry(value: string, expiresAt: Option<int>)

  datatype RedisError =
    | Nil          // redis.Nil: no such key
    | Unavailable  // connection or server failure

  function ErrorText(e: RedisError): string {
    match e
    case Nil => "redis: nil"
    case Unavailable => "redis: connection failure"
  }

  predicate Live(e: Entry, now: int) {
    e.expiresAt.None? || now < e.expiresAt.value
  }

  /**
    The expiry the client asks for: go-redis sends EX/PX only for a positive
    duration, so a TTL of zero or less stores a key that never expires.
  */
  function ExpiryFor(ttl: int, now: int): (r: Option<int>)
    ensures ttl > 0 ==> r == Some(now + ttl)
    ensures ttl <= 0 ==> r.None?
  {
    if ttl > 0 then Some(now + ttl) else None
  }

  /** GET on a map of entries at instant `now`. */
  function Lookup(entries: map<string, Entry>, key: string, now: int): (r: Option<string>)
    ensures r.Some? <==> key in entries && Live(entries[key], now)
    ensures r.Some? ==> r.value == entries[key].value
  {
    if key in entries && Live(entries[key], now) then Some(entries[key].value) else None
  }

  class Client {
    var entries: map<string, Entry>

    constructor ()
      ensures entries == map[]
    {
      entries := map[];
    }

    /** SET key value with a TTL: creates or overwrites the entry. */
    method Set(key: string, value: string, ttl: int, now: int, fails: bool) returns (err: Option<RedisError>)
      modifies this
      ensures err == (if fails then Some(Unavailable) else None)
      ensures !fails ==> entries == old(entries)[key := Entry(value, ExpiryFor(ttl, now))]
      ensures fails ==> entries == old(entries)
      ensures !fails ==> forall t :: now <= t && (ttl <= 0 || t < now + ttl) ==> Lookup(entries, key, t) == Some(value)
      ensures !fails && ttl > 0 ==> forall t :: t >= now + ttl ==> Lookup(entries, key, t).None?
    {
      if fails {
        return Some(Unavailable);
      }
      entries := entries[key := Entry(value, ExpiryFor(ttl, now))];
      return None;
    }

    /** GET key: the live value, redis.Nil when absent or expired. */
    method Get(key: string, now: int, fails: bool) returns (r: Result<string, RedisError>)
      ensures fails ==> r == Err(Unavailable)
      ensures !fails ==> (r.Ok? <==> Lookup(entries, key, now).Some?)
      ensures !fails && r.Ok? ==> r.value == entries[key].value
      ensures !fails && r.Err? ==> r.error == Nil
    {
      if fails {
        return Err(Unavailable);
      }
      if key in entries && Live(entries[key], now) {
        return Ok(entries[key].value);
      }
      return Err(Nil);
    }

    /** DEL key: the number of live keys removed (0 or 1); afterwards the key reads as absent. */
    method Del(key: string, now: int, fails: bool) returns (r: Result<nat, RedisError>)
      modifies this
      ensures fails ==> r == Err(Unavailable) && entries == old(entries)
      ensures !fails ==> r == Ok(if Lookup(old(entries), key, now).Some? then 1 else 0)
      ensures !fails ==> entries == old(entries) - {key}
      ensures !fails ==> forall t :: Lookup(entries, key, t).None?
    {
      if fails {
        return Err(Unavailable);
      }
      var count := if key in entries && Live(entries[key], now) then 1 else 0;
      entries := entries - {key};
      return Ok(count);
    }
  }
}
