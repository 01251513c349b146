/** The shared expiring cache as a value: one map from keys to entries, read and written at an
    instant. Times and durations are nanoseconds. */
module CacheStore {
  import opened GoErrors
  import opened JsonCodec

  const MILLISECOND := 1_000_000
  const SECOND := 1_000_000_000
  const MINUTE := 60 * SECOND
  const HOUR := 60 * MINUTE

  const INT64_MAX := 0x7fff_ffff_ffff_ffff

  /** The two cache clients: in-memory freecache (local development) and Redis. */
  datatype Backend = FreeCache | Redis

  /** A cached string: plain text, or the text of a JSON document, kept as its tree. */
  datatype Value = Text(text: string) | Doc(tree: Json)

  datatype Entry = Entry(value: Value, storedAt: nat, expiresAt: Option<nat>)

  type Store = map<string, Entry>

  /** The one cache object that all its users are given. */
  class SharedCache {
    var store: Store

    constructor ()
      ensures store == map[]
    {
      store := map[];
    }
  }

  /** When a value set now stops being served. Freecache truncates the duration to whole seconds,
      and zero seconds means no expiry; Redis keeps the duration, and zero means no expiry. */
  function ExpiryAt(backend: Backend, now: nat, ttl: nat): Option<nat> {
    match backend
    case FreeCache => if ttl / SECOND == 0 then None else Some(now + ttl / SECOND * SECOND)
    case Redis => if ttl == 0 then None else Some(now + ttl)
  }

  predicate Live(entry: Entry, now: nat) {
    entry.expiresAt.None? || now < entry.expiresAt.value
  }

  function Put(backend: Backend, store: Store, key: string, value: Value, ttl: nat, now: nat): Store {
    store[key := Entry(value, now, ExpiryAt(backend, now, ttl))]
  }

  function Read(store: Store, key: string, now: nat): Option<Value> {
    if key in store && Live(store[key], now) then Some(store[key].value) else None
  }

  /** Wrap-around of a 64-bit signed integer. */
  function Int64(n: int): int {
    (n + INT64_MAX + 1) % (2 * (INT64_MAX + 1)) - (INT64_MAX + 1)
  }

  /** `GetSeconds`, `GetMinutes`, `GetHours`: a configured count times its unit, in 64 bits. */
  function Duration(count: int, unit: int): int {
    Int64(count * unit)
  }

  /** A configured time-to-live keeps its meaning exactly when the product fits in 64 bits. Then a
      validated (positive) one is at least a whole second, so under freecache it expires, at a time
      that is never later than asked and less than a second early. */
  lemma ValidatedTtl(backend: Backend, count: int, unit: int, now: nat)
    requires count > 0 && unit in {SECOND, MINUTE, HOUR}
    ensures Duration(count, unit) == count * unit <==> count * unit <= INT64_MAX
    ensures count * unit <= INT64_MAX ==>
      && Duration(count, unit) >= SECOND
      && ExpiryAt(backend, now, Duration(count, unit)) == Some(now + count * unit)
  {
    var product := count * unit;
    assert product >= unit;
    if product <= INT64_MAX {
      assert product / SECOND * SECOND == product by {
        var perUnit := unit / SECOND;
        assert unit == perUnit * SECOND;
        assert product == (count * perUnit) * SECOND by {
          assert count * (perUnit * SECOND) == (count * perUnit) * SECOND;
        }
      }
    }
  }

  /** Minutes that overflow: a validated count whose duration is negative, so every `Set` with it
      fails. */
  lemma OverflowingTtl()
    ensures Duration(153_722_868, MINUTE) < 0
  {
  }

  /** The one nanosecond used to reset a timeout status is the only kind of duration freecache
      turns into "never expires": less than a second. */
  lemma NeverExpiresIff(backend: Backend, now: nat, ttl: nat)
    ensures ExpiryAt(backend, now, ttl).None? <==> (ttl == 0 || (backend == FreeCache && ttl < SECOND))
    ensures ExpiryAt(backend, now, ttl).Some? ==>
      var at := ExpiryAt(backend, now, ttl).value;
      if backend == Redis then at == now + ttl else now + ttl - SECOND < at <= now + ttl && (at - now) % SECOND == 0
  {
  }
}
