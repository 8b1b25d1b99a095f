/** The expiring key/value store behind both caches of the handle: every
    entry carries the instant (in whole seconds) at which it stops being
    returned; expired entries read as absent. */
module TtlCache {
  import opened Outcomes

  datatype Entry<T> = Entry(value: T, expiresAt: int)

  type TtlMap<T> = map<string, Entry<T>>

  predicate Live<T>(m: TtlMap<T>, key: string, now: int)
  {
    key in m && now < m[key].expiresAt
  }

  /** Lazy expiry: an entry is returned only while it is live. */
  function Get<T>(m: TtlMap<T>, key: string, now: int): Option<T>
  {
    if Live(m, key, now) then Some(m[key].value) else None
  }

  /** Stores `value` under `key` for `ttl` seconds from `now`. */
  function Set<T>(m: TtlMap<T>, key: string, value: T, ttl: int, now: int): (m': TtlMap<T>)
    requires ttl > 0
    ensures forall t :: now <= t < now + ttl ==> Get(m', key, t) == Some(value)
    ensures forall t :: now + ttl <= t ==> Get(m', key, t) == None
    ensures forall k :: k != key ==> (k in m' <==> k in m)
    ensures forall k :: k != key && k in m ==> m'[k] == m[k]
    ensures key in m' && m'[key] == Entry(value, now + ttl)
  {
    m[key := Entry(value, now + ttl)]
  }
}
