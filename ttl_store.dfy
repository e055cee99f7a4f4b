/**
 * The key/value store with per-key expiry that every handler talks to
 * (`redisClient`, backend/index.js:20). Only the three commands the
 * controller uses are modelled: GET, SET with EX (also written `setEx`)
 * and DEL. Time is an explicit integer clock in seconds.
 */
module TtlStore {
  import opened Wrappers

  /** A stored value together with the instant at which it stops being visible. */
  datatype Entry<V> = Entry(value: V, expiresAt: int)

  type Store<V> = map<string, Entry<V>>

  /** GET: the value of `key` while `now` is before its expiry, nothing otherwise. */
  function Get<V>(s: Store<V>, now: int, key: string): Option<V>
  {
    if key in s && now < s[key].expiresAt then Some(s[key].value) else None
  }

  /** SET key value EX ttl: overwrites value and expiry alike. */
  function SetEx<V>(s: Store<V>, now: int, key: string, v: V, ttl: nat): Store<V>
  {
    s[key := Entry(v, now + ttl)]
  }

  /** DEL: removes the key whether or not it has already expired. */
  function Del<V>(s: Store<V>, key: string): Store<V>
  {
    s - {key}
  }

  /** A value written with a time-to-live is seen exactly during the next `ttl` seconds. */
  lemma SetExVisibleForTtl<V>(s: Store<V>, now: int, key: string, v: V, ttl: nat, later: int)
    requires now <= later
    ensures Get(SetEx(s, now, key, v, ttl), later, key) == if later < now + ttl then Some(v) else None
  {
  }

  /** Writing one key leaves what every other key shows unchanged. */
  lemma SetExLeavesOthers<V>(s: Store<V>, now: int, key: string, v: V, ttl: nat, t: int, other: string)
    requires other != key
    ensures Get(SetEx(s, now, key, v, ttl), t, other) == Get(s, t, other)
  {
  }

  /** After DEL the key is gone for good, and no other key is touched. */
  lemma DelHides<V>(s: Store<V>, key: string, t: int, other: string)
    ensures Get(Del(s, key), t, key) == None
    ensures other != key ==> Get(Del(s, key), t, other) == Get(s, t, other)
  {
  }

  /** Once expired, a key stays invisible as time goes on (there is no way back but a new SET). */
  lemma ExpiryIsFinal<V>(s: Store<V>, t: int, later: int, key: string)
    requires t <= later
    requires Get(s, t, key) == None
    ensures Get(s, later, key) == None
  {
  }
}
