/**
 * The short-lived suspicion cache: a key-value store whose keys expire.
 * A key is kept with the instant it expires at; it is visible to `Get` up to,
 * and not including, that instant. The stored value itself is always the
 * truthy marker 1, so only presence is modelled.
 */
module SuspicionCache {

  /** Is `key` present and not yet expired at `now`? */
  predicate Visible(entries: map<string, int>, key: string, now: int) {
    key in entries && now < entries[key]
  }

  class SuspicionCache {
    /** Each key with the instant at which it expires. */
    var entries: map<string, int>

    constructor ()
      ensures entries == map[]
    {
      entries := map[];
    }

    /** `get`: whether a live value is stored under `key` at `now`. */
    method Get(key: string, now: int) returns (present: bool)
      ensures present <==> key in entries && now < entries[key]
    {
      present := Visible(entries, key, now);
    }

    /** `set` with an expiry of `ttl` seconds: the key is live until `now + ttl`. */
    method Set(key: string, ttl: nat, now: int)
      requires ttl > 0
      modifies this
      ensures entries == old(entries)[key := now + ttl]
      ensures Visible(entries, key, now)
    {
      entries := entries[key := now + ttl];
    }
  }
}
