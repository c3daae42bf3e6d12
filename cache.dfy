/** The local-memory cache backend as the comment listings use it: a map
    from key to value and expiry time. An entry is live while the clock is
    before its expiry; reading an expired entry removes it. */
module Cache {
  import opened Base
  import opened Models

  datatype Entry = Entry(value: seq<TaskComment>, expiresAt: nat)

  /** `cache.get(key)` at time `now`, without its side effect. */
  function Lookup(entries: map<string, Entry>, key: string, now: nat): (v: Option<seq<TaskComment>>)
    ensures v.Some? <==> key in entries && now < entries[key].expiresAt
    ensures v.Some? ==> v.value == entries[key].value
  {
    if key in entries && now < entries[key].expiresAt then Some(entries[key].value) else None
  }

  /** A value stored with `timeout` seconds is read back unchanged until the
      timeout has passed and not after. */
  lemma StoredValueLives(entries: map<string, Entry>, key: string, value: seq<TaskComment>, now: nat, timeout: nat, later: nat)
    requires now <= later
    ensures var e := entries[key := Entry(value, now + timeout)];
            Lookup(e, key, later) == if later < now + timeout then Some(value) else None
  {
  }

  /** Storing under one key is invisible under every other key. */
  lemma OtherKeysUnaffected(entries: map<string, Entry>, key: string, other: string, e: Entry, now: nat)
    requires other != key
    ensures Lookup(entries[key := e], other, now) == Lookup(entries, other, now)
    ensures Lookup(entries - {key}, other, now) == Lookup(entries, other, now)
  {
  }

  class LocMemCache {
    var entries: map<string, Entry>

    constructor ()
      ensures entries == map[]
    {
      entries := map[];
    }

    /** `cache.get(key)`: the live value, if any; an expired entry is
        deleted on the way. */
    method Get(key: string, now: nat) returns (v: Option<seq<TaskComment>>)
      modifies this
      ensures v == Lookup(old(entries), key, now)
      ensures entries == if v.Some? then old(entries) else old(entries) - {key}
    {
      if key in entries && now < entries[key].expiresAt {
        v := Some(entries[key].value);
      } else {
        v := None;
        entries := entries - {key};
      }
    }

    /** `cache.set(key, value, timeout)` at time `now`. */
    method Set(key: string, value: seq<TaskComment>, now: nat, timeout: nat)
      modifies this
      ensures entries == old(entries)[key := Entry(value, now + timeout)]
    {
      entries := entries[key := Entry(value, now + timeout)];
    }
  }
}
