/** The bounded store that makes OIDC states single-use. */
module StateStore {
  import opened Text

  /** Keys of a map whose expiry is still ahead. */
  function Unexpired(m: map<string, int>, now: int): set<string> {
    set k | k in m && m[k] > now
  }

  lemma InsertionSize(m: map<string, int>, key: string, v: int)
    ensures |m[key := v]| == |m.Keys - {key}| + 1
    ensures |m| == |m.Keys - {key}| + if key in m then 1 else 0
  {
    assert m[key := v].Keys == (m.Keys - {key}) + {key};
    assert key in m ==> m.Keys == (m.Keys - {key}) + {key};
    assert key !in m ==> m.Keys == m.Keys - {key};
  }

  class MemoryStateStore {
    var entries: map<string, int>
    const maxEntries: nat
    /** The same store without a bound and without pruning, and the latest time it was told. */
    ghost var pending: map<string, int>
    ghost var latest: int

    ghost predicate Valid()
      reads this
    {
      && |entries| <= maxEntries
      && (forall k | k in entries :: k in pending && pending[k] == entries[k])
      && (forall k | k in pending && pending[k] > latest :: k in entries)
    }

    constructor (maxEntries: int, ghost start: int)
      ensures Valid() && pending == map[] && latest == start
      ensures this.maxEntries == if maxEntries < 1 then 4096 else maxEntries
    {
      this.maxEntries := if maxEntries < 1 then 4096 else maxEntries;
      entries, pending, latest := map[], map[], start;
    }

    /** A valid Put is refused exactly when the bound is used up by other unexpired keys. */
    method Put(key: string, expiresAt: int, now: int) returns (ok: bool)
      requires Valid() && now >= latest
      modifies this
      ensures Valid() && latest == now
      ensures pending == if ok then old(pending)[key := expiresAt] else old(pending)
      ensures ok <==> key != "" && expiresAt > now && |Unexpired(old(pending), now) - {key}| < maxEntries
    {
      latest := now;
      if key == "" {
        return false;
      }
      if expiresAt <= now {
        return false;
      }
      PruneExpired(now);
      InsertionSize(entries, key, expiresAt);
      if key !in entries && |entries| >= maxEntries {
        return false;
      }
      entries := entries[key := expiresAt];
      pending := pending[key := expiresAt];
      ok := true;
    }

    /** The answer is that of the unbounded store, and the key is gone afterwards. */
    method Consume(key: string, now: int) returns (ok: bool)
      requires Valid() && now >= latest
      modifies this
      ensures Valid() && latest == now
      ensures pending == old(pending) - {key}
      ensures ok <==> key in old(pending) && old(pending)[key] > now
    {
      latest := now;
      if key !in entries {
        pending := pending - {key};
        return false;
      }
      var expiresAt := entries[key];
      assert (entries - {key}).Keys == entries.Keys - {key};
      entries := entries - {key};
      pending := pending - {key};
      ok := expiresAt > now;
    }

    method PruneExpired(now: int)
      requires Valid() && latest == now
      modifies this`entries
      ensures Valid()
      ensures entries.Keys == Unexpired(pending, now)
    {
      var keys := entries.Keys;
      while keys != {}
        invariant Valid() && keys <= entries.Keys
        invariant forall k | k in entries && k !in keys :: entries[k] > now
        decreases keys
      {
        var key :| key in keys;
        if entries[key] <= now {
          assert (entries - {key}).Keys == entries.Keys - {key};
          entries := entries - {key};
        }
        keys := keys - {key};
      }
    }
  }
}
