/** The distributed key map the gateway shares between its nodes, reduced to
    what one sequential request can observe: the live entries with their
    absolute expiry time, and the advisory per-key locks. */
module KeyStore {

  /** A stored value and the instant (milliseconds) at which it expires. */
  datatype Entry = Entry(value: string, expiresAt: int)

  /** The observable state of the map. Locks are re-entrant, so a key can be
      held several times; the multiset counts the holds. */
  datatype StoreState = StoreState(entries: map<string, Entry>, locks: multiset<string>)

  class KeyMap {
    var entries: map<string, Entry>
    var locks: multiset<string>

    constructor (initial: map<string, Entry>)
      ensures entries == initial && locks == multiset{}
    {
      entries := initial;
      locks := multiset{};
    }

    function State(): StoreState
      reads this
    {
      StoreState(entries, locks)
    }

    /** True iff the map holds an entry for `key`. */
    method ContainsKey(key: string) returns (present: bool)
      ensures present <==> key in entries
    {
      present := key in entries;
    }

    /** Acquires the lock on `key`, or throws when the store is unavailable
        (`unavailable`); `failed` reports that it threw. */
    method Lock(key: string, unavailable: bool) returns (failed: bool)
      modifies this`locks
      ensures failed == unavailable
      ensures locks == if failed then old(locks) else old(locks) + multiset{key}
    {
      failed := unavailable;
      if !failed {
        locks := locks + multiset{key};
      }
    }

    /** Stores `value` under `key`, expiring `ttl` milliseconds after `now`,
        or throws when the store is unavailable. */
    method Put(key: string, value: string, ttl: nat, now: int, unavailable: bool) returns (failed: bool)
      modifies this`entries
      ensures failed == unavailable
      ensures entries == if failed then old(entries) else old(entries)[key := Entry(value, now + ttl)]
    {
      failed := unavailable;
      if !failed {
        entries := entries[key := Entry(value, now + ttl)];
      }
    }

    /** Releases one hold of the lock on `key`; the caller must hold it. */
    method Unlock(key: string)
      requires key in locks
      modifies this`locks
      ensures locks == old(locks) - multiset{key}
    {
      locks := locks - multiset{key};
    }
  }
}
