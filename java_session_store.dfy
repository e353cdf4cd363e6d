/** `SessionStoreService` of the Java server: the registry as a mutable map
    that reads evict lazily and a scheduled task sweeps. */
module JavaSessionStore {
  import opened Common
  import opened Registry

  class SessionStoreService {
    var store: map<string, Entry>

    constructor ()
      ensures store == map[]
    {
      store := map[];
    }

    /** Puts (or overwrites) the entry for `sessionKey`, expiring TTL after `now`. */
    method StoreStatusUrl(sessionKey: string, statusUrl: string, now: int)
      modifies this
      ensures store == old(store)[sessionKey := FreshEntry(statusUrl, now)]
      ensures Lookup(store, sessionKey, now) == Some(statusUrl)
      ensures forall k :: k != sessionKey ==> Lookup(store, k, now) == Lookup(old(store), k, now)
    {
      store := store[sessionKey := FreshEntry(statusUrl, now)];
    }

    /** Returns the URL of a live entry. An entry found expired is removed
        before answering empty; every other case leaves the map as it was,
        so polling never extends an entry's lifetime. */
    method GetStatusUrl(sessionKey: string, now: int) returns (r: Option<string>)
      modifies this
      ensures r == Lookup(old(store), sessionKey, now)
      ensures store == if sessionKey in old(store) && Expired(old(store)[sessionKey], now)
                       then old(store) - {sessionKey} else old(store)
      ensures forall k :: Lookup(store, k, now) == Lookup(old(store), k, now)
    {
      if sessionKey !in store {
        return None;
      }
      var entry := store[sessionKey];
      if Expired(entry, now) {
        store := store - {sessionKey};
        return None;
      }
      return Some(entry.statusUrl);
    }

    /** The scheduled sweep: `removeIf` on the entries expired at `now`. */
    method CleanupExpiredSessions(now: int)
      modifies this
      ensures store == Swept(old(store), now)
      ensures store.Keys == old(store).Keys - ExpiredKeys(old(store), now)
    {
      store := map k | k in store && !Expired(store[k], now) :: store[k];
    }
  }
}
