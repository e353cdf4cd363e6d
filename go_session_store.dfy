/** The Go server's session store. The package-level map guarded by a
    read-write mutex becomes one object; reads never evict, only the
    minute ticker's sweep deletes. */
module GoSessionStore {
  import opened Common
  import opened Registry

  class SessionStore {
    var sessionStore: map<string, Entry>

    constructor ()
      ensures sessionStore == map[]
    {
      sessionStore := map[];
    }

    /** Assigns the entry for `sessionKey`, expiring five minutes after `now`. */
    method StoreStatusUrl(sessionKey: string, statusUrl: string, now: int)
      modifies this
      ensures sessionStore == old(sessionStore)[sessionKey := FreshEntry(statusUrl, now)]
      ensures forall k :: k != sessionKey ==> Lookup(sessionStore, k, now) == Lookup(old(sessionStore), k, now)
    {
      sessionStore := sessionStore[sessionKey := FreshEntry(statusUrl, now)];
    }

    /** The comma-ok read: `(url, true)` for a live entry, `("", false)` for a
        missing or expired one, which stays in the map. */
    method GetStoredStatusUrl(sessionKey: string, now: int) returns (url: string, found: bool)
      ensures found <==> sessionKey in sessionStore && !Expired(sessionStore[sessionKey], now)
      ensures found ==> url == sessionStore[sessionKey].statusUrl
      ensures !found ==> url == ""
      ensures Lookup(sessionStore, sessionKey, now) == if found then Some(url) else None
    {
      if sessionKey !in sessionStore {
        return "", false;
      }
      var entry := sessionStore[sessionKey];
      if Expired(entry, now) {
        return "", false;
      }
      return entry.statusUrl, true;
    }

    /** The sweep: visits every key once and deletes the expired ones. */
    method CleanupExpiredSessions(now: int)
      modifies this
      ensures sessionStore == Swept(old(sessionStore), now)
      ensures forall k :: k in sessionStore ==> !Expired(sessionStore[k], now)
    {
      ghost var original := sessionStore;
      var pending := sessionStore.Keys;
      while pending != {}
        invariant pending <= original.Keys
        invariant forall k :: k in sessionStore <==> k in original && (k in pending || !Expired(original[k], now))
        invariant forall k :: k in sessionStore ==> sessionStore[k] == original[k]
        decreases pending
      {
        var key :| key in pending;
        if Expired(sessionStore[key], now) {
          sessionStore := sessionStore - {key};
        }
        pending := pending - {key};
      }
      assert sessionStore.Keys == Swept(original, now).Keys;
    }
  }
}
