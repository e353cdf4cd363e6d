/** The status-URL registry both server variants keep: a session key maps to
    the polling URL returned by prepare and the instant the entry expires.
    Instants are integers counting nanoseconds; the clock is a parameter. */
module Registry {
  import opened Common

  /** Five minutes, the fixed time to live of an entry, in nanoseconds. */
  const TtlNanos: int := 5 * 60 * 1_000_000_000

  datatype Entry = Entry(statusUrl: string, expiresAt: int)

  /** `expiresAt.isBefore(now)` / `ExpiresAt.Before(now)`: strictly earlier,
      so an entry that expires exactly at `now` is still live. */
  predicate Expired(e: Entry, now: int)
  {
    e.expiresAt < now
  }

  /** The entry written when `url` is stored at `now`. */
  function FreshEntry(url: string, now: int): (e: Entry)
    ensures !Expired(e, now + TtlNanos) && Expired(e, now + TtlNanos + 1)
    ensures e.statusUrl == url
  {
    Entry(url, now + TtlNanos)
  }

  /** What a read at `now` reports: the URL of a live entry, else nothing. */
  function Lookup(m: map<string, Entry>, key: string, now: int): (r: Option<string>)
    ensures r.Some? <==> key in m && m[key].expiresAt >= now
    ensures r.Some? ==> r.value == m[key].statusUrl
  {
    if key in m && !Expired(m[key], now) then Some(m[key].statusUrl) else None
  }

  /** The registry after a sweep at `now`: the live entries, untouched. */
  function Swept(m: map<string, Entry>, now: int): (r: map<string, Entry>)
    ensures r.Keys <= m.Keys
    ensures forall k :: k in r ==> r[k] == m[k] && r[k].expiresAt >= now
    ensures forall k :: k in m && m[k].expiresAt >= now ==> k in r
  {
    map k | k in m && !Expired(m[k], now) :: m[k]
  }

  /** The keys a sweep at `now` deletes. */
  function ExpiredKeys(m: map<string, Entry>, now: int): set<string>
  {
    set k | k in m && Expired(m[k], now)
  }

  /** A URL stored at `storedAt` is returned by every read up to and
      including `storedAt + TTL`, and by none after. */
  lemma StoredUrlLiveForTtl(m: map<string, Entry>, key: string, url: string, storedAt: int, now: int)
    ensures Lookup(m[key := FreshEntry(url, storedAt)], key, now)
            == if now <= storedAt + TtlNanos then Some(url) else None
  {
  }

  /** Storing under a key changes what reads of that key see, and nothing else. */
  lemma StoreAffectsOnlyItsKey(m: map<string, Entry>, key: string, url: string, storedAt: int, other: string, now: int)
    requires other != key
    ensures Lookup(m[key := FreshEntry(url, storedAt)], other, now) == Lookup(m, other, now)
  {
  }

  /** A sweep deletes exactly the expired keys and keeps the other entries
      with their values. */
  lemma SweepRemovesExactlyExpired(m: map<string, Entry>, now: int)
    ensures Swept(m, now).Keys == m.Keys - ExpiredKeys(m, now)
    ensures forall k :: k in Swept(m, now) ==> Swept(m, now)[k] == m[k] && !Expired(m[k], now)
  {
  }

  /** Cardinality: the entries kept and the entries deleted add up to the
      entries there were. */
  lemma SweepPartitionsEntries(m: map<string, Entry>, now: int)
    ensures |Swept(m, now)| + |ExpiredKeys(m, now)| == |m|
  {
    var kept := Swept(m, now).Keys;
    var gone := ExpiredKeys(m, now);
    assert kept + gone == m.Keys;
    assert kept * gone == {};
  }

  /** Sweeping twice at the same instant is the same as sweeping once. */
  lemma SweepIdempotent(m: map<string, Entry>, now: int)
    ensures Swept(Swept(m, now), now) == Swept(m, now)
  {
  }

  /** A later sweep subsumes an earlier one. */
  lemma LaterSweepSubsumes(m: map<string, Entry>, earlier: int, later: int)
    requires earlier <= later
    ensures Swept(Swept(m, earlier), later) == Swept(m, later)
  {
  }

  /** A sweep is invisible to reads made at the same instant: it only deletes
      entries that a read would already report as absent. */
  lemma SweepInvisibleToReads(m: map<string, Entry>, now: int, key: string)
    ensures Lookup(Swept(m, now), key, now) == Lookup(m, key, now)
  {
  }
}
