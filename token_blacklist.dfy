/** The session denylist (`services/redis/tokenBlacklist.ts`): a key per revoked
    session id in a cache whose entries expire. */
module TokenBlacklist {
  import opened Common

  const KEY_PREFIX: string := "TOKEN_BLACKLIST:"
  /** Extra time an entry outlives the token it revokes: two minutes. */
  const GRACE_MS: int := 2 * 60 * 1000

  /** A cache value and the time (ms) at which its TTL elapses. */
  datatype CacheEntry = CacheEntry(value: string, expiresAtMs: int)

  /** `EXISTS key` at time `nowMs`: the key was set and its TTL has not elapsed. */
  predicate Live(entries: map<string, CacheEntry>, key: string, nowMs: int) {
    key in entries && nowMs < entries[key].expiresAtMs
  }

  /** The key cache stores for a session id. */
  function BlacklistKey(sessionId: string): (key: string)
    ensures |key| == |KEY_PREFIX| + |sessionId|
    ensures key[..|KEY_PREFIX|] == KEY_PREFIX && key[|KEY_PREFIX|..] == sessionId
  {
    KEY_PREFIX + sessionId
  }

  /** Distinct session ids never share a key. */
  lemma BlacklistKeyInjective(a: string, b: string)
    ensures BlacklistKey(a) == BlacklistKey(b) <==> a == b
  {
    if BlacklistKey(a) == BlacklistKey(b) {
      assert a == BlacklistKey(a)[|KEY_PREFIX|..];
    }
  }

  /** The entries after `SET key "1" PX (expiresInMs + 120000)` at time `nowMs`. */
  function Added(entries: map<string, CacheEntry>, sessionId: string, expiresInMs: int, nowMs: int): map<string, CacheEntry> {
    entries[BlacklistKey(sessionId) := CacheEntry("1", nowMs + expiresInMs + GRACE_MS)]
  }

  /** After adding, the session reads as blacklisted exactly until its TTL elapses,
      whatever was stored before. */
  lemma AddedIsLive(entries: map<string, CacheEntry>, sessionId: string, expiresInMs: int, nowMs: int, t: int)
    ensures Live(Added(entries, sessionId, expiresInMs, nowMs), BlacklistKey(sessionId), t)
            <==> t < nowMs + expiresInMs + GRACE_MS
  {
  }

  /** Adding one session leaves what every other session reads unchanged. */
  lemma AddedLeavesOthers(entries: map<string, CacheEntry>, sessionId: string, other: string, expiresInMs: int, nowMs: int, t: int)
    requires other != sessionId
    ensures Live(Added(entries, sessionId, expiresInMs, nowMs), BlacklistKey(other), t)
            == Live(entries, BlacklistKey(other), t)
  {
    BlacklistKeyInjective(sessionId, other);
  }

  /** Adding the same session twice is a plain overwrite: only the later TTL counts. */
  lemma AddedTwice(entries: map<string, CacheEntry>, sessionId: string, e1: int, t1: int, e2: int, t2: int)
    ensures Added(Added(entries, sessionId, e1, t1), sessionId, e2, t2) == Added(entries, sessionId, e2, t2)
  {
  }

  /** The cache server. */
  class RedisCache {
    var entries: map<string, CacheEntry>
    /** Whether the server answers; when it does not, every command throws. */
    var up: bool

    constructor (up: bool)
      ensures entries == map[] && this.up == up
    {
      entries := map[];
      this.up := up;
    }
  }

  /** `addTokenToBlacklist(sessionId, expiresInMs)` at time `nowMs`: true when stored,
      false for the rethrown cache error (nothing is stored then). */
  method AddTokenToBlacklist(cache: RedisCache, sessionId: string, expiresInMs: int, nowMs: int) returns (ok: bool)
    modifies cache`entries
    ensures ok == cache.up
    ensures cache.entries == if ok then Added(old(cache.entries), sessionId, expiresInMs, nowMs) else old(cache.entries)
  {
    ok := cache.up;
    if ok {
      cache.entries := cache.entries[KEY_PREFIX + sessionId := CacheEntry("1", nowMs + expiresInMs + GRACE_MS)];
    }
  }

  /** `checkTokenBlacklist(sessionId)` at time `nowMs`: Some(blacklisted), or None for
      the rethrown cache error; never a guess. */
  function CheckTokenBlacklist(cache: RedisCache, sessionId: string, nowMs: int): (r: Option<bool>)
    reads cache
    ensures r.None? <==> !cache.up
    ensures r.Some? ==> (r.value <==> Live(cache.entries, BlacklistKey(sessionId), nowMs))
  {
    if cache.up then Some(KEY_PREFIX + sessionId in cache.entries && nowMs < cache.entries[KEY_PREFIX + sessionId].expiresAtMs)
    else None
  }
}
