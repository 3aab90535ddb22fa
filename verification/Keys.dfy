/** The Redis key encodings, and why no two users share an entry. */
module Keys {

  const RATE_PREFIX := "ratelimit:active:"
  const CACHE_PREFIX := "cache:summary:"
  const INFLIGHT_PREFIX := "inflight:"

  function RateLimitKey(user: string): string {
    RATE_PREFIX + user
  }

  function CacheKey(user: string, digest: string): string {
    CACHE_PREFIX + user + ":" + digest
  }

  function InflightKey(user: string, digest: string): string {
    INFLIGHT_PREFIX + user + ":" + digest
  }

  /** `digest` is what `hexdigest` returns; all that matters is that it holds no colon. */
  predicate ColonFree(s: string) {
    ':' !in s
  }

  /** `key.rsplit(":", 1)[-1]`. */
  function LastSegment(key: string): string {
    if key == "" || key[|key| - 1] == ':' then ""
    else LastSegment(key[..|key| - 1]) + [key[|key| - 1]]
  }

  lemma {:induction false} LastSegmentAfterColon(head: string, tail: string)
    requires head != "" && head[|head| - 1] == ':'
    ensures LastSegment(head + tail) == LastSegment(tail)
    ensures ColonFree(tail) ==> LastSegment(tail) == tail
  {
    var key := head + tail;
    if tail == "" {
      assert key == head;
    } else {
      var init := tail[..|tail| - 1];
      assert key[..|key| - 1] == head + init;
      assert tail == init + [tail[|tail| - 1]];
      LastSegmentAfterColon(head, init);
    }
  }

  lemma RateLimitKeyParse(user: string)
    ensures LastSegment(RateLimitKey(user)) == LastSegment(user)
    ensures ColonFree(user) ==> LastSegment(user) == user
  {
    LastSegmentAfterColon(RATE_PREFIX, user);
  }

  lemma RateLimitKeyInjective(u: string, v: string)
    requires RateLimitKey(u) == RateLimitKey(v)
    ensures u == v
  {
    assert RateLimitKey(u)[|RATE_PREFIX|..] == u;
    assert RateLimitKey(v)[|RATE_PREFIX|..] == v;
  }

  lemma {:induction false} SplitAtLastColon(u: string, d: string, v: string, e: string)
    requires ColonFree(d) && ColonFree(e)
    requires u + ":" + d == v + ":" + e
    ensures u == v && d == e
  {
    var key := u + ":" + d;
    LastSegmentAfterColon(u + ":", d);
    LastSegmentAfterColon(v + ":", e);
    assert key == (u + ":") + d == (v + ":") + e;
    assert u == key[..|u|] && v == key[..|v|];
  }

  /** Per-user isolation: whatever colons the user ids hold, two (user, digest)
      pairs never share a cache entry or an in-flight guard. */
  lemma PairKeysInjective(u: string, d: string, v: string, e: string)
    requires ColonFree(d) && ColonFree(e)
    ensures CacheKey(u, d) == CacheKey(v, e) <==> u == v && d == e
    ensures InflightKey(u, d) == InflightKey(v, e) <==> u == v && d == e
  {
    var p, q := u + ":" + d, v + ":" + e;
    assert CacheKey(u, d) == CACHE_PREFIX + p && CacheKey(v, e) == CACHE_PREFIX + q;
    assert InflightKey(u, d) == INFLIGHT_PREFIX + p && InflightKey(v, e) == INFLIGHT_PREFIX + q;
    if CacheKey(u, d) == CacheKey(v, e) || InflightKey(u, d) == InflightKey(v, e) {
      assert CacheKey(u, d)[|CACHE_PREFIX|..] == p && CacheKey(v, e)[|CACHE_PREFIX|..] == q;
      assert InflightKey(u, d)[|INFLIGHT_PREFIX|..] == p && InflightKey(v, e)[|INFLIGHT_PREFIX|..] == q;
      SplitAtLastColon(u, d, v, e);
    }
  }

  /** The three namespaces are disjoint. */
  lemma NamespacesDisjoint(u: string, v: string, d: string, w: string, e: string)
    ensures RateLimitKey(u) != CacheKey(v, d)
    ensures RateLimitKey(u) != InflightKey(w, e)
    ensures CacheKey(v, d) != InflightKey(w, e)
  {
    assert RateLimitKey(u)[0] == 'r' && CacheKey(v, d)[0] == 'c' && InflightKey(w, e)[0] == 'i';
  }

  /** Without the proviso the encoding is ambiguous. */
  lemma ColonsInTheDigestWouldCollide()
    ensures CacheKey("a", "b:c") == CacheKey("a:b", "c")
  {}
}
