/** The part of a Redis key space the two deduplication layers use: keys
    written with SETNX and given a lifetime with EXPIRE. A key with a
    deadline is gone once the clock has passed it. */
module KeySpace {

  datatype Expiry = Persistent | ExpiresAt(deadline: real)

  type Store = map<string, Expiry>

  /** The key exists at time `now`. */
  predicate Live(st: Store, key: string, now: real) {
    key in st && (st[key].Persistent? || now <= st[key].deadline)
  }

  /** SETNX: writes the key (with no lifetime) and answers true only when
      it did not exist. */
  function SetIfAbsent(st: Store, key: string, now: real): (r: (Store, bool))
    ensures r.1 <==> !Live(st, key, now)
    ensures r.1 ==> r.0 == st[key := Persistent]
    ensures !r.1 ==> r.0 == st
    ensures Live(r.0, key, now)
  {
    if Live(st, key, now) then (st, false) else (st[key := Persistent], true)
  }

  /** EXPIRE: gives an existing key a lifetime of `ttl` seconds from `now`;
      a missing key is left missing. */
  function Expire(st: Store, key: string, now: real, ttl: real): (r: Store)
    ensures Live(st, key, now) ==> r == st[key := ExpiresAt(now + ttl)]
    ensures !Live(st, key, now) ==> r == st
  {
    if Live(st, key, now) then st[key := ExpiresAt(now + ttl)] else st
  }

  /** The key stays live at every time up to `until`. */
  predicate LiveUntil(st: Store, key: string, until: real) {
    key in st && (st[key].Persistent? || until <= st[key].deadline)
  }

  /** SETNX and, when it wrote the key, EXPIRE with `ttl`: the claim both
      deduplication layers make before acting on a message. The answer is
      true when the message is new. */
  function Claim(st: Store, key: string, now: real, ttl: real): (r: (Store, bool))
  {
    var (written, isNew) := SetIfAbsent(st, key, now);
    if isNew then (Expire(written, key, now, ttl), true) else (st, false)
  }

  /** A claim succeeds exactly when the key is not live; a successful one
      keeps the key live for `ttl` seconds and touches no other key, and
      either way the key is live afterwards. */
  lemma ClaimEffect(st: Store, key: string, now: real, ttl: real)
    requires ttl >= 0.0
    ensures Claim(st, key, now, ttl).1 <==> !Live(st, key, now)
    ensures Claim(st, key, now, ttl).1 ==> Claim(st, key, now, ttl).0 == st[key := ExpiresAt(now + ttl)]
    ensures !Claim(st, key, now, ttl).1 ==> Claim(st, key, now, ttl).0 == st
    ensures Claim(st, key, now, ttl).1 ==> LiveUntil(Claim(st, key, now, ttl).0, key, now + ttl)
    ensures Live(Claim(st, key, now, ttl).0, key, now)
  {
    if !Live(st, key, now) {
      assert Live(st[key := Persistent], key, now);
    }
  }

  /** Once claimed, the key refuses every claim up to `ttl` seconds later. */
  lemma ClaimRefusedWithinTtl(st: Store, key: string, now: real, ttl: real, later: real)
    requires ttl >= 0.0 && now <= later <= now + ttl
    requires Claim(st, key, now, ttl).1
    ensures Claim(Claim(st, key, now, ttl).0, key, later, ttl) == (Claim(st, key, now, ttl).0, false)
  {
    ClaimEffect(st, key, now, ttl);
  }

  /** After the lifetime has passed, the same key can be claimed again. */
  lemma ClaimAcceptedAfterTtl(st: Store, key: string, now: real, ttl: real, later: real)
    requires ttl >= 0.0 && later > now + ttl
    requires Claim(st, key, now, ttl).1
    ensures Claim(Claim(st, key, now, ttl).0, key, later, ttl).1
  {
    ClaimEffect(st, key, now, ttl);
  }
}
