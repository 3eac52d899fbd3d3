/** Revocation of access tokens at the gateway: a Redis key that expires stands in for a permanent
    set of revoked tokens. */
module Blacklist {
  import opened Duration
  import opened Tokens

  /** TokenBlacklistService. `redis` maps each key that exists to the instant its EX option allows Redis
      to drop it; Redis drops it at some moment from then on. For the specification, `ends` remembers for every
      token ever revoked when its last time to live ends, and `looked` is the latest instant at which Redis has
      looked for keys to drop. */
  class TokenBlacklist {
    const accessExpiresIn: string
    var redis: map<TokenHash, Millis>
    ghost var ends: map<TokenHash, Millis>
    ghost var looked: Millis

    /** Nothing is on the blacklist that was not revoked, and nothing was dropped before its time. */
    ghost predicate Valid()
      reads this
    {
      && (forall k | k in redis :: k in ends && redis[k] == ends[k])
      && (forall k | k in ends && k !in redis :: ends[k] <= looked)
    }

    constructor (accessExpiresIn: string)
      ensures Valid() && this.accessExpiresIn == accessExpiresIn && ends == map[] && looked == 0
    {
      this.accessExpiresIn := accessExpiresIn;
      redis, ends, looked := map[], map[], 0;
    }

    /** SET key '1' EX ttl; revoking again restarts the time to live. */
    method RevokeAccessToken(token: Token, now: Millis)
      requires Valid()
      modifies `redis, `ends
      ensures Valid()
      ensures redis == Remember(old(redis), token, now, ParseDurationSeconds(accessExpiresIn))
      ensures ends == old(ends)[Sha256(token) := now + 1000 * ParseDurationSeconds(accessExpiresIn)]
    {
      var ttl := ParseDurationSeconds(accessExpiresIn);
      redis := redis[Sha256(token) := now + 1000 * ttl];
      ends := ends[Sha256(token) := now + 1000 * ttl];
    }

    /** Never true of a token that was not revoked, and true of one that was as long as Redis has not looked at or
        after the end of its time to live. */
    method IsRevoked(token: Token) returns (revoked: bool)
      requires Valid()
      ensures revoked ==> Sha256(token) in ends
      ensures Sha256(token) in ends && looked < ends[Sha256(token)] ==> revoked
    {
      revoked := Sha256(token) in redis;
    }

    /** Redis expiring a key whose time to live has passed. */
    method Expire(key: TokenHash, now: Millis)
      requires Valid()
      modifies `redis, `looked
      ensures redis == Forget(old(redis), key, now)
      ensures Valid() && looked == if old(looked) < now then now else old(looked)
    {
      looked := if looked < now then now else looked;
      if key in redis && redis[key] <= now {
        redis := redis - {key};
      }
    }
  }

  function Remember(store: map<TokenHash, Millis>, token: Token, now: Millis, ttl: nat): map<TokenHash, Millis> {
    store[Sha256(token) := now + 1000 * ttl]
  }

  function Forget(store: map<TokenHash, Millis>, key: TokenHash, now: Millis): map<TokenHash, Millis> {
    if key in store && store[key] <= now then store - {key} else store
  }

  /** Redis looks at a key at some instant, and drops it if it may. */
  datatype Drop = Drop(key: TokenHash, at: Millis)

  function ForgetAll(store: map<TokenHash, Millis>, drops: seq<Drop>): map<TokenHash, Millis> {
    if drops == [] then store else ForgetAll(Forget(store, drops[0].key, drops[0].at), drops[1..])
  }

  /** A key survives whatever Redis does exactly as long as Redis does not look at it at or after its instant. */
  lemma {:induction false} KeptUntilItsInstant(store: map<TokenHash, Millis>, key: TokenHash, drops: seq<Drop>)
    ensures key in ForgetAll(store, drops)
            <==> key in store && forall d | d in drops && d.key == key :: d.at < store[key]
    decreases |drops|
  {
    if drops != [] {
      KeptUntilItsInstant(Forget(store, drops[0].key, drops[0].at), key, drops[1..]);
      assert drops == [drops[0]] + drops[1..];
    }
  }

  /** An access token verifies only before the end of the time to live of its revocation: the floor in `iat` only
      makes it expire earlier, and signer and blacklist read one setting through tables that agree. */
  lemma VerifiesOnlyWhileListed(cfg: Config, who: Identity, signed: Millis, revoked: Millis, now: Millis)
    requires WellFormed(cfg.accessExpiresIn) && signed <= revoked
    requires Verifies(cfg.accessSecret, SignAccess(cfg, who, signed), now)
    ensures now < revoked + 1000 * ParseDurationSeconds(cfg.accessExpiresIn)
  {
    WellFormedLifetime(cfg.accessExpiresIn);
    VerifiesUntilExpiryInstant(cfg.accessSecret, SignAccess(cfg, who, signed), now);
  }

  /** The time to live is long enough: a revoked access token is still on the blacklist at every instant at which it
      verifies, whenever it was revoked and whenever Redis has looked at its keys. */
  lemma RevokedWhileItVerifies(
      cfg: Config, who: Identity, signed: Millis, revoked: Millis, later: Millis,
      store: map<TokenHash, Millis>, drops: seq<Drop>)
    requires WellFormed(cfg.accessExpiresIn) && signed <= revoked
    requires forall d | d in drops :: d.at <= later
    requires Verifies(cfg.accessSecret, SignAccess(cfg, who, signed), later)
    ensures var token := SignAccess(cfg, who, signed);
            var ttl := ParseDurationSeconds(cfg.accessExpiresIn);
            Sha256(token) in ForgetAll(Remember(store, token, revoked, ttl), drops)
  {
    var token := SignAccess(cfg, who, signed);
    VerifiesOnlyWhileListed(cfg, who, signed, revoked, later);
    KeptUntilItsInstant(
      Remember(store, token, revoked, ParseDurationSeconds(cfg.accessExpiresIn)), Sha256(token), drops);
  }
}
