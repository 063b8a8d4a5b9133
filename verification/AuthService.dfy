/** The auth service over its token table, updated in place: each method is one operation of the
    token-family machine. */
module AuthService {
  import opened Options
  import opened TokenFamilies
  import opened TokenLifetimes

  class AuthRepository {
    var tokens: seq<Token>

    constructor ()
      ensures tokens == []
    {
      tokens := [];
    }

    method CreateRefreshToken(t: Token)
      modifies this
      ensures tokens == old(tokens) + [t]
    {
      tokens := tokens + [t];
    }

    /** One transaction: the old token is marked, the new one inserted. */
    method RotateRefreshToken(presented: Token, t: Token)
      modifies this
      ensures tokens == Replace(old(tokens), presented, t.hash) + [t]
    {
      tokens := Replace(tokens, presented, t.hash);
      tokens := tokens + [t];
    }

    method RevokeFamilyByFamilyId(family: nat, tenant: nat)
      modifies this
      ensures tokens == RevokeFamily(old(tokens), family, tenant)
    {
      tokens := RevokeFamily(tokens, family, tenant);
    }

    method RevokeRefreshToken(hash: nat, tenant: nat)
      modifies this
      ensures tokens == RevokeOne(old(tokens), hash, tenant)
    {
      tokens := RevokeOne(tokens, hash, tenant);
    }

    method RevokeAllRefreshTokensForUser(user: nat, tenant: nat)
      modifies this
      ensures tokens == RevokeUser(old(tokens), user, tenant)
    {
      tokens := RevokeUser(tokens, user, tenant);
    }

    /** The machine's purge: of a table of chains, each family goes or stays as a whole. */
    method DeleteExpiredRefreshTokens(now: int, ghost st: State, ghost ttl: nat)
      requires st.tokens == tokens && st.clock == now
      modifies this
      ensures st.(tokens := tokens) == Next(st, ttl, Purge)
      ensures Inv(st) ==> Inv(st.(tokens := tokens))
      ensures Inv(st) ==> forall f: nat ::
                Members(tokens, f) == [] || Members(tokens, f) == Members(old(tokens), f)
    {
      if Inv(st) {
        StepKeepsInv(st, ttl, Purge);
        forall f: nat { PurgeIsWhole(st, ttl, f); }
      }
      tokens := Unexpired(tokens, now);
    }
  }

  class AuthService {
    const repository: AuthRepository
    const ttl: nat
    var hashes: nat    // tokens drawn so far
    var families: nat  // families drawn so far

    ghost function View(now: int): State
      reads this, repository
    {
      State(repository.tokens, hashes, families, now)
    }

    constructor (repository: AuthRepository, ttl: nat)
      ensures this.repository == repository && this.ttl == ttl && hashes == 0 && families == 0
    {
      this.repository, this.ttl, this.hashes, this.families := repository, ttl, 0, 0;
    }

    method GenerateRawToken() returns (hash: nat)
      modifies this`hashes
      ensures hash == old(hashes) && hashes == hash + 1
    {
      hash := hashes;
      hashes := hashes + 1;
    }

    /** After a login has checked the password. */
    method IssueTokenPair(user: nat, tenant: nat, now: int) returns (r: Reply)
      modifies this, repository
      ensures r == Answer(old(View(now)), Login(user, tenant)) == Issued(old(hashes))
      ensures repository.tokens
              == old(repository.tokens)
                 + [Token(old(hashes), old(families), user, tenant, None, false, now + ttl, now + ttl)]
      ensures View(now) == Next(old(View(now)), ttl, Login(user, tenant))
    {
      var expiresAt := now + ttl;
      var hash := GenerateRawToken();
      var family := families;
      families := families + 1;
      repository.CreateRefreshToken(Token(hash, family, user, tenant, None, false, expiresAt, expiresAt));
      return Issued(hash);
    }

    method RefreshToken(hash: nat, userExists: bool, now: int) returns (r: Reply)
      modifies this`hashes, repository
      ensures r == Answer(old(View(now)), Refresh(hash, userExists))
      ensures View(now) == Next(old(View(now)), ttl, Refresh(hash, userExists))
      ensures old(Inv(View(now))) ==> Inv(View(now)) && (r.Issued? ==> Spent(View(now), hash))
      ensures r == InvalidToken || r == UserGone ==> repository.tokens == old(repository.tokens)
      ensures r == InvalidToken <==> forall t | t in old(repository.tokens) :: t.hash != hash
      ensures match r
              case ReuseDetected => exists t :: t in old(repository.tokens) && t.hash == hash && t.revoked
              case Expired => exists t :: t in old(repository.tokens) && t.hash == hash && t.absoluteExpireAt < now
              case UserGone => !userExists
              case _ => r != Silent
      ensures r.Issued? ==>
                && r.hash == old(hashes) && |repository.tokens| == |old(repository.tokens)| + 1
                && exists t ::
                     && t in old(repository.tokens) && t.hash == hash && !t.revoked && t.absoluteExpireAt >= now
                     && repository.tokens[|old(repository.tokens)|]
                        == Token(r.hash, t.family, t.user, t.tenant, None, false, now + ttl, t.absoluteExpireAt)
    {
      if Inv(View(now)) {
        StepKeepsInv(View(now), ttl, Refresh(hash, userExists));
        if Answer(View(now), Refresh(hash, userExists)).Issued? { RefreshSpends(View(now), ttl, hash, userExists); }
      }
      var stored := Find(repository.tokens, hash);
      if stored.None? { return InvalidToken; }
      var t := stored.value;
      if t.revoked {
        repository.RevokeFamilyByFamilyId(t.family, t.tenant);
        return ReuseDetected;
      }
      if t.absoluteExpireAt < now {
        repository.RevokeRefreshToken(t.hash, t.tenant);
        return Expired;
      }
      if !userExists { return UserGone; }
      var newHash := GenerateRawToken();
      repository.RotateRefreshToken(t, Successor(t, newHash, now + ttl));
      return Issued(newHash);
    }

    method Logout(hash: nat, now: int)
      modifies repository
      ensures View(now) == Next(old(View(now)), ttl, TokenFamilies.Logout(hash))
    {
      var stored := Find(repository.tokens, hash);
      if stored.None? || stored.value.revoked { return; }
      repository.RevokeFamilyByFamilyId(stored.value.family, stored.value.tenant);
    }

    method LogoutAll(user: nat, tenant: nat, now: int)
      modifies repository
      ensures View(now) == Next(old(View(now)), ttl, TokenFamilies.LogoutAll(user, tenant))
    {
      repository.RevokeAllRefreshTokensForUser(user, tenant);
    }
  }
}
