/** Refresh-token families: rotation, reuse detection, logout and purge, each operation atomic.
    Hashes and family identifiers are opaque; here they are numbered in the order they are drawn. */
module TokenFamilies {
  import opened Options

  datatype Token = Token(
    hash: nat, family: nat, user: nat, tenant: nat, replacedBy: Option<nat>, revoked: bool,
    expiresAt: int, absoluteExpireAt: int)

  datatype State = State(tokens: seq<Token>, hashes: nat, families: nat, clock: int)

  datatype Op =
    | Login(user: nat, tenant: nat)
    | Refresh(hash: nat, userExists: bool)
    | Logout(hash: nat)
    | LogoutAll(user: nat, tenant: nat)
    | Purge
    | Wait(ms: nat)

  datatype Reply = Issued(hash: nat) | InvalidToken | ReuseDetected | Expired | UserGone | Silent

  const START: State := State([], 0, 0, 0)

  // ---- The table --------------------------------------------------------------------------

  function Find(tokens: seq<Token>, hash: nat): (r: Option<Token>)
    ensures r.Some? ==> r.value in tokens && r.value.hash == hash
    ensures r.None? ==> forall i | 0 <= i < |tokens| :: tokens[i].hash != hash
  {
    if tokens == [] then None
    else if tokens[0].hash == hash then Some(tokens[0])
    else Find(tokens[1..], hash)
  }

  /** updateMany: one change to every row that matches. */
  function UpdateMany(tokens: seq<Token>, matches: Token -> bool, change: Token -> Token): seq<Token> {
    seq(|tokens|, i requires 0 <= i < |tokens| => if matches(tokens[i]) then change(tokens[i]) else tokens[i])
  }

  function Revoke(t: Token): Token {
    t.(revoked := true)
  }

  function RevokeFamily(tokens: seq<Token>, family: nat, tenant: nat): (r: seq<Token>)
    ensures |r| == |tokens| && forall i | 0 <= i < |r| ::
      r[i] == tokens[i].(revoked := tokens[i].revoked || (tokens[i].family == family && tokens[i].tenant == tenant))
  {
    UpdateMany(tokens, (t: Token) => t.family == family && t.tenant == tenant && !t.revoked, Revoke)
  }

  function RevokeOne(tokens: seq<Token>, hash: nat, tenant: nat): (r: seq<Token>)
    ensures |r| == |tokens| && forall i | 0 <= i < |r| ::
      r[i] == tokens[i].(revoked := tokens[i].revoked || (tokens[i].hash == hash && tokens[i].tenant == tenant))
  {
    UpdateMany(tokens, (t: Token) => t.hash == hash && t.tenant == tenant, Revoke)
  }

  function RevokeUser(tokens: seq<Token>, user: nat, tenant: nat): (r: seq<Token>)
    ensures |r| == |tokens| && forall i | 0 <= i < |r| ::
      r[i] == tokens[i].(revoked := tokens[i].revoked || (tokens[i].user == user && tokens[i].tenant == tenant))
  {
    UpdateMany(tokens, (t: Token) => t.user == user && t.tenant == tenant, Revoke)
  }

  function Replace(tokens: seq<Token>, presented: Token, hash: nat): seq<Token> {
    UpdateMany(tokens, (t: Token) => t.hash == presented.hash && t.tenant == presented.tenant,
               (t: Token) => t.(revoked := true, replacedBy := Some(hash)))
  }

  function Unexpired(tokens: seq<Token>, now: int): seq<Token> {
    if tokens == [] then []
    else
      var t := tokens[|tokens| - 1];
      var before := Unexpired(tokens[..|tokens| - 1], now);
      if t.absoluteExpireAt < now then before else before + [t]
  }

  function Successor(t: Token, hash: nat, expiresAt: int): Token {
    Token(hash, t.family, t.user, t.tenant, None, false, expiresAt, t.absoluteExpireAt)
  }

  // ---- The operations ---------------------------------------------------------------------

  function Answer(st: State, op: Op): Reply {
    match op
    case Login(_, _) => Issued(st.hashes)
    case Refresh(hash, userExists) =>
      var stored := Find(st.tokens, hash);
      if stored.None? then InvalidToken
      else if stored.value.revoked then ReuseDetected
      else if stored.value.absoluteExpireAt < st.clock then Expired
      else if !userExists then UserGone
      else Issued(st.hashes)
    case _ => Silent
  }

  function Next(st: State, ttl: nat, op: Op): State {
    match op
    case Login(user, tenant) =>
      var expiry := st.clock + ttl;
      st.(tokens := st.tokens + [Token(st.hashes, st.families, user, tenant, None, false, expiry, expiry)],
          hashes := st.hashes + 1, families := st.families + 1)
    case Refresh(hash, userExists) =>
      var stored := Find(st.tokens, hash);
      (match Answer(st, op)
       case ReuseDetected => st.(tokens := RevokeFamily(st.tokens, stored.value.family, stored.value.tenant))
       case Expired => st.(tokens := RevokeOne(st.tokens, stored.value.hash, stored.value.tenant))
       case Issued(newHash) =>
         st.(tokens := Replace(st.tokens, stored.value, newHash)
                       + [Successor(stored.value, newHash, st.clock + ttl)],
             hashes := st.hashes + 1)
       case _ => st)
    case Logout(hash) =>
      var stored := Find(st.tokens, hash);
      if stored.None? || stored.value.revoked then st
      else st.(tokens := RevokeFamily(st.tokens, stored.value.family, stored.value.tenant))
    case LogoutAll(user, tenant) => st.(tokens := RevokeUser(st.tokens, user, tenant))
    case Purge => st.(tokens := Unexpired(st.tokens, st.clock))
    case Wait(ms) => st.(clock := st.clock + ms)
  }

  function Run(st: State, ttl: nat, ops: seq<Op>): State {
    if ops == [] then st else Next(Run(st, ttl, ops[..|ops| - 1]), ttl, ops[|ops| - 1])
  }

  // ---- Families ---------------------------------------------------------------------------

  /** The rows of one family, oldest first. */
  function Members(tokens: seq<Token>, family: nat): seq<Token> {
    if tokens == [] then []
    else
      var t := tokens[|tokens| - 1];
      var before := Members(tokens[..|tokens| - 1], family);
      if t.family == family then before + [t] else before
  }

  predicate Kin(a: Token, b: Token) {
    a.family == b.family && a.user == b.user && a.tenant == b.tenant && a.absoluteExpireAt == b.absoluteExpireAt
  }

  predicate Ascending(tokens: seq<Token>) {
    forall i, j | 0 <= i < j < |tokens| :: tokens[i].hash < tokens[j].hash
  }

  /** Each token points to the next; only the last may still be live. */
  predicate Chain(ms: seq<Token>) {
    && Ascending(ms)
    && (forall i, j | 0 <= i < j < |ms| :: Kin(ms[i], ms[j]))
    && (forall i | 0 <= i < |ms| - 1 :: ms[i].revoked && ms[i].replacedBy == Some(ms[i + 1].hash))
    && (ms != [] ==> ms[|ms| - 1].replacedBy == None)
  }

  ghost predicate Inv(st: State) {
    && (forall i | 0 <= i < |st.tokens| :: st.tokens[i].hash < st.hashes && st.tokens[i].family < st.families)
    && Ascending(st.tokens)
    && (forall f: nat :: Chain(Members(st.tokens, f)))
  }

  // ---- How the table operations act on a family -------------------------------------------

  lemma {:induction false} MembersBelong(tokens: seq<Token>, f: nat)
    ensures forall t :: t in Members(tokens, f) <==> t in tokens && t.family == f
  {
    if tokens == [] {
    } else {
      var n := |tokens| - 1;
      MembersBelong(tokens[..n], f);
      assert tokens == tokens[..n] + [tokens[n]];
    }
  }

  lemma MembersAppend(tokens: seq<Token>, t: Token, f: nat)
    ensures Members(tokens + [t], f) == if t.family == f then Members(tokens, f) + [t] else Members(tokens, f)
  {
    assert (tokens + [t])[..|tokens|] == tokens;
  }

  lemma {:induction false} MembersUpdate(tokens: seq<Token>, matches: Token -> bool, change: Token -> Token, f: nat)
    requires forall t :: change(t).family == t.family
    ensures Members(UpdateMany(tokens, matches, change), f) == UpdateMany(Members(tokens, f), matches, change)
  {
    if tokens == [] {
    } else {
      var n := |tokens| - 1;
      MembersUpdate(tokens[..n], matches, change, f);
      assert UpdateMany(tokens, matches, change)[..n] == UpdateMany(tokens[..n], matches, change);
    }
  }

  lemma {:induction false} MembersUnexpired(tokens: seq<Token>, now: int, f: nat)
    ensures Members(Unexpired(tokens, now), f) == Unexpired(Members(tokens, f), now)
  {
    if tokens == [] {
    } else {
      var n := |tokens| - 1;
      var t := tokens[n];
      MembersUnexpired(tokens[..n], now, f);
      if t.absoluteExpireAt >= now { MembersAppend(Unexpired(tokens[..n], now), t, f); }
      if t.family == f { UnexpiredAppend(Members(tokens[..n], f), t, now); }
    }
  }

  lemma UnexpiredAppend(tokens: seq<Token>, t: Token, now: int)
    ensures Unexpired(tokens + [t], now)
            == if t.absoluteExpireAt < now then Unexpired(tokens, now) else Unexpired(tokens, now) + [t]
  {
    assert (tokens + [t])[..|tokens|] == tokens;
  }

  lemma {:induction false} UnexpiredAllOrNone(ms: seq<Token>, now: int)
    requires forall i, j | 0 <= i < j < |ms| :: ms[i].absoluteExpireAt == ms[j].absoluteExpireAt
    ensures Unexpired(ms, now) == if ms != [] && ms[0].absoluteExpireAt < now then [] else ms
  {
    if ms == [] {
    } else {
      var n := |ms| - 1;
      UnexpiredAllOrNone(ms[..n], now);
    }
  }

  /** A purge takes a family as a whole or leaves it as it is. */
  lemma PurgeIsWhole(st: State, ttl: nat, f: nat)
    requires Inv(st)
    ensures var ms := Members(st.tokens, f);
            Members(Next(st, ttl, Purge).tokens, f)
            == if ms != [] && ms[0].absoluteExpireAt < st.clock then [] else ms
  {
    MembersUnexpired(st.tokens, st.clock, f);
    assert Chain(Members(st.tokens, f));
    UnexpiredAllOrNone(Members(st.tokens, f), st.clock);
  }

  lemma {:induction false} UnexpiredAreRows(tokens: seq<Token>, now: int)
    ensures forall t :: t in Unexpired(tokens, now) ==> t in tokens
  {
    if tokens == [] {
    } else {
      UnexpiredAreRows(tokens[..|tokens| - 1], now);
    }
  }

  lemma {:induction false} UnexpiredAscend(tokens: seq<Token>, now: int)
    requires Ascending(tokens)
    ensures Ascending(Unexpired(tokens, now))
  {
    if tokens == [] {
    } else {
      var n := |tokens| - 1;
      UnexpiredAscend(tokens[..n], now);
      UnexpiredAreRows(tokens[..n], now);
      var before := Unexpired(tokens[..n], now);
      forall i | 0 <= i < |before| ensures before[i].hash < tokens[n].hash {
        assert before[i] in before && before[i] in tokens[..n];
      }
      AscendingAppend(before, tokens[n]);
    }
  }

  lemma AscendingAppend(s: seq<Token>, t: Token)
    requires Ascending(s) && forall i | 0 <= i < |s| :: s[i].hash < t.hash
    ensures Ascending(s + [t])
  {
  }

  // ---- Every run keeps the chains ---------------------------------------------------------

  /** Revoking keeps a chain, whichever of its tokens are hit. */
  lemma RevokingKeepsChains(ms: seq<Token>, matches: Token -> bool)
    requires Chain(ms)
    ensures Chain(UpdateMany(ms, matches, Revoke))
  {
  }

  lemma RevokingKeepsInv(st: State, matches: Token -> bool)
    requires Inv(st)
    ensures Inv(st.(tokens := UpdateMany(st.tokens, matches, Revoke)))
  {
    forall f: nat ensures Chain(Members(UpdateMany(st.tokens, matches, Revoke), f)) {
      assert Chain(Members(st.tokens, f));
      MembersUpdate(st.tokens, matches, Revoke, f);
      RevokingKeepsChains(Members(st.tokens, f), matches);
    }
  }

  /** Only the last of a chain can be live. */
  lemma LiveIsLast(tokens: seq<Token>, t: Token)
    requires Chain(Members(tokens, t.family)) && t in tokens && !t.revoked
    ensures var ms := Members(tokens, t.family); ms != [] && ms[|ms| - 1] == t
  {
    MembersBelong(tokens, t.family);
    var ms := Members(tokens, t.family);
    var i :| 0 <= i < |ms| && ms[i] == t;
  }

  lemma HashIsKey(st: State, a: Token, b: Token)
    requires Inv(st) && a in st.tokens && b in st.tokens && a.hash == b.hash
    ensures a == b
  {
    var i :| 0 <= i < |st.tokens| && st.tokens[i] == a;
    var j :| 0 <= j < |st.tokens| && st.tokens[j] == b;
  }

  /** What a rotation does to the family of the presented token, and to every other. */
  lemma RotationExtends(st: State, t: Token, newHash: nat, expiresAt: int, f: nat)
    requires Inv(st) && t in st.tokens && !t.revoked && newHash >= st.hashes
    ensures var ms := Members(st.tokens, f);
            var after := Members(Replace(st.tokens, t, newHash) + [Successor(t, newHash, expiresAt)], f);
            if f == t.family then
              && ms != [] && ms[|ms| - 1] == t
              && after == ms[..|ms| - 1] + [t.(revoked := true, replacedBy := Some(newHash)),
                                            Successor(t, newHash, expiresAt)]
            else after == ms
  {
    var ms := Members(st.tokens, f);
    var matches := (u: Token) => u.hash == t.hash && u.tenant == t.tenant;
    var change := (u: Token) => u.(revoked := true, replacedBy := Some(newHash));
    MembersAppend(Replace(st.tokens, t, newHash), Successor(t, newHash, expiresAt), f);
    MembersUpdate(st.tokens, matches, change, f);
    MembersBelong(st.tokens, f);
    assert Chain(ms);
    if f == t.family {
      LiveIsLast(st.tokens, t);
      assert UpdateMany(ms, matches, change) == ms[..|ms| - 1] + [change(t)];
    } else {
      forall i | 0 <= i < |ms| ensures ms[i].hash != t.hash {
        assert ms[i] in ms;
        if ms[i].hash == t.hash { HashIsKey(st, ms[i], t); }
      }
      assert UpdateMany(ms, matches, change) == ms;
    }
  }

  lemma RotatedChain(ms: seq<Token>, newHash: nat, expiresAt: int)
    requires Chain(ms) && ms != [] && ms[|ms| - 1].hash < newHash
    ensures var t := ms[|ms| - 1];
            Chain(ms[..|ms| - 1] + [t.(revoked := true, replacedBy := Some(newHash)), Successor(t, newHash, expiresAt)])
  {
  }

  lemma RotationKeepsInv(st: State, t: Token, expiresAt: int)
    requires Inv(st) && t in st.tokens && !t.revoked
    ensures Inv(st.(tokens := Replace(st.tokens, t, st.hashes) + [Successor(t, st.hashes, expiresAt)],
                    hashes := st.hashes + 1))
  {
    var after := Replace(st.tokens, t, st.hashes) + [Successor(t, st.hashes, expiresAt)];
    forall f: nat ensures Chain(Members(after, f)) {
      assert Chain(Members(st.tokens, f));
      RotationExtends(st, t, st.hashes, expiresAt, f);
      if f == t.family { RotatedChain(Members(st.tokens, f), st.hashes, expiresAt); }
    }
  }

  lemma {:induction false} NoMembers(tokens: seq<Token>, f: nat)
    requires forall i | 0 <= i < |tokens| :: tokens[i].family != f
    ensures Members(tokens, f) == []
  {
    if tokens == [] {
    } else {
      NoMembers(tokens[..|tokens| - 1], f);
    }
  }

  lemma LoginKeepsInv(st: State, ttl: nat, user: nat, tenant: nat)
    requires Inv(st)
    ensures Inv(Next(st, ttl, Login(user, tenant)))
  {
    hide Unexpired, UpdateMany;
    var t := Token(st.hashes, st.families, user, tenant, None, false, st.clock + ttl, st.clock + ttl);
    forall f: nat ensures Chain(Members(st.tokens + [t], f)) {
      assert Chain(Members(st.tokens, f));
      MembersAppend(st.tokens, t, f);
      if f == st.families { NoMembers(st.tokens, f); }
    }
  }

  lemma PurgeKeepsInv(st: State, ttl: nat)
    requires Inv(st)
    ensures Inv(Next(st, ttl, Purge))
  {
    UnexpiredAscend(st.tokens, st.clock);
    UnexpiredAreRows(st.tokens, st.clock);
    var after := Next(st, ttl, Purge).tokens;
    forall i | 0 <= i < |after| ensures after[i].hash < st.hashes && after[i].family < st.families {
      assert after[i] in after && after[i] in st.tokens;
    }
    forall f: nat ensures Chain(Members(after, f)) {
      assert Chain(Members(st.tokens, f));
      PurgeIsWhole(st, ttl, f);
    }
  }

  lemma StepKeepsInv(st: State, ttl: nat, op: Op)
    requires Inv(st)
    ensures Inv(Next(st, ttl, op))
  {
    hide Inv, Unexpired, RevokeFamily, RevokeOne, RevokeUser, Replace;
    match op {
      case Login(user, tenant) => LoginKeepsInv(st, ttl, user, tenant);
      case Refresh(hash, userExists) =>
        match Answer(st, op) {
          case ReuseDetected => RevokeFamilyKeepsInv(st, Find(st.tokens, hash).value);
          case Expired => RevokeOneKeepsInv(st, Find(st.tokens, hash).value);
          case Issued(_) => RotationKeepsInv(st, Find(st.tokens, hash).value, st.clock + ttl);
          case _ =>
        }
      case Logout(hash) =>
        var stored := Find(st.tokens, hash);
        if stored.Some? { RevokeFamilyKeepsInv(st, stored.value); }
      case LogoutAll(user, tenant) =>
        RevokeUserKeepsInv(st, user, tenant);
      case Purge => PurgeKeepsInv(st, ttl);
      case Wait(ms) => ClockKeepsInv(st, ms);
    }
  }

  lemma ClockKeepsInv(st: State, ms: nat)
    requires Inv(st)
    ensures Inv(st.(clock := st.clock + ms))
  {
  }

  lemma RevokeFamilyKeepsInv(st: State, t: Token)
    requires Inv(st)
    ensures Inv(st.(tokens := RevokeFamily(st.tokens, t.family, t.tenant)))
  {
    RevokingKeepsInv(st, (u: Token) => u.family == t.family && u.tenant == t.tenant && !u.revoked);
  }

  lemma RevokeUserKeepsInv(st: State, user: nat, tenant: nat)
    requires Inv(st)
    ensures Inv(st.(tokens := RevokeUser(st.tokens, user, tenant)))
  {
    RevokingKeepsInv(st, (t: Token) => t.user == user && t.tenant == tenant);
  }

  lemma RevokeOneKeepsInv(st: State, t: Token)
    requires Inv(st)
    ensures Inv(st.(tokens := RevokeOne(st.tokens, t.hash, t.tenant)))
  {
    RevokingKeepsInv(st, (u: Token) => u.hash == t.hash && u.tenant == t.tenant);
  }

  /** In every reachable state each family is one chain of kin in which only the last token can
      be live. */
  lemma {:induction false} RunKeepsChains(ttl: nat, ops: seq<Op>)
    ensures Inv(Run(START, ttl, ops))
  {
    if ops == [] {
    } else {
      RunKeepsChains(ttl, ops[..|ops| - 1]);
      StepKeepsInv(Run(START, ttl, ops[..|ops| - 1]), ttl, ops[|ops| - 1]);
    }
  }
}
