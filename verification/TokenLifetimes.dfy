/** What holds of a token family over whole runs: who can be live, what ends a family for good,
    and how long a login can last. */
module TokenLifetimes {
  import opened Options
  import opened TokenFamilies

  predicate Accepted(st: State, op: Op, f: nat) {
    op.Refresh? && Answer(st, op).Issued? && Find(st.tokens, op.hash).value.family == f
  }

  lemma FamilyIsKin(st: State, a: Token, b: Token)
    requires Inv(st) && a in st.tokens && b in st.tokens && a.family == b.family
    ensures Kin(a, b)
  {
    var ms := Members(st.tokens, a.family);
    MembersBelong(st.tokens, a.family);
    assert Chain(ms);
    var i :| 0 <= i < |ms| && ms[i] == a;
    var j :| 0 <= j < |ms| && ms[j] == b;
    if i < j { assert Kin(ms[i], ms[j]); } else if j < i { assert Kin(ms[j], ms[i]); }
  }

  lemma AtMostOneIsLive(st: State, a: Token, b: Token)
    requires Inv(st) && a in st.tokens && b in st.tokens && a.family == b.family
    requires !a.revoked && !b.revoked
    ensures a == b
  {
    LiveIsLast(st.tokens, a);
    LiveIsLast(st.tokens, b);
  }

  lemma FindsTheRow(st: State, t: Token)
    requires Inv(st) && t in st.tokens
    ensures Find(st.tokens, t.hash) == Some(t)
  {
    var found := Find(st.tokens, t.hash);
    HashIsKey(st, found.value, t);
  }

  // ---- Where the tokens of a step come from -----------------------------------------------

  /** The same token, perhaps revoked meanwhile. */
  predicate Descends(a: Token, b: Token) {
    a.hash == b.hash && Kin(a, b) && (a.revoked ==> b.revoked)
  }

  ghost predicate HasOrigin(st: State, t: Token) {
    exists j :: 0 <= j < |st.tokens| && Descends(st.tokens[j], t)
  }

  /** A token that the operation creates. */
  predicate Born(st: State, ttl: nat, op: Op, t: Token) {
    && t.hash == st.hashes
    && (op.Login? || op.Refresh?)
    && (op.Login? ==> t.family == st.families && t.user == op.user && t.tenant == op.tenant
                      && t.absoluteExpireAt == st.clock + ttl)
    && (op.Refresh? ==> Accepted(st, op, t.family) && Kin(t, Find(st.tokens, op.hash).value))
  }

  ghost predicate AllFrom(st: State, tokens: seq<Token>) {
    forall i | 0 <= i < |tokens| :: HasOrigin(st, tokens[i])
  }

  lemma UpdateOrigins(st: State, matches: Token -> bool, change: Token -> Token)
    requires forall t :: Descends(t, change(t))
    ensures AllFrom(st, UpdateMany(st.tokens, matches, change)) && AllFrom(st, st.tokens)
  {
    var after := UpdateMany(st.tokens, matches, change);
    forall i | 0 <= i < |after| ensures HasOrigin(st, after[i]) && HasOrigin(st, st.tokens[i]) {
      assert Descends(st.tokens[i], after[i]) && Descends(st.tokens[i], st.tokens[i]);
    }
  }

  lemma PurgeOrigins(st: State)
    ensures AllFrom(st, Unexpired(st.tokens, st.clock))
  {
    UnexpiredAreRows(st.tokens, st.clock);
    var after := Unexpired(st.tokens, st.clock);
    forall i | 0 <= i < |after| ensures HasOrigin(st, after[i]) {
      assert after[i] in after;
      var j :| 0 <= j < |st.tokens| && st.tokens[j] == after[i];
      assert Descends(st.tokens[j], after[i]);
    }
  }

  lemma RefreshOrigins(st: State, ttl: nat, op: Op)
    requires op.Refresh?
    ensures var after := Next(st, ttl, op).tokens;
            if Answer(st, op).Issued? then
              && |after| > 0 && AllFrom(st, after[..|after| - 1])
              && Born(st, ttl, op, after[|after| - 1])
            else AllFrom(st, after)
  {
    var stored := Find(st.tokens, op.hash);
    UpdateOrigins(st, (t: Token) => false, Revoke);
    if stored.Some? {
      var t := stored.value;
      match Answer(st, op) {
        case ReuseDetected => RevokedOrigins(st, t);
        case Expired => UpdateOrigins(st, (u: Token) => u.hash == t.hash && u.tenant == t.tenant, Revoke);
        case Issued(_) => RotationOrigins(st, ttl, op);
        case _ =>
      }
    }
  }

  lemma RotationOrigins(st: State, ttl: nat, op: Op)
    requires op.Refresh? && Answer(st, op).Issued?
    ensures var after := Next(st, ttl, op).tokens;
            |after| > 0 && AllFrom(st, after[..|after| - 1]) && Born(st, ttl, op, after[|after| - 1])
  {
    hide AllFrom, Replace;
    var t, after := Find(st.tokens, op.hash).value, Next(st, ttl, op).tokens;
    ReplacedOrigins(st, t, st.hashes);
    assert after[..|after| - 1] == Replace(st.tokens, t, st.hashes);
  }

  lemma ReplacedOrigins(st: State, t: Token, newHash: nat)
    ensures AllFrom(st, Replace(st.tokens, t, newHash))
  {
    UpdateOrigins(st, (u: Token) => u.hash == t.hash && u.tenant == t.tenant,
                  (u: Token) => u.(revoked := true, replacedBy := Some(newHash)));
  }

  lemma RevokedOrigins(st: State, t: Token)
    ensures AllFrom(st, RevokeFamily(st.tokens, t.family, t.tenant))
  {
    UpdateOrigins(st, (u: Token) => u.family == t.family && u.tenant == t.tenant && !u.revoked, Revoke);
  }

  /** Every token of the next state is one of this state or created by the step. */
  lemma StepOrigins(st: State, ttl: nat, op: Op)
    ensures var after := Next(st, ttl, op).tokens;
            forall i | 0 <= i < |after| :: HasOrigin(st, after[i]) || Born(st, ttl, op, after[i])
  {
    UpdateOrigins(st, (t: Token) => false, Revoke);
    match op {
      case Refresh(_, _) =>
        RefreshOrigins(st, ttl, op);
        var after := Next(st, ttl, op).tokens;
        forall i | 0 <= i < |after| ensures HasOrigin(st, after[i]) || Born(st, ttl, op, after[i]) {
          if Answer(st, op).Issued? && i < |after| - 1 { assert HasOrigin(st, after[..|after| - 1][i]); }
        }
      case Logout(hash) =>
        var stored := Find(st.tokens, hash);
        if stored.Some? { RevokedOrigins(st, stored.value); }
      case LogoutAll(user, tenant) =>
        UpdateOrigins(st, (t: Token) => t.user == user && t.tenant == tenant, Revoke);
      case Purge => PurgeOrigins(st);
      case _ =>
    }
  }

  /** An accepted token is a live row. */
  lemma AcceptedRow(st: State, hash: nat, userExists: bool) returns (j: nat)
    requires Answer(st, Refresh(hash, userExists)).Issued?
    ensures j < |st.tokens| && Find(st.tokens, hash) == Some(st.tokens[j])
    ensures st.tokens[j].hash == hash && !st.tokens[j].revoked && st.tokens[j].absoluteExpireAt >= st.clock
  {
    var t := Find(st.tokens, hash).value;
    assert t in st.tokens;
    j :| 0 <= j < |st.tokens| && st.tokens[j] == t;
  }

  /** A refresh is accepted exactly when the token is stored, live and not past its absolute
      expiry, and its user exists. */
  lemma AcceptedIffLive(ttl: nat, before: seq<Op>, hash: nat, userExists: bool)
    ensures var st := Run(START, ttl, before);
            Answer(st, Refresh(hash, userExists)).Issued? <==>
              userExists && exists j :: 0 <= j < |st.tokens| && st.tokens[j].hash == hash && !st.tokens[j].revoked
                                        && st.tokens[j].absoluteExpireAt >= st.clock
  {
    var st := Run(START, ttl, before);
    RunKeepsChains(ttl, before);
    if Answer(st, Refresh(hash, userExists)).Issued? {
      var j := AcceptedRow(st, hash, userExists);
    }
    forall j | 0 <= j < |st.tokens| && st.tokens[j].hash == hash ensures Find(st.tokens, hash) == Some(st.tokens[j]) {
      FindsTheRow(st, st.tokens[j]);
    }
  }

  // ---- Rotation ---------------------------------------------------------------------------

  lemma RotatedRows(st: State, ttl: nat, hash: nat)
    requires Answer(st, Refresh(hash, true)).Issued?
    ensures var t := Find(st.tokens, hash).value;
            var after := Next(st, ttl, Refresh(hash, true)).tokens;
            && t.(revoked := true, replacedBy := Some(st.hashes)) in after
            && Successor(t, st.hashes, st.clock + ttl) in after
            && t.hash == hash
  {
    var t := Find(st.tokens, hash).value;
    var after := Next(st, ttl, Refresh(hash, true)).tokens;
    var i := AcceptedRow(st, hash, true);
    assert after[i] == t.(revoked := true, replacedBy := Some(st.hashes));
    assert after[|st.tokens|] == Successor(t, st.hashes, st.clock + ttl);
  }

  /** After a rotation the new token is accepted as long as the old one would have been, and the
      old one counts as reused from then on. */
  lemma RotationHandsOver(st: State, ttl: nat, hash: nat, ms: nat)
    requires Inv(st) && Answer(st, Refresh(hash, true)).Issued?
    ensures var newHash := st.hashes;
            var later := Next(Next(st, ttl, Refresh(hash, true)), ttl, Wait(ms));
            && Answer(later, Refresh(hash, true)) == ReuseDetected
            && Answer(later, Refresh(newHash, true))
               == if Find(st.tokens, hash).value.absoluteExpireAt < st.clock + ms then Expired
                  else Issued(newHash + 1)
  {
    var t := Find(st.tokens, hash).value;
    var after := Next(st, ttl, Refresh(hash, true));
    StepKeepsInv(st, ttl, Refresh(hash, true));
    RotatedRows(st, ttl, hash);
    FindsTheRow(after, t.(revoked := true, replacedBy := Some(st.hashes)));
    FindsTheRow(after, Successor(t, st.hashes, st.clock + ttl));
  }

  /** A token that has been given out and is not live. */
  ghost predicate Spent(st: State, hash: nat) {
    hash < st.hashes && forall i | 0 <= i < |st.tokens| && st.tokens[i].hash == hash :: st.tokens[i].revoked
  }

  lemma StepKeepsSpent(st: State, ttl: nat, op: Op, hash: nat)
    requires Spent(st, hash)
    ensures Spent(Next(st, ttl, op), hash)
    ensures op.Refresh? && op.hash == hash ==> !Answer(st, op).Issued?
  {
    StepOrigins(st, ttl, op);
    var after := Next(st, ttl, op);
    forall i | 0 <= i < |after.tokens| && after.tokens[i].hash == hash ensures after.tokens[i].revoked {
      if HasOrigin(st, after.tokens[i]) {
        var j :| 0 <= j < |st.tokens| && Descends(st.tokens[j], after.tokens[i]);
      }
    }
    if op.Refresh? && op.hash == hash && Answer(st, op).Issued? { var j := AcceptedRow(st, hash, op.userExists); }
  }

  lemma {:induction false} RunSpent(st: State, ttl: nat, ops: seq<Op>, hash: nat)
    requires Inv(st) && Spent(st, hash)
    ensures Inv(Run(st, ttl, ops)) && Spent(Run(st, ttl, ops), hash)
  {
    if ops == [] {
    } else {
      var before := Run(st, ttl, ops[..|ops| - 1]);
      RunSpent(st, ttl, ops[..|ops| - 1], hash);
      StepKeepsInv(before, ttl, ops[|ops| - 1]);
      StepKeepsSpent(before, ttl, ops[|ops| - 1], hash);
    }
  }

  /** An accepted token is spent. */
  lemma RefreshSpends(st: State, ttl: nat, hash: nat, userExists: bool)
    requires Inv(st) && Answer(st, Refresh(hash, userExists)).Issued?
    ensures Spent(Next(st, ttl, Refresh(hash, userExists)), hash)
  {
    var after := Next(st, ttl, Refresh(hash, userExists));
    var i := AcceptedRow(st, hash, userExists);
    var t := st.tokens[i];
    forall k | 0 <= k < |after.tokens| && after.tokens[k].hash == hash ensures after.tokens[k].revoked {
      if k < |st.tokens| { HashIsKey(st, st.tokens[k], t); }
    }
  }

  /** No token is ever accepted twice, whatever happens before, in between and after. */
  lemma TokensAreAcceptedOnce(ttl: nat, before: seq<Op>, hash: nat, between: seq<Op>, userExists: bool)
    requires Answer(Run(START, ttl, before), Refresh(hash, true)).Issued?
    ensures var after := Next(Run(START, ttl, before), ttl, Refresh(hash, true));
            !Answer(Run(after, ttl, between), Refresh(hash, userExists)).Issued?
  {
    hide Next, Answer, Spent, Inv;
    RunKeepsChains(ttl, before);
    var st := Run(START, ttl, before);
    var after := Next(st, ttl, Refresh(hash, true));
    StepKeepsInv(st, ttl, Refresh(hash, true));
    RefreshSpends(st, ttl, hash, true);
    RunSpent(after, ttl, between, hash);
    StepKeepsSpent(Run(after, ttl, between), ttl, Refresh(hash, userExists), hash);
  }

  // ---- The end of a family ----------------------------------------------------------------

  ghost predicate Dead(st: State, f: nat) {
    f < st.families && forall i | 0 <= i < |st.tokens| && st.tokens[i].family == f :: st.tokens[i].revoked
  }

  /** Every token of f in b was already there in a. */
  ghost predicate NoneAdded(a: State, b: State, f: nat) {
    forall i | 0 <= i < |b.tokens| && b.tokens[i].family == f ::
      exists j :: 0 <= j < |a.tokens| && a.tokens[j].hash == b.tokens[i].hash && a.tokens[j].family == f
  }

  lemma DeadAcceptsNone(st: State, op: Op, f: nat)
    requires Dead(st, f)
    ensures !Accepted(st, op, f)
  {
    if Accepted(st, op, f) { var j := AcceptedRow(st, op.hash, op.userExists); }
  }

  lemma StepKeepsDead(st: State, ttl: nat, op: Op, f: nat)
    requires Dead(st, f)
    ensures Dead(Next(st, ttl, op), f) && NoneAdded(st, Next(st, ttl, op), f)
  {
    StepOrigins(st, ttl, op);
    DeadAcceptsNone(st, op, f);
    var after := Next(st, ttl, op);
    forall i | 0 <= i < |after.tokens| && after.tokens[i].family == f
      ensures after.tokens[i].revoked
      ensures exists j :: 0 <= j < |st.tokens| && st.tokens[j].hash == after.tokens[i].hash && st.tokens[j].family == f
    {
      assert HasOrigin(st, after.tokens[i]);
      var j :| 0 <= j < |st.tokens| && Descends(st.tokens[j], after.tokens[i]);
    }
  }

  /** From a dead family no token is accepted and to it none is added, however the run goes on. */
  lemma {:induction false} DeadFamiliesStayDead(st: State, ttl: nat, ops: seq<Op>, f: nat)
    requires Inv(st) && Dead(st, f)
    ensures var end := Run(st, ttl, ops);
            Inv(end) && Dead(end, f) && NoneAdded(st, end, f) && forall op :: !Accepted(end, op, f)
  {
    if ops == [] {
    } else {
      var before, last := Run(st, ttl, ops[..|ops| - 1]), ops[|ops| - 1];
      DeadFamiliesStayDead(st, ttl, ops[..|ops| - 1], f);
      StepKeepsInv(before, ttl, last);
      StepKeepsDead(before, ttl, last, f);
    }
    forall op ensures !Accepted(Run(st, ttl, ops), op, f) { DeadAcceptsNone(Run(st, ttl, ops), op, f); }
  }

  /** The operations that end the family of a token: it is presented although it is revoked or
      has expired, it is logged out while live, or its user is logged out everywhere. */
  predicate Ends(st: State, op: Op, t: Token) {
    match op
    case Refresh(hash, _) => hash == t.hash && (t.revoked || t.absoluteExpireAt < st.clock)
    case Logout(hash) => hash == t.hash && !t.revoked
    case LogoutAll(user, tenant) => user == t.user && tenant == t.tenant
    case _ => false
  }

  lemma FamilyRevoked(st: State, t: Token)
    requires Inv(st) && t in st.tokens
    ensures Dead(st.(tokens := RevokeFamily(st.tokens, t.family, t.tenant)), t.family)
  {
    var after := RevokeFamily(st.tokens, t.family, t.tenant);
    forall i | 0 <= i < |after| && after[i].family == t.family ensures after[i].revoked {
      FamilyIsKin(st, st.tokens[i], t);
    }
  }

  lemma UserRevoked(st: State, t: Token)
    requires Inv(st) && t in st.tokens
    ensures Dead(st.(tokens := RevokeUser(st.tokens, t.user, t.tenant)), t.family)
  {
    var after := RevokeUser(st.tokens, t.user, t.tenant);
    forall i | 0 <= i < |after| && after[i].family == t.family ensures after[i].revoked {
      FamilyIsKin(st, st.tokens[i], t);
    }
  }

  /** Revoking the live token of a family is revoking the family. */
  lemma LastRevoked(st: State, t: Token)
    requires Inv(st) && t in st.tokens && !t.revoked
    ensures Dead(st.(tokens := RevokeOne(st.tokens, t.hash, t.tenant)), t.family)
  {
    var after := RevokeOne(st.tokens, t.hash, t.tenant);
    forall i | 0 <= i < |after| && after[i].family == t.family ensures after[i].revoked {
      if !st.tokens[i].revoked { AtMostOneIsLive(st, st.tokens[i], t); }
    }
  }

  lemma EndedFamiliesAreDead(st: State, ttl: nat, op: Op, t: Token)
    requires Inv(st) && t in st.tokens && Ends(st, op, t)
    ensures Dead(Next(st, ttl, op), t.family)
  {
    FindsTheRow(st, t);
    match op {
      case Refresh(_, _) => if t.revoked { FamilyRevoked(st, t); } else { LastRevoked(st, t); }
      case Logout(_) => FamilyRevoked(st, t);
      case LogoutAll(_, _) => UserRevoked(st, t);
    }
  }

  /** Once a family has been ended, none of its tokens is accepted and none is created in any
      continuation of the run. */
  lemma EndedFamiliesNeverReturn(ttl: nat, before: seq<Op>, op: Op, t: Token, ops: seq<Op>)
    requires t in Run(START, ttl, before).tokens && Ends(Run(START, ttl, before), op, t)
    ensures var ended := Next(Run(START, ttl, before), ttl, op);
            var end := Run(ended, ttl, ops);
            NoneAdded(ended, end, t.family) && forall later :: !Accepted(end, later, t.family)
  {
    var st := Run(START, ttl, before);
    RunKeepsChains(ttl, before);
    StepKeepsInv(st, ttl, op);
    EndedFamiliesAreDead(st, ttl, op, t);
    DeadFamiliesStayDead(Next(st, ttl, op), ttl, ops, t.family);
  }

  // ---- The lifetime of a login ------------------------------------------------------------

  ghost predicate Deadline(st: State, f: nat, deadline: int) {
    f < st.families
    && forall i | 0 <= i < |st.tokens| && st.tokens[i].family == f :: st.tokens[i].absoluteExpireAt == deadline
  }

  lemma StepKeepsDeadline(st: State, ttl: nat, op: Op, f: nat, deadline: int)
    requires Deadline(st, f, deadline)
    ensures Deadline(Next(st, ttl, op), f, deadline)
  {
    StepOrigins(st, ttl, op);
    var after := Next(st, ttl, op);
    forall i | 0 <= i < |after.tokens| && after.tokens[i].family == f ensures after.tokens[i].absoluteExpireAt == deadline {
      if HasOrigin(st, after.tokens[i]) {
        var j :| 0 <= j < |st.tokens| && Descends(st.tokens[j], after.tokens[i]);
      } else if op.Refresh? {
        var j := AcceptedRow(st, op.hash, op.userExists);
      }
    }
  }

  lemma {:induction false} RunKeepsDeadline(st: State, ttl: nat, ops: seq<Op>, f: nat, deadline: int)
    requires Deadline(st, f, deadline)
    ensures Deadline(Run(st, ttl, ops), f, deadline)
  {
    if ops == [] {
    } else {
      RunKeepsDeadline(st, ttl, ops[..|ops| - 1], f, deadline);
      StepKeepsDeadline(Run(st, ttl, ops[..|ops| - 1]), ttl, ops[|ops| - 1], f, deadline);
    }
  }

  /** However often its tokens are rotated, a login is refreshed no later than its time plus the
      time to live. */
  lemma LoginsDoNotOutliveTheirTtl(ttl: nat, before: seq<Op>, user: nat, tenant: nat, ops: seq<Op>, op: Op)
    ensures var st := Run(START, ttl, before);
            var end := Run(Next(st, ttl, Login(user, tenant)), ttl, ops);
            Accepted(end, op, st.families) ==> end.clock <= st.clock + ttl
  {
    var st := Run(START, ttl, before);
    RunKeepsChains(ttl, before);
    var start := Next(st, ttl, Login(user, tenant));
    var end := Run(start, ttl, ops);
    RunKeepsDeadline(start, ttl, ops, st.families, st.clock + ttl);
    if Accepted(end, op, st.families) { var j := AcceptedRow(end, op.hash, op.userExists); }
  }
}
