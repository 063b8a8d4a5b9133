/** Whose tokens a login gives out, and whose an operation touches. */
module Sessions {
  import opened Options
  import opened TokenFamilies
  import opened TokenLifetimes

  /** Every token of the family is this user's. */
  ghost predicate Owned(st: State, f: nat, user: nat, tenant: nat) {
    f < st.families
    && forall i | 0 <= i < |st.tokens| && st.tokens[i].family == f ::
         st.tokens[i].user == user && st.tokens[i].tenant == tenant
  }

  lemma LoginIsOwned(st: State, ttl: nat, user: nat, tenant: nat)
    requires Inv(st)
    ensures Owned(Next(st, ttl, Login(user, tenant)), st.families, user, tenant)
  {
  }

  lemma StepKeepsOwned(st: State, ttl: nat, op: Op, f: nat, user: nat, tenant: nat)
    requires Owned(st, f, user, tenant)
    ensures Owned(Next(st, ttl, op), f, user, tenant)
  {
    StepOrigins(st, ttl, op);
    var after := Next(st, ttl, op);
    forall i | 0 <= i < |after.tokens| && after.tokens[i].family == f
      ensures after.tokens[i].user == user && after.tokens[i].tenant == tenant
    {
      if HasOrigin(st, after.tokens[i]) {
        var j :| 0 <= j < |st.tokens| && Descends(st.tokens[j], after.tokens[i]);
      } else if op.Refresh? {
        var j := AcceptedRow(st, op.hash, op.userExists);
      }
    }
  }

  lemma {:induction false} RunKeepsOwned(st: State, ttl: nat, ops: seq<Op>, f: nat, user: nat, tenant: nat)
    requires Inv(st) && Owned(st, f, user, tenant)
    ensures Inv(Run(st, ttl, ops)) && Owned(Run(st, ttl, ops), f, user, tenant)
  {
    if ops == [] {
    } else {
      var before := Run(st, ttl, ops[..|ops| - 1]);
      RunKeepsOwned(st, ttl, ops[..|ops| - 1], f, user, tenant);
      StepKeepsInv(before, ttl, ops[|ops| - 1]);
      StepKeepsOwned(before, ttl, ops[|ops| - 1], f, user, tenant);
    }
  }

  /** The state some time after a login; its family is numbered by the families before it. */
  function SinceLogin(ttl: nat, before: seq<Op>, user: nat, tenant: nat, between: seq<Op>): State {
    Run(Next(Run(START, ttl, before), ttl, Login(user, tenant)), ttl, between)
  }

  lemma SinceLoginIsOwned(ttl: nat, before: seq<Op>, user: nat, tenant: nat, between: seq<Op>)
    ensures var st := SinceLogin(ttl, before, user, tenant, between);
            Inv(st) && Owned(st, Run(START, ttl, before).families, user, tenant)
  {
    hide Next, Inv, Owned;
    var st := Run(START, ttl, before);
    RunKeepsChains(ttl, before);
    StepKeepsInv(st, ttl, Login(user, tenant));
    LoginIsOwned(st, ttl, user, tenant);
    RunKeepsOwned(Next(st, ttl, Login(user, tenant)), ttl, between, st.families, user, tenant);
  }

  lemma OwnerLogsOut(st: State, ttl: nat, f: nat, user: nat, tenant: nat)
    requires Owned(st, f, user, tenant)
    ensures Dead(Next(st, ttl, LogoutAll(user, tenant)), f)
  {
  }

  /** Logging a user out everywhere ends every login of that user: whatever happened before the
      login, since, and afterwards, no token of its family is accepted or created any more. */
  lemma LogoutEverywhereEndsLogins(ttl: nat, before: seq<Op>, user: nat, tenant: nat, between: seq<Op>, ops: seq<Op>)
    ensures var f := Run(START, ttl, before).families;
            var out := Next(SinceLogin(ttl, before, user, tenant, between), ttl, LogoutAll(user, tenant));
            var end := Run(out, ttl, ops);
            Dead(end, f) && NoneAdded(out, end, f) && forall op :: !Accepted(end, op, f)
  {
    hide Next, Inv, Owned, Dead, NoneAdded;
    var f, st := Run(START, ttl, before).families, SinceLogin(ttl, before, user, tenant, between);
    SinceLoginIsOwned(ttl, before, user, tenant, between);
    OwnerLogsOut(st, ttl, f, user, tenant);
    StepKeepsInv(st, ttl, LogoutAll(user, tenant));
    DeadFamiliesStayDead(Next(st, ttl, LogoutAll(user, tenant)), ttl, ops, f);
  }

  // ---- What an operation leaves alone -----------------------------------------------------

  /** The operation presents no token of the family and logs out nobody who has one in it. */
  ghost predicate Elsewhere(st: State, op: Op, f: nat) {
    match op
    case Refresh(hash, _) => Find(st.tokens, hash).Some? ==> Find(st.tokens, hash).value.family != f
    case Logout(hash) => Find(st.tokens, hash).Some? ==> Find(st.tokens, hash).value.family != f
    case LogoutAll(user, tenant) =>
      forall t | t in st.tokens && t.family == f :: t.user != user || t.tenant != tenant
    case Purge => false
    case _ => true
  }

  lemma UnmatchedRowsStay(tokens: seq<Token>, matches: Token -> bool, change: Token -> Token, f: nat)
    requires forall t :: change(t).family == t.family
    requires forall t | t in tokens && t.family == f :: !matches(t)
    ensures Members(UpdateMany(tokens, matches, change), f) == Members(tokens, f)
  {
    MembersUpdate(tokens, matches, change, f);
    MembersBelong(tokens, f);
    var ms := Members(tokens, f);
    forall i | 0 <= i < |ms| ensures !matches(ms[i]) { assert ms[i] in ms; }
    assert UpdateMany(ms, matches, change) == ms;
  }

  lemma RefreshElsewhere(st: State, ttl: nat, op: Op, f: nat)
    requires Inv(st) && op.Refresh? && Elsewhere(st, op, f)
    ensures Members(Next(st, ttl, op).tokens, f) == Members(st.tokens, f)
  {
    var stored := Find(st.tokens, op.hash);
    if stored.Some? {
      var t := stored.value;
      forall u | u in st.tokens && u.family == f ensures u.hash != t.hash {
        if u.hash == t.hash { HashIsKey(st, u, t); }
      }
      match Answer(st, op) {
        case ReuseDetected =>
          UnmatchedRowsStay(st.tokens, (u: Token) => u.family == t.family && u.tenant == t.tenant && !u.revoked, Revoke, f);
        case Expired =>
          UnmatchedRowsStay(st.tokens, (u: Token) => u.hash == t.hash && u.tenant == t.tenant, Revoke, f);
        case Issued(newHash) => RotationExtends(st, t, newHash, st.clock + ttl, f);
        case _ =>
      }
    }
  }

  /** An operation on other families leaves this one as it is, token by token. */
  lemma OtherFamiliesAreSpared(st: State, ttl: nat, op: Op, f: nat)
    requires Inv(st) && f < st.families && Elsewhere(st, op, f)
    ensures Members(Next(st, ttl, op).tokens, f) == Members(st.tokens, f)
  {
    match op {
      case Login(user, tenant) =>
        MembersAppend(st.tokens, Token(st.hashes, st.families, user, tenant, None, false, st.clock + ttl, st.clock + ttl), f);
      case Refresh(_, _) => RefreshElsewhere(st, ttl, op, f);
      case Logout(hash) =>
        var stored := Find(st.tokens, hash);
        if stored.Some? && !stored.value.revoked {
          var t := stored.value;
          UnmatchedRowsStay(st.tokens, (u: Token) => u.family == t.family && u.tenant == t.tenant && !u.revoked, Revoke, f);
        }
      case LogoutAll(user, tenant) =>
        UnmatchedRowsStay(st.tokens, (t: Token) => t.user == user && t.tenant == tenant, Revoke, f);
      case Wait(_) =>
    }
  }

  /** Logging somebody else out everywhere leaves every token of a login as it was. */
  lemma LogoutEverywhereSparesOthers(ttl: nat, before: seq<Op>, user: nat, tenant: nat, between: seq<Op>,
                                     other: nat, otherTenant: nat)
    requires other != user || otherTenant != tenant
    ensures var f, st := Run(START, ttl, before).families, SinceLogin(ttl, before, user, tenant, between);
            Members(Next(st, ttl, LogoutAll(other, otherTenant)).tokens, f) == Members(st.tokens, f)
  {
    hide Next, Inv, Members;
    var f, st := Run(START, ttl, before).families, SinceLogin(ttl, before, user, tenant, between);
    SinceLoginIsOwned(ttl, before, user, tenant, between);
    OtherFamiliesAreSpared(st, ttl, LogoutAll(other, otherTenant), f);
  }
}
