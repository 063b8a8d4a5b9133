/** Refreshes whose find and rotation are two statements, as the service issues them, with anything
    in between; and the guard on the rotation that makes them one again. */
module TokenRaces {
  import opened Options
  import opened TokenFamilies
  import opened TokenLifetimes

  /** The tokens that refreshes have found acceptable and not rotated yet, as they were found. */
  datatype Racing = Racing(st: State, found: seq<Token>)

  datatype Act =
    | Whole(op: Op)                          // an undivided operation
    | Finds(hash: nat, userExists: bool)     // a refresh up to its checks
    | Rotates(k: nat)                        // its rotation, whatever has become of the row
    | RotatesIfLive(k: nat)                  // the same, on condition that the row is still live

  function Rotated(st: State, ttl: nat, t: Token): State {
    st.(tokens := Replace(st.tokens, t, st.hashes) + [Successor(t, st.hashes, st.clock + ttl)],
        hashes := st.hashes + 1)
  }

  predicate Live(st: State, t: Token) {
    exists i :: 0 <= i < |st.tokens| && st.tokens[i].hash == t.hash && !st.tokens[i].revoked
  }

  function Drop(found: seq<Token>, k: nat): seq<Token>
    requires k < |found|
  {
    found[..k] + found[k + 1..]
  }

  /** A guarded rotation that comes too late counts as reuse. */
  function Turn(r: Racing, ttl: nat, a: Act): Racing {
    match a
    case Whole(op) => r.(st := Next(r.st, ttl, op))
    case Finds(hash, userExists) =>
      if Answer(r.st, Refresh(hash, userExists)).Issued? then r.(found := r.found + [Find(r.st.tokens, hash).value])
      else r.(st := Next(r.st, ttl, Refresh(hash, userExists)))
    case Rotates(k) =>
      if k < |r.found| then Racing(Rotated(r.st, ttl, r.found[k]), Drop(r.found, k)) else r
    case RotatesIfLive(k) =>
      if k >= |r.found| then r
      else
        var t := r.found[k];
        Racing(if Live(r.st, t) then Rotated(r.st, ttl, t)
               else r.st.(tokens := RevokeFamily(r.st.tokens, t.family, t.tenant)), Drop(r.found, k))
  }

  function Turns(r: Racing, ttl: nat, acts: seq<Act>): Racing {
    if acts == [] then r else Turn(Turns(r, ttl, acts[..|acts| - 1]), ttl, acts[|acts| - 1])
  }

  // ---- What was found stays recognisable --------------------------------------------------

  /** The token was given out, and its row, if there still is one, differs at most in its marks. */
  ghost predicate Known(st: State, t: Token) {
    && t.hash < st.hashes && t.family < st.families
    && forall i | 0 <= i < |st.tokens| && st.tokens[i].hash == t.hash :: Kin(st.tokens[i], t)
  }

  ghost predicate AllKnown(r: Racing) {
    forall k | 0 <= k < |r.found| :: Known(r.st, r.found[k])
  }

  lemma StepKeepsKnown(st: State, ttl: nat, op: Op, t: Token)
    requires Known(st, t)
    ensures Known(Next(st, ttl, op), t)
  {
    StepOrigins(st, ttl, op);
    var after := Next(st, ttl, op);
    forall i | 0 <= i < |after.tokens| && after.tokens[i].hash == t.hash ensures Kin(after.tokens[i], t) {
      if HasOrigin(st, after.tokens[i]) {
        var j :| 0 <= j < |st.tokens| && Descends(st.tokens[j], after.tokens[i]);
      }
    }
  }

  lemma RotationKeepsKnown(st: State, ttl: nat, u: Token, t: Token)
    requires Known(st, t)
    ensures Known(Rotated(st, ttl, u), t)
  {
    var after := Rotated(st, ttl, u);
    forall i | 0 <= i < |after.tokens| && after.tokens[i].hash == t.hash ensures Kin(after.tokens[i], t) {
      if i < |st.tokens| {
        assert after.tokens[i].hash == st.tokens[i].hash && Kin(after.tokens[i], st.tokens[i]);
      }
    }
  }

  lemma RevocationKeepsKnown(st: State, family: nat, tenant: nat, t: Token)
    requires Known(st, t)
    ensures Known(st.(tokens := RevokeFamily(st.tokens, family, tenant)), t)
  {
  }

  lemma FoundIsKnown(st: State, hash: nat, userExists: bool)
    requires Inv(st) && Answer(st, Refresh(hash, userExists)).Issued?
    ensures Known(st, Find(st.tokens, hash).value)
  {
    var j := AcceptedRow(st, hash, userExists);
    forall i | 0 <= i < |st.tokens| && st.tokens[i].hash == hash ensures Kin(st.tokens[i], st.tokens[j]) {
      HashIsKey(st, st.tokens[i], st.tokens[j]);
    }
  }

  lemma TurnKeepsKnown(r: Racing, ttl: nat, a: Act)
    requires Inv(r.st) && AllKnown(r)
    ensures AllKnown(Turn(r, ttl, a))
  {
    hide Known, Next, Rotated, Inv, RevokeFamily, Live;
    var after := Turn(r, ttl, a);
    forall k | 0 <= k < |after.found| ensures Known(after.st, after.found[k]) {
      match a {
        case Whole(op) => StepKeepsKnown(r.st, ttl, op, r.found[k]);
        case Finds(hash, userExists) =>
          if Answer(r.st, Refresh(hash, userExists)).Issued? {
            FoundIsKnown(r.st, hash, userExists);
          } else {
            StepKeepsKnown(r.st, ttl, Refresh(hash, userExists), r.found[k]);
          }
        case Rotates(j) =>
          if j < |r.found| { RotationKeepsKnown(r.st, ttl, r.found[j], r.found[if k < j then k else k + 1]); }
        case RotatesIfLive(j) =>
          if j < |r.found| {
            RotationKeepsKnown(r.st, ttl, r.found[j], r.found[if k < j then k else k + 1]);
            RevocationKeepsKnown(r.st, r.found[j].family, r.found[j].tenant, r.found[if k < j then k else k + 1]);
          }
      }
    }
  }

  // ---- When a rotation keeps the chains ---------------------------------------------------

  /** The token found is the newest of its family, or the family has been purged. */
  predicate StillNewest(st: State, t: Token) {
    var ms := Members(st.tokens, t.family);
    ms == [] || ms[|ms| - 1].hash == t.hash
  }

  lemma RotatedMembers(st: State, ttl: nat, t: Token, f: nat)
    requires Inv(st) && Known(st, t)
    ensures var ms := Members(st.tokens, f);
            var marked := UpdateMany(ms, (u: Token) => u.hash == t.hash && u.tenant == t.tenant,
                                     (u: Token) => u.(revoked := true, replacedBy := Some(st.hashes)));
            Members(Rotated(st, ttl, t).tokens, f)
            == if f == t.family then marked + [Successor(t, st.hashes, st.clock + ttl)] else ms
  {
    var ms := Members(st.tokens, f);
    var matches := (u: Token) => u.hash == t.hash && u.tenant == t.tenant;
    var change := (u: Token) => u.(revoked := true, replacedBy := Some(st.hashes));
    MembersAppend(Replace(st.tokens, t, st.hashes), Successor(t, st.hashes, st.clock + ttl), f);
    MembersUpdate(st.tokens, matches, change, f);
    if f != t.family {
      MembersBelong(st.tokens, f);
      forall i | 0 <= i < |ms| ensures ms[i].hash != t.hash {
        assert ms[i] in ms && ms[i] in st.tokens;
      }
      assert UpdateMany(ms, matches, change) == ms;
    }
  }

  lemma MarkedChain(ms: seq<Token>, t: Token, newHash: nat, expiresAt: int)
    requires Chain(ms) && (forall i | 0 <= i < |ms| :: ms[i].hash < newHash && (ms[i].hash == t.hash ==> Kin(ms[i], t)))
    ensures var marked := UpdateMany(ms, (u: Token) => u.hash == t.hash && u.tenant == t.tenant,
                                     (u: Token) => u.(revoked := true, replacedBy := Some(newHash)));
            Chain(marked + [Successor(t, newHash, expiresAt)])
            <==> ms == [] || ms[|ms| - 1].hash == t.hash
  {
    var matches := (u: Token) => u.hash == t.hash && u.tenant == t.tenant;
    var change := (u: Token) => u.(revoked := true, replacedBy := Some(newHash));
    var marked := UpdateMany(ms, matches, change);
    var after := marked + [Successor(t, newHash, expiresAt)];
    if ms != [] {
      var n := |ms| - 1;
      assert after[n] == marked[n] && after[n + 1].hash == newHash;
      if ms[n].hash == t.hash {
        LastMarked(ms, t, newHash, expiresAt, marked);
      } else {
        assert after[n].replacedBy == None;
      }
    }
  }

  lemma LastMarked(ms: seq<Token>, t: Token, newHash: nat, expiresAt: int, marked: seq<Token>)
    requires Chain(ms) && ms != [] && ms[|ms| - 1].hash == t.hash && Kin(ms[|ms| - 1], t)
    requires forall i | 0 <= i < |ms| :: ms[i].hash < newHash
    requires marked == UpdateMany(ms, (u: Token) => u.hash == t.hash && u.tenant == t.tenant,
                                  (u: Token) => u.(revoked := true, replacedBy := Some(newHash)))
    ensures Chain(marked + [Successor(t, newHash, expiresAt)])
  {
    var last := ms[|ms| - 1];
    RotatedChain(ms, newHash, expiresAt);
    assert marked == ms[..|ms| - 1] + [last.(revoked := true, replacedBy := Some(newHash))];
    assert Successor(last, newHash, expiresAt) == Successor(t, newHash, expiresAt);
    assert marked + [Successor(t, newHash, expiresAt)]
           == ms[..|ms| - 1] + [last.(revoked := true, replacedBy := Some(newHash)), Successor(last, newHash, expiresAt)];
  }

  /** The exact condition: a rotation keeps every family one chain if and only if the token it found
      is still the newest of its family when it writes, or the family has been purged. */
  lemma RotationKeepsChainsIff(st: State, ttl: nat, t: Token)
    requires Inv(st) && Known(st, t)
    ensures Inv(Rotated(st, ttl, t)) <==> StillNewest(st, t)
  {
    hide Chain;
    var after := Rotated(st, ttl, t);
    var ms := Members(st.tokens, t.family);
    MembersBelong(st.tokens, t.family);
    forall i | 0 <= i < |ms| ensures ms[i].hash < st.hashes && (ms[i].hash == t.hash ==> Kin(ms[i], t)) {
      assert ms[i] in ms && ms[i] in st.tokens;
    }
    MarkedChain(ms, t, st.hashes, st.clock + ttl);
    RotatedRowsAscend(st, ttl, t);
    forall f: nat ensures f != t.family ==> Chain(Members(after.tokens, f)) { RotatedMembers(st, ttl, t, f); }
    RotatedMembers(st, ttl, t, t.family);
  }

  lemma RotatedRowsAscend(st: State, ttl: nat, t: Token)
    requires Inv(st) && t.family < st.families
    ensures var after := Rotated(st, ttl, t);
            && Ascending(after.tokens)
            && forall i | 0 <= i < |after.tokens| ::
                 after.tokens[i].hash < after.hashes && after.tokens[i].family < after.families
  {
    hide Chain;
  }

  // ---- Unguarded --------------------------------------------------------------------------

  /** Two refreshes of one token that both find it before either rotates are both accepted, and the
      family has two live tokens. */
  lemma InterleavedRefreshesFork(st: State, ttl: nat, hash: nat)
    requires Inv(st) && Answer(st, Refresh(hash, true)).Issued?
    ensures var t := Find(st.tokens, hash).value;
            var end := Rotated(Rotated(st, ttl, t), ttl, t);
            && Turn(Turn(Turn(Turn(Racing(st, []), ttl, Finds(hash, true)), ttl, Finds(hash, true)), ttl, Rotates(0)),
                    ttl, Rotates(0)) == Racing(end, [])
            && |end.tokens| == |st.tokens| + 2
            && (var a, b := end.tokens[|st.tokens|], end.tokens[|st.tokens| + 1];
                a.hash != b.hash && Kin(a, b) && !a.revoked && !b.revoked)
            && !Inv(end)
  {
    var t := Find(st.tokens, hash).value;
    var once := Rotated(st, ttl, t);
    var end := Rotated(once, ttl, t);
    var j := AcceptedRow(st, hash, true);
    var a, b := end.tokens[|st.tokens|], end.tokens[|st.tokens| + 1];
    assert once.tokens[|st.tokens|] == Successor(t, st.hashes, st.clock + ttl);
    assert once.tokens[|st.tokens|].hash != t.hash by { assert st.tokens[j].hash < st.hashes; }
    assert a in end.tokens && b in end.tokens;
    if Inv(end) { AtMostOneIsLive(end, a, b); }
    TwoTurns(st, ttl, t, hash);
  }

  lemma TwoTurns(st: State, ttl: nat, t: Token, hash: nat)
    requires Answer(st, Refresh(hash, true)).Issued? && t == Find(st.tokens, hash).value
    ensures Turn(Turn(Turn(Turn(Racing(st, []), ttl, Finds(hash, true)), ttl, Finds(hash, true)), ttl, Rotates(0)),
                 ttl, Rotates(0)) == Racing(Rotated(Rotated(st, ttl, t), ttl, t), [])
  {
    hide Rotated, Answer;
    var r := Turn(Turn(Racing(st, []), ttl, Finds(hash, true)), ttl, Finds(hash, true));
    assert r == Racing(st, [t, t]);
    assert Drop([t, t], 0) == [t] && Drop([t], 0) == [];
  }

  // ---- Guarded ----------------------------------------------------------------------------

  predicate Guarded(acts: seq<Act>) {
    forall i | 0 <= i < |acts| :: !acts[i].Rotates?
  }

  lemma LiveIsNewest(st: State, t: Token)
    requires Inv(st) && Known(st, t) && Live(st, t)
    ensures StillNewest(st, t)
  {
    var i :| 0 <= i < |st.tokens| && st.tokens[i].hash == t.hash && !st.tokens[i].revoked;
    assert Chain(Members(st.tokens, st.tokens[i].family));
    LiveIsLast(st.tokens, st.tokens[i]);
  }

  lemma GuardedTurnKeepsInv(r: Racing, ttl: nat, a: Act)
    requires Inv(r.st) && AllKnown(r) && !a.Rotates?
    ensures Inv(Turn(r, ttl, a).st)
  {
    hide Inv, Next, Rotated, Live, Known, RevokeFamily;
    match a {
      case Whole(op) => StepKeepsInv(r.st, ttl, op);
      case Finds(hash, userExists) => StepKeepsInv(r.st, ttl, Refresh(hash, userExists));
      case RotatesIfLive(k) =>
        if k < |r.found| {
          var t := r.found[k];
          RotationKeepsChainsIff(r.st, ttl, t);
          if Live(r.st, t) { LiveIsNewest(r.st, t); } else { RevokeFamilyKeepsInv(r.st, t); }
        }
    }
  }

  /** With rotations on condition that the row is still live, finds and rotations may interleave in
      any way, and every family is one chain in every reachable state. */
  lemma {:induction false} GuardedRunsKeepChains(ttl: nat, acts: seq<Act>)
    requires Guarded(acts)
    ensures Inv(Turns(Racing(START, []), ttl, acts).st) && AllKnown(Turns(Racing(START, []), ttl, acts))
  {
    hide Turn, Known;
    if acts == [] {
      RunKeepsChains(ttl, []);
    } else {
      var before, last := acts[..|acts| - 1], acts[|acts| - 1];
      assert Guarded(before) && !last.Rotates?;
      GuardedRunsKeepChains(ttl, before);
      var r := Turns(Racing(START, []), ttl, before);
      GuardedTurnKeepsInv(r, ttl, last);
      TurnKeepsKnown(r, ttl, last);
    }
  }

  lemma RotationSpends(st: State, ttl: nat, t: Token)
    requires Known(st, t)
    ensures Spent(Rotated(st, ttl, t), t.hash)
  {
    var after := Rotated(st, ttl, t);
    forall i | 0 <= i < |after.tokens| && after.tokens[i].hash == t.hash ensures after.tokens[i].revoked {
      if i < |st.tokens| { assert st.tokens[i].hash == t.hash; }
    }
  }

  lemma RotationKeepsSpent(st: State, ttl: nat, t: Token, hash: nat)
    requires Spent(st, hash)
    ensures Spent(Rotated(st, ttl, t), hash)
  {
    var after := Rotated(st, ttl, t);
    forall i | 0 <= i < |after.tokens| && after.tokens[i].hash == hash ensures after.tokens[i].revoked {
      if i < |st.tokens| { assert st.tokens[i].hash == hash; }
    }
  }

  lemma TurnKeepsSpent(r: Racing, ttl: nat, a: Act, hash: nat)
    requires Spent(r.st, hash)
    ensures Spent(Turn(r, ttl, a).st, hash)
  {
    hide Next, Rotated;
    match a {
      case Whole(op) => StepKeepsSpent(r.st, ttl, op, hash);
      case Finds(h, userExists) => StepKeepsSpent(r.st, ttl, Refresh(h, userExists), hash);
      case Rotates(k) => if k < |r.found| { RotationKeepsSpent(r.st, ttl, r.found[k], hash); }
      case RotatesIfLive(k) => if k < |r.found| { RotationKeepsSpent(r.st, ttl, r.found[k], hash); }
    }
  }

  lemma {:induction false} TurnsKeepSpent(r: Racing, ttl: nat, acts: seq<Act>, hash: nat)
    requires Spent(r.st, hash)
    ensures Spent(Turns(r, ttl, acts).st, hash)
  {
    hide Turn, Spent;
    if acts == [] {
    } else {
      TurnsKeepSpent(r, ttl, acts[..|acts| - 1], hash);
      TurnKeepsSpent(Turns(r, ttl, acts[..|acts| - 1]), ttl, acts[|acts| - 1], hash);
    }
  }

  /** Under the guard a token is rotated once, however the refreshes interleave: after one rotation
      of it no row of it is ever live again, so the guard stops every other. */
  lemma GuardedTokensRotateOnce(ttl: nat, before: seq<Act>, k: nat, after: seq<Act>)
    requires Guarded(before) && k < |Turns(Racing(START, []), ttl, before).found|
    requires var r := Turns(Racing(START, []), ttl, before); Live(r.st, r.found[k])
    ensures var r := Turns(Racing(START, []), ttl, before);
            !Live(Turns(Turn(r, ttl, RotatesIfLive(k)), ttl, after).st, r.found[k])
  {
    hide Known, Turns, Rotated, Inv;
    var r := Turns(Racing(START, []), ttl, before);
    GuardedRunsKeepChains(ttl, before);
    assert Known(r.st, r.found[k]);
    RotationSpends(r.st, ttl, r.found[k]);
    TurnsKeepSpent(Turn(r, ttl, RotatesIfLive(k)), ttl, after, r.found[k].hash);
  }
}
