/** When a hit is the current balance, and what each proviso is for. */
module CacheFreshness {
  import opened Options
  import opened LedgerDb
  import opened Settlement
  import opened StepFacts
  import opened BalanceCache

  ghost predicate Cleared(uncleared: set<(nat, Key)>, key: Key) {
    forall i: nat :: (i, key) !in uncleared
  }

  ghost predicate FreshCache(c: World) {
    forall key: Key | key in c.cache && Cleared(c.uncleared, key) :: c.cache[key].credits.amount - c.cache[key].debits.amount == Balance(c, key)
  }

  predicate NoSplitFill(e: Event) {
    !e.FillReadsCredits? && !e.FillReadsDebits? && !e.FillStores?
  }

  predicate NoTopUp(e: Event) {
    e.Settle? && e.step.Api? ==> !e.step.db.TopUp?
  }

  lemma AppendedPair(db: Db, tenant: nat, p: Payload, key: Key)
    ensures ComputeBalance(AppendPair(db, tenant, p), Some(key.tenant), key.wallet)
            == ComputeBalance(db, Some(key.tenant), key.wallet)
               + (if key == Key(tenant, p.order.walletTo) then p.order.toAmount else 0)
               - (if key == Key(tenant, p.order.walletFrom) then p.order.fromAmount else 0)
  {
    PairMovesBalances(db, Some(key.tenant), tenant, p, key.wallet);
  }

  lemma EventKeepsFresh(c: World, e: Event)
    requires FreshCache(c) && NoSplitFill(e) && NoTopUp(e)
    ensures FreshCache(Happen(c, e))
  {
    var d := Happen(c, e);
    forall key: Key | key in d.cache && Cleared(d.uncleared, key) 
      ensures d.cache[key].credits.amount - d.cache[key].debits.amount == Balance(d, key)
    {
      match e {
        case Settle(step) =>
          JournalChange(c.ledger, step);
          forall i: nat ensures (i, key) !in c.uncleared { assert (i, key) !in d.uncleared; }
          if WritesPair(c.ledger, step) {
            var m := c.ledger.tokens[step.i].msg;
            assert (step.i, key) !in d.uncleared;
            AppendedPair(c.ledger.db, m.tenant, m.payload, key);
          }
        case DeleteDebited(i) =>
          if At(c.ledger, i, Handling(Stamped)) { ClearedBefore(c.uncleared, i, DebitedKey(c.ledger.tokens[i].msg), key); }
        case DeleteCredited(i) =>
          if At(c.ledger, i, Handling(Stamped)) { ClearedBefore(c.uncleared, i, CreditedKey(c.ledger.tokens[i].msg), key); }
        case _ =>
      }
    }
  }

  lemma ClearedBefore(before: set<(nat, Key)>, i: nat, gone: Key, key: Key)
    requires Cleared(before - {(i, gone)}, key) && key != gone
    ensures Cleared(before, key)
  {
    forall j: nat ensures (j, key) !in before { assert (j, key) !in before - {(i, gone)}; }
  }

  /** The two deletes of a handling take out both wallets' balances, and only these; an eviction takes
      out one. Whoever asks next reads the journal. */
  lemma DeletedKeysMiss(c: World, i: nat, key: Key)
    requires At(c.ledger, i, Handling(Stamped))
    ensures var m, d := c.ledger.tokens[i].msg, Happen(Happen(c, DeleteDebited(i)), DeleteCredited(i));
            var from, to := Key(m.tenant, m.payload.order.walletFrom), Key(m.tenant, m.payload.order.walletTo);
            && d == c.(cache := c.cache - {from, to}, uncleared := c.uncleared - {(i, from), (i, to)}, age := c.age + 2)
            && Lookup(d, from).None? && Lookup(d, to).None?
            && (key != from && key != to ==> Lookup(d, key) == Lookup(c, key))
    ensures var d := Happen(c, Evict(key));
            Lookup(d, key).None? && d == c.(cache := c.cache - {key}, age := c.age + 1)
  {
    var m := c.ledger.tokens[i].msg;
    var from, to := DebitedKey(m), CreditedKey(m);
    assert c.cache - {from} - {to} == c.cache - {from, to};
    assert c.uncleared - {(i, from)} - {(i, to)} == c.uncleared - {(i, from), (i, to)};
  }

  /** Without top-ups and with fills that nothing interleaves, a hit is the current balance
      whenever no settlement of the wallet is between its pair write and its delete. */
  lemma {:induction false} HitsAreCurrent(events: seq<Event>, key: Key)
    requires forall i | 0 <= i < |events| :: NoSplitFill(events[i]) && NoTopUp(events[i])
    ensures FreshCache(History(events))
    ensures var c := History(events);
            Cleared(c.uncleared, key) && Lookup(c, key).Some? ==> Lookup(c, key).value == Balance(c, key)
  {
    if events == [] {
    } else {
      var n := |events| - 1;
      HitsAreCurrent(events[..n], key);
      EventKeepsFresh(History(events[..n]), events[n]);
    }
  }

  /** Both provisos matter. A top-up deletes no key, so a balance cached before it stays. */
  lemma TopUpsGoStale(c: World, key: Key, amount: nat)
    requires Cleared(c.uncleared, key) && Lookup(c, key).None? && key.wallet != SYSTEM_WALLET
    requires key.wallet < |c.ledger.db.wallets| && c.ledger.db.wallets[key.wallet].tenant == key.tenant
    ensures var end := Happen(Happen(c, FillAtOnce(key)), Settle(Api(TopUp(key.wallet, amount))));
            Cleared(end.uncleared, key) && Lookup(end, key) == Some(Balance(end, key) - amount)
  {
    var db := c.ledger.db;
    var o := TopUpOrder(db, key.wallet, amount);
    AppendedPair(db.(transfers := db.transfers + [Transfer(o, COMPLETED)]), o.tenant, Payload(|db.transfers|, o), key);
  }

  // ---- A fill around a settlement ---------------------------------------------------------

  /** The fill has read both sums and the settlement is yet to write its pair. */
  predicate HasRead(c: World, key: Key, balance: int) {
    && |c.fills| == 1 && c.fills[0].key == key && Complete(c, 0)
    && c.fills[0].credits.value.amount - c.fills[0].debits.value.amount == balance
  }

  /** A fill that reads before a pair is written and stores after the key is deleted leaves a
      balance that the journal no longer gives, with nothing uncleared. */
  lemma SplitFillsGoStale(c: World, i: nat, key: Key)
    requires At(c.ledger, i, Handling(Received)) && Cleared(c.uncleared, key) && HasRead(c, key, Balance(c, key))
    requires var m := c.ledger.tokens[i].msg;
             PairFits(c.ledger.db, m.tenant, m.payload) && key == DebitedKey(m) && key != CreditedKey(m)
             && m.payload.order.fromAmount > 0
    ensures var stamped := Happen(Happen(c, Settle(WritePair(i))), Settle(Stamp(i)));
            var end := Happen(Happen(stamped, DeleteDebited(i)), FillStores(0));
            Cleared(end.uncleared, key)
            && Lookup(end, key) == Some(Balance(end, key) + c.ledger.tokens[i].msg.payload.order.fromAmount)
  {
    hide Happen, Balance;
    var m := c.ledger.tokens[i].msg;
    var written := Happen(c, Settle(WritePair(i)));
    PairIsWritten(c, i, key);
    var stamped := Happen(written, Settle(Stamp(i)));
    PairIsStamped(written, i, key);
    StaysCleared(c.uncleared, (i, CreditedKey(m)), (i, key), key);
    DeletedThenStored(stamped, i, key, Balance(c, key));
  }

  lemma DeletedThenStored(c: World, i: nat, key: Key, balance: int)
    requires At(c.ledger, i, Handling(Stamped)) && key == DebitedKey(c.ledger.tokens[i].msg)
    requires HasRead(c, key, balance) && Cleared(c.uncleared - {(i, key)}, key)
    ensures var d := Happen(Happen(c, DeleteDebited(i)), FillStores(0));
            Cleared(d.uncleared, key) && Lookup(d, key) == Some(balance) && Balance(d, key) == Balance(c, key)
  {
  }

  lemma StaysCleared(before: set<(nat, Key)>, other: (nat, Key), gone: (nat, Key), key: Key)
    requires Cleared(before, key) && other.1 != key && gone.1 == key
    ensures Cleared(before + {gone, other} - {gone}, key)
  {
  }

  lemma PairIsWritten(c: World, i: nat, key: Key)
    requires At(c.ledger, i, Handling(Received))
    requires var m := c.ledger.tokens[i].msg;
             PairFits(c.ledger.db, m.tenant, m.payload) && key == DebitedKey(m) && key != CreditedKey(m)
    ensures var m, d := c.ledger.tokens[i].msg, Happen(c, Settle(WritePair(i)));
            && At(d.ledger, i, Handling(PairWritten)) && d.ledger.tokens[i].msg == m
            && Balance(d, key) == Balance(c, key) - m.payload.order.fromAmount
            && d.fills == c.fills && d.uncleared == c.uncleared + {(i, key), (i, CreditedKey(m))}
  {
    var m := c.ledger.tokens[i].msg;
    WritePairIs(c.ledger, i);
    AppendedPair(c.ledger.db, m.tenant, m.payload, key);
  }

  lemma PairIsStamped(c: World, i: nat, key: Key)
    requires At(c.ledger, i, Handling(PairWritten))
    ensures var d := Happen(c, Settle(Stamp(i)));
            && At(d.ledger, i, Handling(Stamped)) && d.ledger.tokens[i].msg == c.ledger.tokens[i].msg
            && Balance(d, key) == Balance(c, key) && d.fills == c.fills && d.uncleared == c.uncleared
  {
    StampIs(c.ledger, i);
  }
}
