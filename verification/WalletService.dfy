/** getBalance: the cache in front of the derived balance. */
module WalletService {
  import opened Options
  import Money
  import opened LedgerDb
  import opened Settlement
  import opened Store
  import opened BalanceCache

  datatype BalanceResult =
    | Found(balance: Money.Dec, currency: Money.Currency, cached: bool)
    | WalletNotFound

  /** What the cache really holds. */
  datatype Stored = Stored(balance: int, storedAt: int)

  class WalletService {
    const store: Store
    var entries: map<Key, Stored>
    ghost var cache: map<Key, Cached>  // the same, with the readings behind each balance

    ghost predicate Valid()
      reads this
    {
      && entries.Keys == cache.Keys
      && forall key: Key | key in cache ::
           entries[key] == Stored(cache[key].credits.amount - cache[key].debits.amount, cache[key].storedAt)
    }

    constructor (store: Store)
      ensures Valid() && this.store == store && cache == map[]
    {
      this.store := store;
      this.entries, this.cache := map[], map[];
    }

    /** The world that agrees with w but for the ledger's tables and the cache, which are ours. */
    ghost function View(w: World): World
      reads this, store
    {
      w.(ledger := store.View(w.ledger.worker, w.ledger.replays), cache := cache)
    }

    /** One call that nothing interleaves. `owned` is whether the wallet is the caller's; the
        answer is the cached balance if there is one, the journal's otherwise, and afterwards
        the cache holds what was answered. */
    method GetBalance(key: Key, owned: bool, now: int, ghost w: World) returns (r: BalanceResult)
      requires Valid() && w == View(w) && w.clock == now
      requires owned ==> key.wallet < |store.wallets|
      modifies this`entries, this`cache
      ensures Valid()
      ensures !owned ==> r == WalletNotFound && cache == old(cache) && entries == old(entries)
      ensures owned ==>
        var hit := key in old(entries) && now <= old(entries)[key].storedAt + 60_000;
        var balance := if hit then old(entries)[key].balance
                       else ComputeBalance(store.Rows(), Some(key.tenant), key.wallet);
        var currency := store.wallets[key.wallet].currency;
        && r == Found(Money.FromSmallestUnit(balance, currency), currency, hit)
        && entries == if hit then old(entries) else old(entries)[key := Stored(balance, now)]
      ensures owned ==>
        && r.Found? && r.cached == Hits(w, FillAtOnce(key))
        && View(w) == Effect(w, FillAtOnce(key))
        && Served(w, FillAtOnce(key)).Some?
        && r.balance == Money.FromSmallestUnit(Served(w, FillAtOnce(key)).value.1, r.currency)
    {
      if !owned { return WalletNotFound; }
      var currency := store.wallets[key.wallet].currency;
      if key in entries && now <= entries[key].storedAt + BALANCE_TTL_MS {
        return Found(Money.FromSmallestUnit(entries[key].balance, currency), currency, true);
      }
      var db := Db(store.wallets, store.transfers, store.journal, store.outbox, store.locks);
      var credits := Credits(db, Some(key.tenant), key.wallet);
      var debits := Debits(db, Some(key.tenant), key.wallet);
      var rawBalance := credits - debits;
      entries := entries[key := Stored(rawBalance, now)];
      cache := cache[key := Cached(Reading(credits, w.age), Reading(debits, w.age), now)];
      return Found(Money.FromSmallestUnit(rawBalance, currency), currency, false);
    }
  }
}
