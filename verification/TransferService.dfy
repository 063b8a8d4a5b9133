/** createTransfer: the checks and the pricing in front of the transfer-creating transaction. */
module TransferService {
  import opened Options
  import Money
  import opened LedgerDb
  import opened Settlement
  import opened Store

  /** The rate table; a missing pair trades at 1. */
  type Rates = map<(Money.Currency, Money.Currency), Money.Dec>

  datatype Refusal =
    | AmountNotPositive
    | SameWallet
    | UnknownSource
    | UnknownTarget
    | BadConversion(error: Money.Error)
    | InsufficientFunds
    | DuplicateIdempotencyKey
    | InternalError  // the row does not fit the 64-bit columns

  datatype CreateResult = Created(id: nat) | Refused(reason: Refusal)

  datatype Pricing = Priced(order: Order) | Unpriced(reason: Refusal)

  function GetRate(rates: Rates, source: Money.Currency, target: Money.Currency): Money.Dec {
    if source == target then Money.ONE
    else if (source, target) in rates then rates[(source, target)] else Money.ONE
  }

  /** Wallets are looked up within the caller's tenant. */
  predicate Owns(db: Db, tenant: nat, w: nat) {
    w < |db.wallets| && db.wallets[w].tenant == tenant
  }

  function ToOrder(tenant: nat, source: nat, target: nat, amount: int, received: int,
                   from: Money.Currency, to: Money.Currency, rate: Money.Dec): Order {
    Order(tenant, source, target, Money.Abs(amount), Money.Abs(received), from, to, rate)
  }

  function PriceOrder(db: Db, rates: Rates, tenant: nat, source: nat, target: nat, amount: Money.Dec): Pricing {
    if amount.coef <= 0 then Unpriced(AmountNotPositive)
    else if source == target then Unpriced(SameWallet)
    else if !Owns(db, tenant, source) then Unpriced(UnknownSource)
    else if !Owns(db, tenant, target) then Unpriced(UnknownTarget)
    else
      var from, to := db.wallets[source].currency, db.wallets[target].currency;
      var rate := GetRate(rates, from, to);
      match Money.ToSmallestUnit(amount, from)
      case Err(e) => Unpriced(BadConversion(e))
      case Ok(sent) =>
        match Money.ConvertWithFxRate(sent, Money.Finite(rate), from, to)
        case Err(e) => Unpriced(BadConversion(e))
        case Ok(received) => Priced(ToOrder(tenant, source, target, sent, received, from, to, rate))
  }

  lemma SmallestUnitsAreNatural(amount: Money.Dec, c: Money.Currency)
    requires amount.coef > 0 && Money.ToSmallestUnit(amount, c).Ok?
    ensures Money.ToSmallestUnit(amount, c).value >= 0
  {
    Money.MulKeepsSign(amount, Money.Dec(1, Money.Decimals(c)));
    Money.ToIntegerKeepsSign(Money.Mul(amount, Money.Dec(1, Money.Decimals(c))));
  }

  lemma ConversionsAreNatural(sent: nat, rate: Money.Dec, from: Money.Currency, to: Money.Currency)
    requires Money.ConvertWithFxRate(sent, Money.Finite(rate), from, to).Ok?
    ensures Money.ConvertWithFxRate(sent, Money.Finite(rate), from, to).value >= 0
  {
    var diff := Money.Decimals(to) - Money.Decimals(from);
    var product := Money.Mul(Money.Dec(sent, 0), rate);
    Money.MulKeepsSign(Money.Dec(sent, 0), rate);
    Money.MulKeepsSign(product, Money.Dec(1, diff));
    Money.ToIntegerKeepsSign(Money.Mul(product, Money.Dec(1, diff)));
  }

  lemma EqualCurrenciesTradeAtPar(sent: int, c: Money.Currency)
    requires Money.Abs(sent) < Money.AMOUNT_BOUND
    ensures Money.ConvertWithFxRate(sent, Money.Finite(Money.ONE), c, c) == Money.Ok(sent)
  {
    assert Money.Pow10(0) == 1;
    Money.ConversionAtOneIsIdentity(sent, 0, c, c);
  }

  /** What a price commits to: it is for the wallets asked for, at the table's rate, with the
      converted amounts, unchanged between equal currencies; so what is submitted is an order
      between two of the caller's own wallets. */
  lemma PricedOrdersAreSubmittable(db: Db, rates: Rates, tenant: nat, source: nat, target: nat, amount: Money.Dec)
    requires PriceOrder(db, rates, tenant, source, target, amount).Priced?
    ensures var o := PriceOrder(db, rates, tenant, source, target, amount).order;
            && o.tenant == tenant && o.walletFrom == source && o.walletTo == target
            && Money.ToSmallestUnit(amount, o.fromCurrency) == Money.Ok(o.fromAmount)
            && Money.ConvertWithFxRate(o.fromAmount, Money.Finite(o.fxRate), o.fromCurrency, o.toCurrency)
               == Money.Ok(o.toAmount)
            && o.fxRate == (if o.fromCurrency != o.toCurrency && (o.fromCurrency, o.toCurrency) in rates
                            then rates[(o.fromCurrency, o.toCurrency)] else Money.ONE)
            && Submitted(db, o)
  {
    var from, to := db.wallets[source].currency, db.wallets[target].currency;
    var rate := GetRate(rates, from, to);
    var sent := Money.ToSmallestUnit(amount, from);
    SmallestUnitsAreNatural(amount, from);
    SmallestUnitsAreBounded(amount, from);
    var received := Money.ConvertWithFxRate(sent.value, Money.Finite(rate), from, to);
    ConversionsAreNatural(sent.value, rate, from, to);
    if from == to { EqualCurrenciesTradeAtPar(sent.value, from); }
  }

  /** Which requests have a price: for an amount of at most 40 digits between two different wallets
      of the caller, at a rate of at most 18 digits, exactly those whose nearest number of smallest
      units and whose exact value at the rate, rounded once, stay below 10^21. */
  lemma PricedIffRepresentable(db: Db, rates: Rates, tenant: nat, source: nat, target: nat, amount: Money.Dec)
    requires 0 < amount.coef < Money.PRECISION_BOUND && source != target
    requires Owns(db, tenant, source) && Owns(db, tenant, target)
    requires 0 < GetRate(rates, db.wallets[source].currency, db.wallets[target].currency).coef < Money.RATE_COEF_BOUND
    ensures var from, to := db.wallets[source].currency, db.wallets[target].currency;
            var pricing := PriceOrder(db, rates, tenant, source, target, amount);
            && (pricing.Priced? <==>
                  exists sent: int, received: int ::
                    && Money.AreSmallestUnits(sent, amount, from) && Money.Abs(sent) < Money.EXPONENT_NOTATION
                    && Money.IsConverted(received, sent, GetRate(rates, from, to), from, to)
                    && Money.Abs(received) < Money.EXPONENT_NOTATION)
            && (pricing.Unpriced? ==> pricing.reason == BadConversion(Money.NotAnInteger))
  {
    hide Money.ToSmallestUnit, Money.ConvertWithFxRate, Money.AreSmallestUnits, Money.IsConverted;
    var from, to := db.wallets[source].currency, db.wallets[target].currency;
    var rate, sent := GetRate(rates, from, to), Money.ToSmallestUnit(amount, from);
    Money.SmallestUnitRoundsOnce(amount, from);
    if sent.Ok? {
      Money.BoundedOperandsFit(sent.value, rate);
      Money.ConversionRoundsOnce(sent.value, rate, from, to);
    }
    forall x, y | Money.AreSmallestUnits(x, amount, from) && Money.AreSmallestUnits(y, amount, from) ensures x == y {
      Money.SmallestUnitsAreUnique(x, y, amount, from);
    }
    forall z, x, y | Money.IsConverted(x, z, rate, from, to) && Money.IsConverted(y, z, rate, from, to) ensures x == y {
      Money.ConversionIsUnique(x, y, z, rate, from, to);
    }
  }

  lemma SmallestUnitsAreBounded(amount: Money.Dec, c: Money.Currency)
    requires Money.ToSmallestUnit(amount, c).Ok?
    ensures Money.Abs(Money.ToSmallestUnit(amount, c).value) < Money.AMOUNT_BOUND
  {
  }

  class TransferService {
    const store: Store
    const rates: Rates

    constructor (store: Store, rates: Rates)
      ensures this.store == store && this.rates == rates
    {
      this.store := store;
      this.rates := rates;
    }

    /** A request is refused without a trace, or it is the machine's Create of its priced order,
        taking effect, and its idempotency key, if it has one, was free and is the transfer's now. */
    method CreateTransfer(tenant: nat, source: nat, target: nat, amount: Money.Dec, key: Option<nat>)
      returns (r: CreateResult)
      requires source !in store.locks
      modifies store`transfers, store`outbox, store`keys
      ensures r == Refused(AmountNotPositive) <==> amount.coef <= 0
      ensures r == Refused(SameWallet) <==> amount.coef > 0 && source == target
      ensures r == Refused(UnknownSource) <==>
                amount.coef > 0 && source != target
                && (source >= |store.wallets| || store.wallets[source].tenant != tenant)
      ensures r == Refused(UnknownTarget) <==>
                amount.coef > 0 && source != target
                && source < |store.wallets| && store.wallets[source].tenant == tenant
                && (target >= |store.wallets| || store.wallets[target].tenant != tenant)
      ensures var db := old(store.Rows());
              match PriceOrder(db, rates, tenant, source, target, amount)
              case Unpriced(reason) => r == Refused(reason)
              case Priced(o) =>
                && (r.Created? ==>
                      && Creates(db, o) && store.Rows() == Apply(db, Create(o))
                      && store.transfers == db.transfers + [Transfer(o, INITIATED)]
                      && store.outbox == db.outbox + [OutboxRow(Payload(|db.transfers|, o), PENDING, 0)])
                && r == if ComputeBalance(db, Some(tenant), source) - ComputePendingOutgoing(db, Some(tenant), source)
                           < o.fromAmount
                        then Refused(InsufficientFunds)
                        else if o.fromAmount >= 0x8000_0000_0000_0000 || o.toAmount >= 0x8000_0000_0000_0000
                        then Refused(InternalError)
                        else if key.Some? && key.value in old(store.keys) then Refused(DuplicateIdempotencyKey)
                        else Created(|db.transfers|)
      ensures r.Refused? ==> store.Rows() == old(store.Rows())
      ensures store.keys == if r.Created? && key.Some? then old(store.keys)[key.value := r.id] else old(store.keys)
    {
      var db := Db(store.wallets, store.transfers, store.journal, store.outbox, store.locks);
      var pricing := PriceOrder(db, rates, tenant, source, target, amount);
      if pricing.Unpriced? { return Refused(pricing.reason); }
      var o := pricing.order;
      PricedOrdersAreSubmittable(db, rates, tenant, source, target, amount);
      var inserted := store.CreateWithOutbox(o, key);
      match inserted
      case Inserted(id) => r := Created(id);
      case Insufficient => r := Refused(InsufficientFunds);
      case InsertFailed => r := Refused(InternalError);
      case KeyTaken => r := Refused(DuplicateIdempotencyKey);
    }
  }
}
