/** The journal says no more and no less than which transfers are posted. */
module DoubleEntry {
  import opened Options
  import opened Sums
  import opened LedgerDb
  import Money

  ghost function RowsSumAt(journal: seq<Entry>, g: Entry -> int): nat -> int {
    (t: nat) => SeqSum(RowsOf(journal, t), g)
  }

  /** Adding up the journal row by row or transfer by transfer is the same. */
  lemma {:induction false} SumByTransfer(journal: seq<Entry>, n: nat, g: Entry -> int)
    requires forall i | 0 <= i < |journal| :: journal[i].transferId < n
    ensures SeqSum(journal, g) == Sum(n, RowsSumAt(journal, g))
  {
    if journal == [] {
      ZeroSum(n, RowsSumAt(journal, g));
    } else {
      var k := |journal| - 1;
      var e, init := journal[k], journal[..k];
      SumByTransfer(init, n, g);
      forall t: nat ensures RowsSumAt(journal, g)(t)
                            == RowsSumAt(init, g)(t) + if t == e.transferId then g(e) else 0 {
        RowsAppend(init, e, t);
        assert journal == init + [e];
        SeqSumAppend(RowsOf(init, t), e, g);
        assert RowsOf(init, t) + [] == RowsOf(init, t);
      }
      SumBump(n, RowsSumAt(init, g), RowsSumAt(journal, g), e.transferId);
    }
  }

  ghost function PairWeightAt(db: Db, g: Entry -> int): nat -> int {
    (t: nat) => if t < |db.transfers| && Posted(db, t) then g(PairOf(db, t)[0]) + g(PairOf(db, t)[1]) else 0
  }

  /** Any additive figure of the journal is a sum over the posted transfers alone. */
  lemma JournalIsPostedPairs(db: Db, g: Entry -> int)
    requires Sound(db)
    ensures SeqSum(db.journal, g) == Sum(|db.transfers|, PairWeightAt(db, g))
  {
    SumByTransfer(db.journal, |db.transfers|, g);
    forall t: nat | t < |db.transfers| ensures RowsSumAt(db.journal, g)(t) == PairWeightAt(db, g)(t) {
      assert SoundTransfer(db, t);
      RowsAreMembers(db.journal, t);
      if Posted(db, t) { PairSum(PairOf(db, t)[0], PairOf(db, t)[1], g); }
    }
    SumSame(|db.transfers|, RowsSumAt(db.journal, g), PairWeightAt(db, g));
  }

  lemma PairSum(a: Entry, b: Entry, g: Entry -> int)
    ensures SeqSum([a, b], g) == g(a) + g(b)
  {
    assert [a, b] == [a] + [b] && [a] == [] + [a];
    SeqSumAppend([a], b, g);
    SeqSumAppend([], a, g);
  }

  ghost function NetInflowAt(db: Db, w: nat): nat -> int {
    (t: nat) =>
      if t < |db.transfers| && Posted(db, t) then
        (if db.transfers[t].order.walletTo == w then db.transfers[t].order.toAmount else 0)
        - (if db.transfers[t].order.walletFrom == w then db.transfers[t].order.fromAmount else 0)
      else 0
  }

  ghost function Signed(w: nat): Entry -> int {
    (e: Entry) => if e.walletId != w then 0 else if e.kind == CREDIT then e.amount else 0 - e.amount
  }

  lemma {:induction false} SeqSumDifference(s: seq<Entry>, f: Entry -> int, g: Entry -> int, h: Entry -> int)
    requires forall e | e in s :: f(e) == g(e) - h(e)
    ensures SeqSum(s, f) == SeqSum(s, g) - SeqSum(s, h)
  {
    if s == [] {
    } else {
      SeqSumDifference(s[..|s| - 1], f, g, h);
    }
  }

  /** A derived balance is what posted transfers brought in less what they took out. */
  lemma BalanceIsPostedInflow(db: Db, w: nat)
    requires Sound(db)
    ensures ComputeBalance(db, None, w) == Sum(|db.transfers|, NetInflowAt(db, w))
  {
    SeqSumDifference(db.journal, Signed(w), EntryAmount(None, w, CREDIT), EntryAmount(None, w, DEBIT));
    JournalIsPostedPairs(db, Signed(w));
    forall t: nat | t < |db.transfers| ensures PairWeightAt(db, Signed(w))(t) == NetInflowAt(db, w)(t) {
      assert Signed(w)(PairOf(db, t)[0]) == if db.transfers[t].order.walletFrom == w then 0 - db.transfers[t].order.fromAmount else 0;
    }
    SumSame(|db.transfers|, PairWeightAt(db, Signed(w)), NetInflowAt(db, w));
  }

  // ---- The order of postings does not matter ----------------------------------------------

  ghost function Is(x: Entry): Entry -> int {
    (e: Entry) => if e == x then 1 else 0
  }

  lemma {:induction false} CountIsSum(s: seq<Entry>, x: Entry)
    ensures multiset(s)[x] == SeqSum(s, Is(x))
  {
    if s == [] {
    } else {
      var n := |s| - 1;
      assert s == s[..n] + [s[n]];
      CountIsSum(s[..n], x);
    }
  }

  ghost predicate SamePostings(a: Db, b: Db) {
    && |a.transfers| == |b.transfers|
    && forall t: nat | t < |a.transfers| ::
         a.transfers[t].order == b.transfers[t].order && (Posted(a, t) <==> Posted(b, t))
  }

  /** Two journals over the same transfers with the same ones posted hold the same rows. */
  lemma PostingOrderIsIrrelevant(a: Db, b: Db)
    requires Sound(a) && Sound(b) && SamePostings(a, b)
    ensures multiset(a.journal) == multiset(b.journal)
    ensures forall w: nat :: ComputeBalance(a, None, w) == ComputeBalance(b, None, w)
  {
    forall x ensures multiset(a.journal)[x] == multiset(b.journal)[x] { SameCount(a, b, x); }
    forall w: nat ensures ComputeBalance(a, None, w) == ComputeBalance(b, None, w) { SameBalance(a, b, w); }
  }

  lemma SameCount(a: Db, b: Db, x: Entry)
    requires Sound(a) && Sound(b) && SamePostings(a, b)
    ensures multiset(a.journal)[x] == multiset(b.journal)[x]
  {
    CountIsSum(a.journal, x);
    CountIsSum(b.journal, x);
    JournalIsPostedPairs(a, Is(x));
    JournalIsPostedPairs(b, Is(x));
    forall t: nat | t < |a.transfers| ensures PairWeightAt(a, Is(x))(t) == PairWeightAt(b, Is(x))(t) {
      assert a.transfers[t].order == b.transfers[t].order && (Posted(a, t) <==> Posted(b, t));
      assert PairOf(a, t)[0] == PairOf(b, t)[0] && PairOf(a, t)[1] == PairOf(b, t)[1];
    }
    SumSame(|a.transfers|, PairWeightAt(a, Is(x)), PairWeightAt(b, Is(x)));
  }

  lemma SameBalance(a: Db, b: Db, w: nat)
    requires Sound(a) && Sound(b) && SamePostings(a, b)
    ensures ComputeBalance(a, None, w) == ComputeBalance(b, None, w)
  {
    BalanceIsPostedInflow(a, w);
    BalanceIsPostedInflow(b, w);
    forall t: nat | t < |a.transfers| ensures NetInflowAt(a, w)(t) == NetInflowAt(b, w)(t) {
      assert a.transfers[t].order == b.transfers[t].order && (Posted(a, t) <==> Posted(b, t));
    }
    SumSame(|a.transfers|, NetInflowAt(a, w), NetInflowAt(b, w));
  }

  // ---- Conservation per currency ----------------------------------------------------------

  /** Credits count for, debits against, in one currency, over all wallets. */
  ghost function InCurrency(c: Money.Currency): Entry -> int {
    (e: Entry) => if e.currency != c then 0 else if e.kind == CREDIT then e.amount else 0 - e.amount
  }

  ghost function NetIssueAt(db: Db, c: Money.Currency): nat -> int {
    (t: nat) =>
      if t < |db.transfers| && Posted(db, t) then
        (if db.transfers[t].order.toCurrency == c then db.transfers[t].order.toAmount else 0)
        - (if db.transfers[t].order.fromCurrency == c then db.transfers[t].order.fromAmount else 0)
      else 0
  }

  ghost predicate ExchangesNone(db: Db, c: Money.Currency) {
    forall t: nat | t < |db.transfers| && Posted(db, t) ::
      db.transfers[t].order.fromCurrency == c <==> db.transfers[t].order.toCurrency == c
  }

  /** All credits less all debits of a currency are what exchanges issued in it; without an
      exchange the currency nets to zero. */
  lemma CurrencyIsConserved(db: Db, c: Money.Currency)
    requires Sound(db)
    ensures SeqSum(db.journal, InCurrency(c)) == Sum(|db.transfers|, NetIssueAt(db, c))
    ensures ExchangesNone(db, c) ==> SeqSum(db.journal, InCurrency(c)) == 0
  {
    JournalIsPostedPairs(db, InCurrency(c));
    forall t: nat | t < |db.transfers| ensures PairWeightAt(db, InCurrency(c))(t) == NetIssueAt(db, c)(t) {
      assert InCurrency(c)(PairOf(db, t)[0])
             == if db.transfers[t].order.fromCurrency == c then 0 - db.transfers[t].order.fromAmount else 0;
    }
    SumSame(|db.transfers|, PairWeightAt(db, InCurrency(c)), NetIssueAt(db, c));
    if ExchangesNone(db, c) {
      forall t: nat | t < |db.transfers| ensures NetIssueAt(db, c)(t) == 0 { assert SoundTransfer(db, t); }
      ZeroSum(|db.transfers|, NetIssueAt(db, c));
    }
  }
}
