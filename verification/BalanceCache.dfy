/** The cached balances in front of the journal, beside the settlement machine. A key names a
    wallet within a tenant. A balance is two sums, read by two statements in either order. */
module BalanceCache {
  import opened Options
  import opened Sums
  import opened LedgerDb
  import opened Settlement
  import opened StepFacts

  const BALANCE_TTL_MS: nat := 60_000

  datatype Key = Key(tenant: nat, wallet: nat)

  /** One of the two sums. How many events had happened when it was read is history, not data. */
  datatype Reading = Reading(amount: int, at: nat)

  datatype Cached = Cached(credits: Reading, debits: Reading, storedAt: int)

  /** A getBalance that has missed and has not stored yet. */
  datatype Fill = Fill(key: Key, credits: Option<Reading>, debits: Option<Reading>)

  /** `uncleared` holds the handlings that wrote a pair and have not deleted this key; `age` counts
      the events. */
  datatype World = World(
    ledger: State, clock: int, cache: map<Key, Cached>, fills: seq<Fill>, uncleared: set<(nat, Key)>, age: nat)

  datatype Event =
    | Settle(step: Step)
    | Tick(ms: nat)
    | FillStarts(key: Key)          // getBalance misses,
    | FillReadsCredits(k: nat)      // its two aggregates run, in either order,
    | FillReadsDebits(k: nat)
    | FillStores(k: nat)            // and it stores and returns the difference
    | FillAtOnce(key: Key)
    | DeleteDebited(i: nat)         // the handler's two cache deletes
    | DeleteCredited(i: nat)
    | Evict(key: Key)

  const EMPTY_WORLD: World := World(INIT, 0, map[], [], {}, 0)

  function SumIn(rows: seq<Entry>, key: Key, kind: EntryType): int {
    SeqSum(rows, EntryAmount(Some(key.tenant), key.wallet, kind))
  }

  function SumOf(c: World, key: Key, kind: EntryType): int {
    SumIn(c.ledger.db.journal, key, kind)
  }

  function Balance(c: World, key: Key): int {
    ComputeBalance(c.ledger.db, Some(key.tenant), key.wallet)
  }

  function ReadNow(c: World, key: Key, kind: EntryType): Reading {
    Reading(SumOf(c, key, kind), c.age)
  }

  /** What getBalance finds in the cache. */
  function Lookup(c: World, key: Key): Option<int> {
    if key in c.cache && c.clock <= c.cache[key].storedAt + BALANCE_TTL_MS
    then Some(c.cache[key].credits.amount - c.cache[key].debits.amount) else None
  }

  function DebitedKey(m: Message): Key { Key(m.tenant, m.payload.order.walletFrom) }
  function CreditedKey(m: Message): Key { Key(m.tenant, m.payload.order.walletTo) }

  function WithoutKey(cache: map<Key, Cached>, key: Key): map<Key, Cached> {
    cache - {key}
  }

  function Deleted(c: World, i: nat, key: Key): World {
    c.(cache := WithoutKey(c.cache, key), uncleared := c.uncleared - {(i, key)})
  }

  function Settled(c: World, step: Step): World {
    c.(ledger := Next(c.ledger, step),
       uncleared := c.uncleared
                    + if step.WritePair? && At(c.ledger, step.i, Handling(Received))
                         && PairFits(c.ledger.db, c.ledger.tokens[step.i].msg.tenant, c.ledger.tokens[step.i].msg.payload)
                      then {(step.i, DebitedKey(c.ledger.tokens[step.i].msg)),
                            (step.i, CreditedKey(c.ledger.tokens[step.i].msg))}
                      else {})
  }

  predicate Complete(c: World, k: nat) {
    k < |c.fills| && c.fills[k].credits.Some? && c.fills[k].debits.Some?
  }

  /** The two readings behind the balance that an event answers a caller with: a hit what the cache
      holds, a miss what it has read, when it stores it. */
  function ServedFrom(c: World, e: Event): Option<(Key, Reading, Reading)> {
    match e
    case FillStarts(key) =>
      if Lookup(c, key).Some? then Some((key, c.cache[key].credits, c.cache[key].debits)) else None
    case FillStores(k) =>
      if Complete(c, k) then Some((c.fills[k].key, c.fills[k].credits.value, c.fills[k].debits.value)) else None
    case FillAtOnce(key) =>
      if Lookup(c, key).Some? then Some((key, c.cache[key].credits, c.cache[key].debits))
      else Some((key, ReadNow(c, key, CREDIT), ReadNow(c, key, DEBIT)))
    case _ => None
  }

  /** The key asked for and the balance answered. */
  function Served(c: World, e: Event): Option<(Key, int)> {
    match ServedFrom(c, e)
    case None => None
    case Some((key, credits, debits)) => Some((key, credits.amount - debits.amount))
  }

  predicate Hits(c: World, e: Event) {
    (e.FillStarts? || e.FillAtOnce?) && Lookup(c, e.key).Some?
  }

  function Effect(c: World, e: Event): World {
    match e
    case Settle(step) => Settled(c, step)
    case Tick(ms) => c.(clock := c.clock + ms)
    case FillStarts(key) =>
      if Lookup(c, key).None? then c.(fills := c.fills + [Fill(key, None, None)]) else c
    case FillReadsCredits(k) =>
      if k < |c.fills| && c.fills[k].credits.None? then
        c.(fills := c.fills[k := c.fills[k].(credits := Some(ReadNow(c, c.fills[k].key, CREDIT)))])
      else c
    case FillReadsDebits(k) =>
      if k < |c.fills| && c.fills[k].debits.None? then
        c.(fills := c.fills[k := c.fills[k].(debits := Some(ReadNow(c, c.fills[k].key, DEBIT)))])
      else c
    case FillStores(k) =>
      if Complete(c, k) then
        var f := c.fills[k];
        c.(cache := c.cache[f.key := Cached(f.credits.value, f.debits.value, c.clock)],
           fills := c.fills[..k] + c.fills[k + 1..])
      else c
    case FillAtOnce(key) =>
      if Lookup(c, key).None? then
        c.(cache := c.cache[key := Cached(ReadNow(c, key, CREDIT), ReadNow(c, key, DEBIT), c.clock)])
      else c
    case DeleteDebited(i) =>
      if At(c.ledger, i, Handling(Stamped)) then Deleted(c, i, DebitedKey(c.ledger.tokens[i].msg)) else c
    case DeleteCredited(i) =>
      if At(c.ledger, i, Handling(Stamped)) then Deleted(c, i, CreditedKey(c.ledger.tokens[i].msg)) else c
    case Evict(key) => c.(cache := WithoutKey(c.cache, key))
  }

  function Happen(c: World, e: Event): World {
    Effect(c, e).(age := c.age + 1)
  }

  function History(events: seq<Event>): World {
    if events == [] then EMPTY_WORLD else Happen(History(events[..|events| - 1]), events[|events| - 1])
  }

  // ---- What a reading was -----------------------------------------------------------------

  /** The reading is the sum that the journal gave after that many events of the run. */
  ghost predicate WasRead(events: seq<Event>, r: Reading, key: Key, kind: EntryType) {
    r.at <= |events| && r.amount == SumOf(History(events[..r.at]), key, kind)
  }

  ghost predicate CacheWasRead(events: seq<Event>) {
    var c := History(events);
    forall key: Key | key in c.cache ::
      WasRead(events, c.cache[key].credits, key, CREDIT) && WasRead(events, c.cache[key].debits, key, DEBIT)
  }

  ghost predicate FillWasRead(events: seq<Event>, f: Fill) {
    (f.credits.Some? ==> WasRead(events, f.credits.value, f.key, CREDIT))
    && (f.debits.Some? ==> WasRead(events, f.debits.value, f.key, DEBIT))
  }

  ghost predicate FillsWereRead(events: seq<Event>) {
    var c := History(events);
    forall k | 0 <= k < |c.fills| :: FillWasRead(events, c.fills[k])
  }

  lemma HistorySnoc(events: seq<Event>, e: Event)
    ensures History(events + [e]) == Happen(History(events), e)
  {
    assert (events + [e])[..|events|] == events;
  }

  lemma {:induction false} AgeCounts(events: seq<Event>)
    ensures History(events).age == |events|
  {
    if events == [] {
    } else {
      AgeCounts(events[..|events| - 1]);
    }
  }

  lemma StillRead(events: seq<Event>, e: Event, r: Reading, key: Key, kind: EntryType)
    requires WasRead(events, r, key, kind)
    ensures WasRead(events + [e], r, key, kind)
  {
    assert (events + [e])[..r.at] == events[..r.at];
  }

  lemma NowRead(events: seq<Event>, key: Key, kind: EntryType)
    ensures WasRead(events, ReadNow(History(events), key, kind), key, kind)
  {
    AgeCounts(events);
    assert events[..|events|] == events;
  }

  lemma FillStillRead(events: seq<Event>, e: Event, f: Fill)
    requires FillWasRead(events, f)
    ensures FillWasRead(events + [e], f)
  {
    hide WasRead;
    if f.credits.Some? { StillRead(events, e, f.credits.value, f.key, CREDIT); }
    if f.debits.Some? { StillRead(events, e, f.debits.value, f.key, DEBIT); }
  }

  /** Where a fill of the next state was before: it has started, it has read one sum more, or it is
      as it was. */
  lemma FillBefore(c: World, e: Event, k: nat) returns (j: nat)
    requires k < |Happen(c, e).fills|
    ensures var f := Happen(c, e).fills[k];
            if j >= |c.fills| then f.credits.None? && f.debits.None?
            else
              || f == c.fills[j]
              || f == c.fills[j].(credits := Some(ReadNow(c, f.key, CREDIT)))
              || f == c.fills[j].(debits := Some(ReadNow(c, f.key, DEBIT)))
  {
    hide ReadNow, Next, Lookup;
    j := if e.FillStores? && e.k <= k && Complete(c, e.k) then k + 1 else k;
  }

  lemma EventKeepsFills(events: seq<Event>, e: Event)
    requires FillsWereRead(events)
    ensures FillsWereRead(events + [e])
  {
    hide WasRead, ReadNow, Happen, History;
    HistorySnoc(events, e);
    var c, after := History(events), Happen(History(events), e);
    forall k | 0 <= k < |after.fills| ensures FillWasRead(events + [e], after.fills[k]) {
      var j := FillBefore(c, e, k);
      var f := after.fills[k];
      if j < |c.fills| {
        FillStillRead(events, e, c.fills[j]);
        NowRead(events, f.key, CREDIT);
        NowRead(events, f.key, DEBIT);
        StillRead(events, e, ReadNow(c, f.key, CREDIT), f.key, CREDIT);
        StillRead(events, e, ReadNow(c, f.key, DEBIT), f.key, DEBIT);
      }
    }
  }

  /** What a cache entry of the next state was before. */
  lemma CachedBefore(c: World, e: Event, key: Key)
    requires key in Happen(c, e).cache
    ensures var x := Happen(c, e).cache[key];
            || (key in c.cache && x == c.cache[key])
            || (e.FillStores? && Complete(c, e.k) && key == c.fills[e.k].key
                && x == Cached(c.fills[e.k].credits.value, c.fills[e.k].debits.value, c.clock))
            || (e.FillAtOnce? && key == e.key
                && x == Cached(ReadNow(c, key, CREDIT), ReadNow(c, key, DEBIT), c.clock))
    ensures Happen(c, e).clock >= c.clock
  {
    hide ReadNow;
  }

  lemma EventKeepsCache(events: seq<Event>, e: Event)
    requires CacheWasRead(events) && FillsWereRead(events)
    ensures CacheWasRead(events + [e])
  {
    hide WasRead, ReadNow, Happen, History;
    HistorySnoc(events, e);
    var c, after := History(events), Happen(History(events), e);
    forall key: Key | key in after.cache
      ensures WasRead(events + [e], after.cache[key].credits, key, CREDIT)
              && WasRead(events + [e], after.cache[key].debits, key, DEBIT)
    {
      CachedBefore(c, e, key);
      NowRead(events, key, CREDIT);
      NowRead(events, key, DEBIT);
      var x := after.cache[key];
      StillRead(events, e, x.credits, key, CREDIT);
      StillRead(events, e, x.debits, key, DEBIT);
    }
  }

  lemma {:induction false} AllWasRead(events: seq<Event>)
    ensures CacheWasRead(events) && FillsWereRead(events)
  {
    hide WasRead, Happen;
    if events == [] {
    } else {
      hide History, CacheWasRead, FillsWereRead;
      var before, e := events[..|events| - 1], events[|events| - 1];
      AllWasRead(before);
      EventKeepsCache(before, e);
      EventKeepsFills(before, e);
      assert events == before + [e];
    }
  }

  /** Whatever is served is the credits of one state of the run less the debits of another. */
  lemma ServedWasRead(events: seq<Event>, e: Event)
    ensures var c := History(events);
            ServedFrom(c, e).Some? ==>
              var (key, credits, debits) := ServedFrom(c, e).value;
              WasRead(events, credits, key, CREDIT) && WasRead(events, debits, key, DEBIT)
  {
    hide WasRead, ReadNow, History;
    AllWasRead(events);
    if e.FillAtOnce? {
      NowRead(events, e.key, CREDIT);
      NowRead(events, e.key, DEBIT);
    }
    if e.FillStores? && Complete(History(events), e.k) { assert FillWasRead(events, History(events).fills[e.k]); }
  }

  // ---- Staleness --------------------------------------------------------------------------

  /** The time after the first n events. */
  ghost function TimeAt(events: seq<Event>, n: nat): int {
    if n <= |events| then History(events[..n]).clock else 0
  }

  lemma TimeSnoc(events: seq<Event>, e: Event, n: nat)
    requires n <= |events|
    ensures TimeAt(events + [e], n) == TimeAt(events, n)
    ensures TimeAt(events, |events|) == History(events).clock <= History(events + [e]).clock
  {
    hide Happen, History;
    HistorySnoc(events, e);
    ClockAdvances(History(events), e);
    assert (events + [e])[..n] == events[..n] && events[..|events|] == events;
  }

  lemma ClockAdvances(c: World, e: Event)
    ensures c.clock <= Happen(c, e).clock
  {
    hide Next;
  }

  lemma {:induction false} TimeHasPassed(events: seq<Event>, n: nat)
    requires n <= |events|
    ensures TimeAt(events, n) <= History(events).clock
    decreases |events|
  {
    if n == |events| {
      assert events[..n] == events;
    } else {
      hide History, TimeAt;
      var before, e := events[..|events| - 1], events[|events| - 1];
      assert events == before + [e];
      TimeHasPassed(before, n);
      TimeSnoc(before, e, n);
    }
  }

  /** No fill takes longer than d from either read to its store. */
  ghost predicate Prompt(events: seq<Event>, d: nat) {
    forall n | 0 <= n < |events| :: StoresWithin(events[..n], events[n], d)
  }

  ghost predicate StoresWithin(events: seq<Event>, e: Event, d: nat) {
    var c := History(events);
    e.FillStores? && Complete(c, e.k) ==>
      && c.clock <= TimeAt(events, c.fills[e.k].credits.value.at) + d
      && c.clock <= TimeAt(events, c.fills[e.k].debits.value.at) + d
  }

  ghost predicate CacheIsPrompt(events: seq<Event>, d: nat) {
    var c := History(events);
    forall key: Key | key in c.cache ::
      && c.cache[key].storedAt <= TimeAt(events, c.cache[key].credits.at) + d
      && c.cache[key].storedAt <= TimeAt(events, c.cache[key].debits.at) + d
  }

  lemma PromptBefore(events: seq<Event>, d: nat)
    requires Prompt(events, d) && events != []
    ensures Prompt(events[..|events| - 1], d)
    ensures StoresWithin(events[..|events| - 1], events[|events| - 1], d)
  {
    hide StoresWithin;
    var before := events[..|events| - 1];
    forall n | 0 <= n < |before| ensures StoresWithin(before[..n], before[n], d) {
      assert before[..n] == events[..n] && before[n] == events[n];
    }
  }

  lemma EventKeepsPrompt(events: seq<Event>, e: Event, d: nat)
    requires CacheIsPrompt(events, d) && StoresWithin(events, e, d) && CacheWasRead(events) && FillsWereRead(events)
    ensures CacheIsPrompt(events + [e], d)
  {
    hide Happen, History, TimeAt;
    HistorySnoc(events, e);
    AgeCounts(events);
    var c, after := History(events), Happen(History(events), e);
    forall key: Key | key in after.cache
      ensures after.cache[key].storedAt <= TimeAt(events + [e], after.cache[key].credits.at) + d
              && after.cache[key].storedAt <= TimeAt(events + [e], after.cache[key].debits.at) + d
    {
      CachedBefore(c, e, key);
      if e.FillStores? && Complete(c, e.k) { assert FillWasRead(events, c.fills[e.k]); }
      TimeSnoc(events, e, after.cache[key].credits.at);
      TimeSnoc(events, e, after.cache[key].debits.at);
    }
  }

  lemma {:induction false} RunIsPrompt(events: seq<Event>, d: nat)
    requires Prompt(events, d)
    ensures CacheIsPrompt(events, d)
  {
    hide Happen, StoresWithin;
    if events == [] {
    } else {
      hide History, CacheIsPrompt, Prompt, CacheWasRead, FillsWereRead;
      var before, e := events[..|events| - 1], events[|events| - 1];
      PromptBefore(events, d);
      RunIsPrompt(before, d);
      AllWasRead(before);
      EventKeepsPrompt(before, e, d);
      assert events == before + [e];
    }
  }

  ghost predicate Recent(events: seq<Event>, n: nat, span: nat) {
    n <= |events| && TimeAt(events, n) <= History(events).clock <= TimeAt(events, n) + span
  }

  /** Every balance returned is the credits of one state of the run less the debits of another: on a
      hit neither state further back than the time to live and the longest fill together, on a miss
      neither further back than the fill. */
  lemma BalancesAreNeverOlder(events: seq<Event>, e: Event, d: nat)
    requires Prompt(events + [e], d)
    ensures var c := History(events);
            Served(c, e).Some? ==>
              var (key, balance) := Served(c, e).value;
              var span := d + if Hits(c, e) then 60_000 else 0;
              exists i: nat, j: nat :: Recent(events, i, span) && Recent(events, j, span)
                && balance == SumOf(History(events[..i]), key, CREDIT) - SumOf(History(events[..j]), key, DEBIT)
  {
    hide Happen, Prompt, History, TimeAt, ReadNow;
    PromptBefore(events + [e], d);
    assert (events + [e])[..|events|] == events;
    RunIsPrompt(events, d);
    ServedWasRead(events, e);
    var c := History(events);
    if Served(c, e).Some? {
      var (key, credits, debits) := ServedFrom(c, e).value;
      ServedIsRecent(events, e, d, credits, debits);
    }
  }

  lemma ServedIsRecent(events: seq<Event>, e: Event, d: nat, credits: Reading, debits: Reading)
    requires CacheIsPrompt(events, d) && StoresWithin(events, e, d)
    requires credits.at <= |events| && debits.at <= |events|
    requires ServedFrom(History(events), e).Some?
    requires ServedFrom(History(events), e).value.1 == credits && ServedFrom(History(events), e).value.2 == debits
    ensures var span := d + if Hits(History(events), e) then BALANCE_TTL_MS else 0;
            Recent(events, credits.at, span) && Recent(events, debits.at, span)
  {
    hide History, TimeAt;
    TimeHasPassed(events, credits.at);
    TimeHasPassed(events, debits.at);
    AgeCounts(events);
    TimeIsNow(events);
  }

  lemma TimeIsNow(events: seq<Event>)
    ensures TimeAt(events, |events|) == History(events).clock
  {
    assert events[..|events|] == events;
  }

  // ---- By how much a served balance is off ------------------------------------------------

  /** The journal rows written between two points of a run. */
  ghost function RowsBetween(events: seq<Event>, i: nat, j: nat): seq<Entry>
    requires i <= j <= |events|
  {
    JournalsGrow(events, i, j);
    History(events[..j]).ledger.db.journal[|History(events[..i]).ledger.db.journal|..]
  }

  lemma JournalGrows(c: World, e: Event)
    ensures c.ledger.db.journal <= Happen(c, e).ledger.db.journal
  {
    if e.Settle? { DbGrows(c.ledger, e.step); }
  }

  lemma {:induction false} JournalsGrow(events: seq<Event>, i: nat, j: nat)
    requires i <= j <= |events|
    ensures History(events[..i]).ledger.db.journal <= History(events[..j]).ledger.db.journal
    decreases j
  {
    hide Happen;
    if i == j {
    } else {
      JournalsGrow(events, i, j - 1);
      assert events[..j][..j - 1] == events[..j - 1];
      JournalGrows(History(events[..j - 1]), events[j - 1]);
    }
  }

  /** A sum grows by what is written meanwhile, and by nothing if and only if no such row is written
      with a positive amount. */
  lemma SumGrows(events: seq<Event>, i: nat, j: nat, key: Key, kind: EntryType)
    requires i <= j <= |events|
    ensures var more := SumIn(RowsBetween(events, i, j), key, kind);
            && SumOf(History(events[..j]), key, kind) == SumOf(History(events[..i]), key, kind) + more
            && more >= 0 && (more == 0 <==> NoneWritten(events, i, j, key, kind))
  {
    hide History;
    JournalsGrow(events, i, j);
    var a, b := History(events[..i]).ledger.db.journal, History(events[..j]).ledger.db.journal;
    var g := EntryAmount(Some(key.tenant), key.wallet, kind);
    assert b == a + b[|a|..];
    SeqSumConcat(a, b[|a|..], g);
    ZeroIffNone(b[|a|..], key, kind);
  }

  lemma ZeroIffNone(rows: seq<Entry>, key: Key, kind: EntryType)
    ensures SumIn(rows, key, kind) >= 0
    ensures SumIn(rows, key, kind) == 0 <==> (forall r | 0 <= r < |rows| :: !Counts(rows[r], key, kind))
  {
    var g := EntryAmount(Some(key.tenant), key.wallet, kind);
    SeqSumNonNegative(rows, g);
    forall r | 0 <= r < |rows| && Counts(rows[r], key, kind) ensures SumIn(rows, key, kind) > 0 {
      SeqSumAtLeast(rows, r, g);
    }
    if forall r | 0 <= r < |rows| :: !Counts(rows[r], key, kind) {
      forall x | x in rows ensures g(x) == 0 {
        var r :| 0 <= r < |rows| && rows[r] == x;
        assert !Counts(rows[r], key, kind);
      }
      SeqSumZero(rows, g);
    }
  }

  /** A row of this kind, of the wallet, with a positive amount. */
  predicate Counts(row: Entry, key: Key, kind: EntryType) {
    row.walletId == key.wallet && row.tenant == key.tenant && row.kind == kind && row.amount > 0
  }

  ghost predicate NoneWritten(events: seq<Event>, i: nat, j: nat, key: Key, kind: EntryType)
    requires i <= j <= |events|
  {
    forall r | 0 <= r < |RowsBetween(events, i, j)| :: !Counts(RowsBetween(events, i, j)[r], key, kind)
  }

  /** Over every run, with divided fills, top-ups and whatever else: a served balance is off by
      exactly the debits since the debit read less the credits since the credit read, so it is
      current if and only if these are equal. */
  lemma ServedIsOffByLaterPostings(events: seq<Event>, e: Event)
    ensures var c := History(events);
            ServedFrom(c, e).Some? ==>
              var (key, credits, debits) := ServedFrom(c, e).value;
              && credits.at <= |events| && debits.at <= |events|
              && var debited := SumIn(RowsBetween(events, debits.at, |events|), key, DEBIT);
                 var credited := SumIn(RowsBetween(events, credits.at, |events|), key, CREDIT);
                 && Served(c, e).value.1 - Balance(c, key) == debited - credited
                 && (Served(c, e).value.1 == Balance(c, key) <==> debited == credited)
  {
    hide History, RowsBetween;
    ServedWasRead(events, e);
    var c := History(events);
    if ServedFrom(c, e).Some? {
      var (key, credits, debits) := ServedFrom(c, e).value;
      SumGrows(events, credits.at, |events|, key, CREDIT);
      SumGrows(events, debits.at, |events|, key, DEBIT);
      assert events[..|events|] == events;
    }
  }

  // ---- Whether it ever was the balance ----------------------------------------------------

  predicate Between(n: nat, i: nat, j: nat) {
    i <= n <= j || j <= n <= i
  }

  /** With the credits read first no credit is posted before this point and no debit after it; with
      the debits read first, no debit before it and no credit after. */
  ghost predicate Undisturbed(events: seq<Event>, i: nat, j: nat, n: nat, key: Key)
    requires i <= |events| && j <= |events| && Between(n, i, j)
  {
    if i <= j then NoneWritten(events, i, n, key, CREDIT) && NoneWritten(events, n, j, key, DEBIT)
    else NoneWritten(events, j, n, key, DEBIT) && NoneWritten(events, n, i, key, CREDIT)
  }

  /** Credits read at i and debits read at j give the balance of the state at n between them if and
      only if nothing disturbed it. */
  lemma IsBalanceIffUndisturbed(events: seq<Event>, i: nat, j: nat, n: nat, key: Key)
    requires i <= |events| && j <= |events| && Between(n, i, j)
    ensures SumOf(History(events[..i]), key, CREDIT) - SumOf(History(events[..j]), key, DEBIT)
            == Balance(History(events[..n]), key)
            <==> Undisturbed(events, i, j, n, key)
  {
    hide History, RowsBetween, NoneWritten;
    if i <= j {
      SumGrows(events, i, n, key, CREDIT);
      SumGrows(events, n, j, key, DEBIT);
    } else {
      SumGrows(events, n, i, key, CREDIT);
      SumGrows(events, j, n, key, DEBIT);
    }
  }

  /** The exact condition: the balance served is one that the journal gave in some state between
      its two reads if and only if some point between them was undisturbed. */
  lemma ServedWasABalanceIff(events: seq<Event>, e: Event)
    ensures var c := History(events);
            ServedFrom(c, e).Some? ==>
              var (key, credits, debits) := ServedFrom(c, e).value;
              var i, j := credits.at, debits.at;
              && i <= |events| && j <= |events|
              && ((exists n: nat :: Between(n, i, j) && Balance(History(events[..n]), key) == Served(c, e).value.1)
                  <==> exists n: nat :: Between(n, i, j) && Undisturbed(events, i, j, n, key))
  {
    hide History, Undisturbed, Balance, SumOf;
    ServedWasRead(events, e);
    var c := History(events);
    if ServedFrom(c, e).Some? {
      var (key, credits, debits) := ServedFrom(c, e).value;
      var i, j := credits.at, debits.at;
      forall n: nat | Between(n, i, j)
        ensures Balance(History(events[..n]), key) == Served(c, e).value.1 <==> Undisturbed(events, i, j, n, key)
      {
        IsBalanceIffUndisturbed(events, i, j, n, key);
      }
    }
  }
}
