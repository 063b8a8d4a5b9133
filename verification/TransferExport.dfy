/** The streaming exports: cursor pages of a fixed ordered table, printed chunk by chunk. */
module TransferExport {
  import opened Options
  import Ledger = LedgerDb
  import Money
  import opened Csv

  type Currency = Money.Currency

  const EXPORT_PAGE_SIZE: nat := 500

  /** What the page queries select of a transfer. */
  datatype Selected = Selected(
    id: string, createdAt: string, status: string, fromAmount: nat, toAmount: nat,
    fromCurrency: Currency, toCurrency: Currency,
    fromUser: Option<nat>, fromAccount: string, toUser: Option<nat>, toAccount: string)

  const EXPORT_COLUMNS: seq<Column> :=
    [Column("date", "Date"), Column("direction", "Direction"),
     Column("counterpartyAccount", "Counterparty Account"), Column("amount", "Amount"),
     Column("currency", "Currency"), Column("status", "Status")]

  const TENANT_EXPORT_COLUMNS: seq<Column> :=
    [Column("date", "Date"), Column("fromAccount", "From Account"), Column("toAccount", "To Account"),
     Column("amount", "Amount"), Column("currency", "Currency"), Column("status", "Status"),
     Column("reference", "Reference")]

  // ---- Amounts as text --------------------------------------------------------------------

  function Digit(n: nat): char
    requires n < 10
  {
    ('0' as int + n) as char
  }

  function Digits(n: nat): string {
    if n < 10 then [Digit(n)] else Digits(n / 10) + [Digit(n % 10)]
  }

  /** fromSmallestUnit(...).toFixed(decimals). */
  function AmountText(amount: nat, c: Currency): string {
    if Money.Decimals(c) == 0 then Digits(amount)
    else Digits(amount / 100) + "." + [Digit(amount / 10 % 10), Digit(amount % 10)]
  }

  function CurrencyName(c: Currency): string {
    match c
    case USD => "USD" case EUR => "EUR" case GBP => "GBP" case NGN => "NGN"
    case JPY => "JPY" case AUD => "AUD" case CAD => "CAD" case CNY => "CNY"
  }

  function ReadDigits(s: string): nat {
    if s == "" then 0
    else
      var d := s[|s| - 1] as int - '0' as int;
      10 * ReadDigits(s[..|s| - 1]) + if 0 <= d < 10 then d else 0
  }

  /** The number of smallest units that a text spells: one with two decimals behind a point, but for
      the yen, which has none. */
  function ReadAmount(s: string, c: Currency): nat {
    if c == Money.JPY || |s| < 3 || s[|s| - 3] != '.' then ReadDigits(s)
    else ReadDigits(s[..|s| - 3] + s[|s| - 2..])
  }

  /** A currency is shown by its code. */
  lemma CodesNameCurrencies(c: Currency)
    ensures CurrencyName(c) == "USD" <==> c == Money.USD
    ensures CurrencyName(c) == "EUR" <==> c == Money.EUR
    ensures CurrencyName(c) == "GBP" <==> c == Money.GBP
    ensures CurrencyName(c) == "NGN" <==> c == Money.NGN
    ensures CurrencyName(c) == "JPY" <==> c == Money.JPY
    ensures CurrencyName(c) == "AUD" <==> c == Money.AUD
    ensures CurrencyName(c) == "CAD" <==> c == Money.CAD
    ensures CurrencyName(c) == "CNY" <==> c == Money.CNY
  {
  }

  lemma {:induction false} ReadsDigits(n: nat)
    ensures ReadDigits(Digits(n)) == n
  {
    if n < 10 {
      assert ReadDigits("") == 0;
      assert Digits(n)[..0] == "";
    } else {
      ReadsDigits(n / 10);
      assert Digits(n)[..|Digits(n)| - 1] == Digits(n / 10);
    }
  }

  lemma ReadsOneMore(s: string, d: nat)
    requires d < 10
    ensures ReadDigits(s + [Digit(d)]) == 10 * ReadDigits(s) + d
  {
    assert (s + [Digit(d)])[..|s|] == s;
  }

  /** The exported amount is the stored one, to the last unit. */
  lemma AmountsReadBack(amount: nat, c: Currency)
    ensures ReadAmount(AmountText(amount, c), c) == amount
  {
    if Money.Decimals(c) == 0 {
      ReadsDigits(amount);
    } else {
      PointLeftOut(Digits(amount / 100), Digit(amount / 10 % 10), Digit(amount % 10), c);
      ReadsDigits(amount / 100);
      ReadsOneMore(Digits(amount / 100), amount / 10 % 10);
      ReadsOneMore(Digits(amount / 100) + [Digit(amount / 10 % 10)], amount % 10);
      SplitsDigits(amount);
    }
  }

  lemma PointLeftOut(whole: string, tens: char, units: char, c: Currency)
    requires Money.Decimals(c) == 2
    ensures ReadAmount(whole + "." + [tens, units], c) == ReadDigits(whole + [tens] + [units])
  {
    var text := whole + "." + [tens, units];
    assert text[..|text| - 3] == whole && text[|text| - 2..] == [tens, units];
    assert whole + [tens, units] == whole + [tens] + [units];
  }

  lemma SplitsDigits(n: nat)
    ensures 10 * (10 * (n / 100) + n / 10 % 10) + n % 10 == n
  {
    assert n / 10 / 10 == n / 100;
  }

  // ---- Row shapes -------------------------------------------------------------------------

  /** The transfer as the user who exports sees it. */
  function OwnRow(user: nat, t: Selected): Row {
    var isDebit := t.fromUser == Some(user);
    var amount, currency := if isDebit then t.fromAmount else t.toAmount,
                            if isDebit then t.fromCurrency else t.toCurrency;
    map["date" := t.createdAt, "direction" := if isDebit then "DEBIT" else "CREDIT",
        "counterpartyAccount" := if isDebit then t.toAccount else t.fromAccount,
        "amount" := AmountText(amount, currency), "currency" := CurrencyName(currency), "status" := t.status]
  }

  function TenantRow(t: Selected): Row {
    map["date" := t.createdAt, "fromAccount" := t.fromAccount, "toAccount" := t.toAccount,
        "amount" := AmountText(t.fromAmount, t.fromCurrency), "currency" := CurrencyName(t.fromCurrency),
        "status" := t.status, "reference" := t.id]
  }

  /** The selected columns are those of this order. */
  predicate Mirrors(t: Selected, o: Ledger.Order) {
    t.fromAmount == o.fromAmount && t.toAmount == o.toAmount
    && t.fromCurrency == o.fromCurrency && t.toCurrency == o.toCurrency
  }

  /** A user's row shows the journal entry that the transfer makes in the user's own wallet, the
      sender's if the user has both, and names the account at the other end. */
  lemma OwnRowShowsOwnEntry(user: nat, t: Selected, p: Ledger.Payload)
    requires Mirrors(t, p.order)
    ensures var row := OwnRow(user, t);
            var mine := if t.fromUser == Some(user) then Ledger.DebitRow(p.order.tenant, p)
                        else Ledger.CreditRow(p.order.tenant, p);
            && row.Keys == {"date", "direction", "amount", "currency", "counterpartyAccount", "status"}
            && row["date"] == t.createdAt && row["status"] == t.status
            && row["direction"] == (if mine.kind.DEBIT? then "DEBIT" else "CREDIT")
            && ReadAmount(row["amount"], mine.currency) == mine.amount
            && row["currency"] == CurrencyName(mine.currency)
            && row["counterpartyAccount"] == (if mine.kind.DEBIT? then t.toAccount else t.fromAccount)
  {
    var mine := if t.fromUser == Some(user) then Ledger.DebitRow(p.order.tenant, p)
                else Ledger.CreditRow(p.order.tenant, p);
    AmountsReadBack(mine.amount, mine.currency);
  }

  /** The tenant's row shows the debit, both ends and the transfer's identifier. */
  lemma TenantRowShowsDebit(t: Selected, p: Ledger.Payload)
    requires Mirrors(t, p.order)
    ensures var row, debit := TenantRow(t), Ledger.DebitRow(p.order.tenant, p);
            && row.Keys == {"date", "amount", "currency", "fromAccount", "toAccount", "status", "reference"}
            && row["date"] == t.createdAt && row["status"] == t.status
            && ReadAmount(row["amount"], debit.currency) == debit.amount
            && row["currency"] == CurrencyName(debit.currency)
            && row["fromAccount"] == t.fromAccount && row["toAccount"] == t.toAccount && row["reference"] == t.id
  {
    AmountsReadBack(t.fromAmount, t.fromCurrency);
  }

  function Rows(table: seq<Selected>, shape: Selected -> Row): seq<Row> {
    seq(|table|, i requires 0 <= i < |table| => shape(table[i]))
  }

  /** The export in one piece. */
  function Whole(table: seq<Selected>, columns: seq<Column>, shape: Selected -> Row): string {
    ToCsv(Rows(table, shape), columns, true) + "\n"
  }

  // ---- Pages ------------------------------------------------------------------------------

  datatype Page = Page(items: seq<Selected>, nextCursor: Option<string>)

  ghost predicate DistinctIds(table: seq<Selected>) {
    forall i, j | 0 <= i < j < |table| :: table[i].id != table[j].id
  }

  /** The position of the row with this id, or the end of the table. */
  function IndexOf(table: seq<Selected>, id: string): (i: nat)
    ensures i <= |table|
  {
    if table == [] || table[0].id == id then 0 else 1 + IndexOf(table[1..], id)
  }

  /** findMany: from the start, or from the cursor row with that row skipped. */
  function FindMany(table: seq<Selected>, cursor: Option<string>, take: nat): seq<Selected> {
    var at := if cursor.None? then 0 else IndexOf(table, cursor.value) + 1;
    var start := if at < |table| then at else |table|;
    if start + take < |table| then table[start..start + take] else table[start..]
  }

  /** One row more than the page is asked for; its presence says there is a next page. */
  function FindPage(table: seq<Selected>, cursor: Option<string>, take: nat): Page
    requires take >= 1
  {
    var rows := FindMany(table, cursor, take + 1);
    var hasNextPage := |rows| > take;
    var items := if hasNextPage then rows[..|rows| - 1] else rows;
    Page(items, if hasNextPage then Some(items[|items| - 1].id) else None)
  }

  lemma {:induction false} IndexOfRow(table: seq<Selected>, k: nat)
    requires DistinctIds(table) && k < |table|
    ensures IndexOf(table, table[k].id) == k
    decreases k
  {
    if k == 0 {
    } else {
      assert table[0].id != table[k].id;
      assert table[1..][k - 1] == table[k];
      IndexOfRow(table[1..], k - 1);
    }
  }

  /** Whether this is where `done` rows have been read. */
  ghost predicate At(table: seq<Selected>, cursor: Option<string>, done: nat) {
    && done <= |table|
    && (cursor.None? ==> done == 0)
    && (cursor.Some? ==> 0 < done && table[done - 1].id == cursor.value)
  }

  /** A page is the next rows, as many as asked for or all that are left; its cursor is there
      exactly when rows are left after it, and stands where the page ends. */
  lemma PagesContinue(table: seq<Selected>, cursor: Option<string>, take: nat, done: nat)
    requires take >= 1 && DistinctIds(table) && At(table, cursor, done)
    ensures var page := FindPage(table, cursor, take);
            var end := if done + take < |table| then done + take else |table|;
            && page.items == table[done..end]
            && page.nextCursor == if end < |table| then Some(table[end - 1].id) else None
  {
    hide FindMany;
    FindManyContinues(table, cursor, take + 1, done);
    if done + take < |table| { DropLast(table, done, done + take + 1); }
  }

  lemma DropLast(table: seq<Selected>, lo: nat, hi: nat)
    requires lo < hi <= |table|
    ensures table[lo..hi][..hi - lo - 1] == table[lo..hi - 1]
  {
  }

  lemma FindManyContinues(table: seq<Selected>, cursor: Option<string>, take: nat, done: nat)
    requires DistinctIds(table) && At(table, cursor, done)
    ensures FindMany(table, cursor, take) == table[done..if done + take < |table| then done + take else |table|]
  {
    if cursor.Some? { IndexOfRow(table, done - 1); }
  }

  // ---- The stream -------------------------------------------------------------------------

  class Output {
    var written: string
    var ended: bool

    constructor ()
      ensures written == "" && !ended
    {
      written, ended := "", false;
    }

    method Write(chunk: string)
      requires !ended
      modifies this`written
      ensures written == old(written) + chunk
    {
      written := written + chunk;
    }

    method End()
      modifies this`ended
      ensures ended
    {
      ended := true;
    }
  }

  /** The header and the first `done` rows. */
  ghost function Partial(table: seq<Selected>, columns: seq<Column>, shape: Selected -> Row, done: nat): string
    requires done <= |table|
  {
    Lines([Labels(columns)] + Csv.Table(Rows(table[..done], shape), columns))
  }

  lemma PartialStart(table: seq<Selected>, columns: seq<Column>, shape: Selected -> Row)
    ensures ToCsv([], columns, true) + "\n" == Partial(table, columns, shape, 0)
  {
    PrintedLines([], columns);
    assert Csv.Table(Rows(table[..0], shape), columns) == Csv.Table([], columns);
  }

  lemma PartialWhole(table: seq<Selected>, columns: seq<Column>, shape: Selected -> Row)
    ensures Partial(table, columns, shape, |table|) == Whole(table, columns, shape)
  {
    assert table[..|table|] == table;
    PrintedLines(Rows(table, shape), columns);
  }

  lemma PartialGrows(table: seq<Selected>, columns: seq<Column>, shape: Selected -> Row, done: nat, end: nat)
    requires done < end <= |table|
    ensures Partial(table, columns, shape, end)
            == Partial(table, columns, shape, done)
               + (ToCsv(Rows(table[done..end], shape), columns, false) + "\n")
  {
    var header := [Labels(columns)];
    var before := Csv.Table(Rows(table[..done], shape), columns);
    var chunk := Csv.Table(Rows(table[done..end], shape), columns);
    assert Csv.Table(Rows(table[..end], shape), columns) == before + chunk;
    assert header + (before + chunk) == (header + before) + chunk;
    LinesAppend(header + before, chunk);
    PrintedLines(Rows(table[done..end], shape), columns);
  }

  lemma MulAtLeast(x: nat, y: nat, k: nat)
    requires x >= y
    ensures x * k >= y * k
  {
  }

  /** One turn of the loop: the next page goes out, if it has rows. */
  method WritePage(table: seq<Selected>, columns: seq<Column>, shape: Selected -> Row, take: nat,
                   cursor: Option<string>, ghost done: nat, output: Output)
    returns (nextCursor: Option<string>, ghost end: nat)
    requires take >= 1 && DistinctIds(table) && At(table, cursor, done) && !output.ended
    requires output.written == Partial(table, columns, shape, done)
    modifies output`written
    ensures end == if done + take < |table| then done + take else |table|
    ensures output.written == Partial(table, columns, shape, end)
    ensures nextCursor.Some? <==> end < |table|
    ensures nextCursor.Some? ==> At(table, nextCursor, end)
  {
    hide Partial, FindPage, DistinctIds;
    PagesContinue(table, cursor, take, done);
    var page := FindPage(table, cursor, take);
    end := done + |page.items|;
    if |page.items| > 0 {
      PartialGrows(table, columns, shape, done, end);
      var chunk := ToCsv(Rows(page.items, shape), columns, false) + "\n";
      output.Write(chunk);
    }
    nextCursor := page.nextCursor;
  }

  /** The loop that both exports run. `interrupted` is the page before which the request is
      aborted or the query fails, if any. What is written is always a beginning of the one-piece
      export, cut between pages; the stream is ended only when all of it is there. */
  method Stream(table: seq<Selected>, columns: seq<Column>, shape: Selected -> Row, take: nat,
                interrupted: Option<nat>, output: Output)
    requires take >= 1 && DistinctIds(table) && output.written == "" && !output.ended
    modifies output
    ensures output.ended <==> interrupted.None? || (interrupted.value >= 1 && interrupted.value * take >= |table|)
    ensures output.ended ==> output.written == Whole(table, columns, shape)
    ensures !output.ended ==> interrupted.value * take <= |table|
                              && output.written == Partial(table, columns, shape, interrupted.value * take)
  {
    output.Write(ToCsv([], columns, true) + "\n");
    PartialStart(table, columns, shape);
    var cursor, pages, more := None, 0, true;
    ghost var done := 0;
    while more
      invariant !output.ended
      invariant done <= |table| && output.written == Partial(table, columns, shape, done)
      invariant more ==> At(table, cursor, done) && done == pages * take && (done < |table| || pages == 0)
      invariant !more ==> done == |table| <= pages * take && pages >= 1
      invariant interrupted.Some? ==> pages <= interrupted.value
      decreases |table| - done, more
    {
      if interrupted == Some(pages) { return; }
      cursor, done := WritePage(table, columns, shape, take, cursor, done, output);
      assert (pages + 1) * take == pages * take + take;
      more, pages := cursor.Some?, pages + 1;
    }
    output.End();
    PartialWhole(table, columns, shape);
    if interrupted.Some? { MulAtLeast(interrupted.value, pages, take); }
  }

  method StreamMyTransfersExport(table: seq<Selected>, user: nat, interrupted: Option<nat>) returns (output: Output)
    requires DistinctIds(table)
    ensures fresh(output)
    ensures output.ended <==>
              interrupted.None? || (interrupted.value >= 1 && interrupted.value * 500 >= |table|)
    ensures output.ended ==> output.written == Whole(table, EXPORT_COLUMNS, t => OwnRow(user, t))
    ensures !output.ended ==>
              interrupted.value * 500 <= |table|
              && output.written == Partial(table, EXPORT_COLUMNS, t => OwnRow(user, t), interrupted.value * 500)
  {
    output := new Output();
    Stream(table, EXPORT_COLUMNS, t => OwnRow(user, t), EXPORT_PAGE_SIZE, interrupted, output);
  }

  method StreamTenantTransfersExport(table: seq<Selected>, interrupted: Option<nat>) returns (output: Output)
    requires DistinctIds(table)
    ensures fresh(output)
    ensures output.ended <==>
              interrupted.None? || (interrupted.value >= 1 && interrupted.value * 500 >= |table|)
    ensures output.ended ==> output.written == Whole(table, TENANT_EXPORT_COLUMNS, TenantRow)
    ensures !output.ended ==>
              interrupted.value * 500 <= |table|
              && output.written == Partial(table, TENANT_EXPORT_COLUMNS, TenantRow, interrupted.value * 500)
  {
    output := new Output();
    Stream(table, TENANT_EXPORT_COLUMNS, TenantRow, EXPORT_PAGE_SIZE, interrupted, output);
  }

  /** An export reads back as its header and one record per transfer, in order; a cut one as its
      header and the transfers that went out. */
  lemma ExportsReadBack(table: seq<Selected>, columns: seq<Column>, shape: Selected -> Row, done: nat)
    requires columns != [] && done <= |table|
    ensures Parse(Whole(table, columns, shape))
            == Some([Labels(columns)] + Csv.Table(Rows(table, shape), columns))
    ensures Parse(Partial(table, columns, shape, done))
            == Some([Labels(columns)] + Csv.Table(Rows(table[..done], shape), columns))
  {
    PrintedTablesReadBack(Rows(table, shape), columns);
    LinesReadBack([Labels(columns)] + Csv.Table(Rows(table[..done], shape), columns));
  }

  /** A user's export, whole when `done` is all of the table, reads back as these six titles and, for
      each transfer that went out, in order, its date, direction, other account, amount, currency
      and status. */
  lemma OwnExportReadsBack(table: seq<Selected>, user: nat, done: nat)
    requires done <= |table|
    ensures var records := Parse(Partial(table, EXPORT_COLUMNS, t => OwnRow(user, t), done));
            && records.Some? && |records.value| == done + 1
            && records.value[0] == ["Date", "Direction", "Counterparty Account", "Amount", "Currency", "Status"]
            && forall k: nat | k < done ::
                 var t := table[k];
                 var isDebit := t.fromUser == Some(user);
                 var amount, currency := if isDebit then t.fromAmount else t.toAmount,
                                         if isDebit then t.fromCurrency else t.toCurrency;
                 records.value[k + 1]
                 == [t.createdAt, if isDebit then "DEBIT" else "CREDIT", if isDebit then t.toAccount else t.fromAccount,
                     AmountText(amount, currency), CurrencyName(currency), t.status]
  {
    hide AmountText, CurrencyName, Parse, Partial;
    ExportsReadBack(table, EXPORT_COLUMNS, t => OwnRow(user, t), done);
  }

  lemma TenantCells(t: Selected)
    ensures Cells(TenantRow(t), TENANT_EXPORT_COLUMNS)
            == [t.createdAt, t.fromAccount, t.toAccount, AmountText(t.fromAmount, t.fromCurrency),
                CurrencyName(t.fromCurrency), t.status, t.id]
  {
    hide AmountText, CurrencyName;
  }

  /** A tenant's export reads back as these seven titles and, for each transfer, its date, both accounts,
      the amount and currency sent, its status and its identifier. */
  lemma TenantExportReadsBack(table: seq<Selected>, done: nat)
    requires done <= |table|
    ensures var records := Parse(Partial(table, TENANT_EXPORT_COLUMNS, TenantRow, done));
            && records.Some? && |records.value| == done + 1
            && records.value[0]
               == ["Date", "From Account", "To Account", "Amount", "Currency", "Status", "Reference"]
            && forall k: nat | k < done ::
                 var t := table[k];
                 records.value[k + 1]
                 == [t.createdAt, t.fromAccount, t.toAccount, AmountText(t.fromAmount, t.fromCurrency),
                     CurrencyName(t.fromCurrency), t.status, t.id]
  {
    hide AmountText, CurrencyName, Parse, Partial;
    ExportsReadBack(table, TENANT_EXPORT_COLUMNS, TenantRow, done);
    forall k: nat | k < done
      ensures var t := table[k];
              Cells(TenantRow(t), TENANT_EXPORT_COLUMNS)
              == [t.createdAt, t.fromAccount, t.toAccount, AmountText(t.fromAmount, t.fromCurrency),
                  CurrencyName(t.fromCurrency), t.status, t.id]
    {
      TenantCells(table[k]);
    }
  }
}
