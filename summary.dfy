/** The invoice-level tax summary of the shared form script: the item rows'
    totals, the ledger accounts taken from the first taxed item's template,
    the 236G advance tax, and the rebuilt `taxes` table with its
    `total_taxes_and_charges`.

    `TaxSummary` is the reference definition of what one rebuild does;
    `ApplyTaxSummary` rewrites the form in place and is proved to agree
    with it. */
module TaxSummary {
  import opened Base
  import opened Records
  import opened Taxation

  /** What the summary reads of one item row. */
  datatype Line = Line(input: LineInput, taxes: LineTaxes)

  /** The item rows of a form, as values. */
  function LinesOf(rows: seq<ItemRow>): (r: seq<Line>)
    reads set row | row in rows
    ensures |r| == |rows|
    ensures forall i :: 0 <= i < |rows| ==> r[i] == Line(rows[i].Input(), rows[i].Taxes())
  {
    if |rows| == 0 then []
    else [Line(rows[0].Input(), rows[0].Taxes())] + LinesOf(rows[1..])
  }

  // ---------------------------------------------------------------------
  // Row totals

  datatype Totals = Totals(st: real, furtherTax: real, inclusive: real)

  /** `calculate_row_tax_totals`: the sums of the rows' sales tax, further
      tax and tax-inclusive totals. */
  function RowTotals(lines: seq<Line>): Totals
  {
    if |lines| == 0 then Totals(0.0, 0.0, 0.0)
    else
      var t := RowTotals(lines[..|lines| - 1]);
      var last := lines[|lines| - 1].taxes;
      Totals(t.st + last.st, t.furtherTax + last.furtherTax, t.inclusive + last.totalInclTax)
  }

  /** The totals of a concatenation are the sums of the parts' totals. */
  lemma {:induction false} RowTotalsAppend(a: seq<Line>, b: seq<Line>)
    ensures var t := RowTotals(a + b);
      var ta := RowTotals(a);
      var tb := RowTotals(b);
      t == Totals(ta.st + tb.st, ta.furtherTax + tb.furtherTax, ta.inclusive + tb.inclusive)
  {
    if |b| > 0 {
      assert (a + b)[..|a + b| - 1] == a + b[..|b| - 1];
      RowTotalsAppend(a, b[..|b| - 1]);
    } else {
      assert a + b == a;
    }
  }

  /** The totals do not depend on the order of the rows: moving the first
      row to the end gives the same sums. */
  lemma RowTotalsRotate(lines: seq<Line>)
    requires |lines| > 0
    ensures RowTotals(lines[1..] + [lines[0]]) == RowTotals(lines)
  {
    var a, b := lines[1..], [lines[0]];
    RowTotalsAppend(a, b);
    RowTotalsAppend(b, a);
    assert b + a == lines;
  }

  /** A row has taxes when its sales tax or its further tax is positive. */
  predicate IsTaxed(t: LineTaxes)
  {
    t.st > 0.0 || t.furtherTax > 0.0
  }

  /** `items_with_taxes[0]`: the first row with taxes. */
  function FirstTaxed(lines: seq<Line>): (r: Option<Line>)
    ensures r.Some? ==> r.value in lines && IsTaxed(r.value.taxes)
  {
    if |lines| == 0 then None
    else if IsTaxed(lines[0].taxes) then Some(lines[0])
    else FirstTaxed(lines[1..])
  }

  /** There is no first taxed row exactly when no row has taxes. */
  lemma {:induction false} FirstTaxedNone(lines: seq<Line>)
    ensures FirstTaxed(lines).None? <==> forall i :: 0 <= i < |lines| ==> !IsTaxed(lines[i].taxes)
  {
    if |lines| > 0 {
      FirstTaxedNone(lines[1..]);
      assert forall i :: 1 <= i < |lines| ==> lines[i] == lines[1..][i - 1];
    }
  }

  /** The row picked is the first one with taxes. */
  lemma {:induction false} FirstTaxedAt(lines: seq<Line>, k: nat)
    requires k < |lines| && IsTaxed(lines[k].taxes)
    requires forall j :: 0 <= j < k ==> !IsTaxed(lines[j].taxes)
    ensures FirstTaxed(lines) == Some(lines[k])
  {
    if k > 0 {
      assert !IsTaxed(lines[0].taxes);
      FirstTaxedAt(lines[1..], k - 1);
    }
  }

  // ---------------------------------------------------------------------
  // Ledger accounts

  datatype Accounts = Accounts(salesTax: string, furtherTax: string, advanceTax: string)

  const NO_ACCOUNTS := Accounts("", "", "")

  /** The field the account is read from: `tax_type` for a cached template,
      `account_head` for a freshly fetched one. */
  datatype AccountField = TaxTypeField | AccountHeadField

  function AccountIn(row: ItemTaxRow, field: AccountField): string
  {
    match field
    case TaxTypeField => row.taxType
    case AccountHeadField => row.accountHead
  }

  /** The account of the last row of a category, empty when there is none. */
  function LastAccount(taxes: seq<ItemTaxRow>, category: string, field: AccountField): string
  {
    match LastOf(taxes, category)
    case None => ""
    case Some(r) => AccountIn(r, field)
  }

  /** The accounts of a template: each category's account is that of its
      last row, since every matching row overwrites it. */
  function AccountsOf(taxes: seq<ItemTaxRow>, field: AccountField): Accounts
  {
    Accounts(LastAccount(taxes, SALES_TAX, field), LastAccount(taxes, FURTHER_SALES_TAX, field),
             LastAccount(taxes, ADVANCE_236G, field))
  }

  /** The account of a category is the one of its last row; with no row of
      the category it is empty. */
  lemma LastAccountIsLastRow(taxes: seq<ItemTaxRow>, category: string, field: AccountField, k: nat)
    requires k < |taxes| && taxes[k].category == category
    requires forall j :: k < j < |taxes| ==> taxes[j].category != category
    ensures LastAccount(taxes, category, field) == AccountIn(taxes[k], field)
  {
    LastOfAt(taxes, category, k);
  }

  lemma LastAccountWithoutCategory(taxes: seq<ItemTaxRow>, category: string, field: AccountField)
    requires forall j :: 0 <= j < |taxes| ==> taxes[j].category != category
    ensures LastAccount(taxes, category, field) == ""
  {
    LastOfNone(taxes, category);
  }

  /** `extract_accounts_from_template`: a missing name or a failed fetch
      gives no accounts. */
  function TemplateAccounts(name: string, db: Db): Accounts
  {
    if name == "" || name !in db.itemTaxTemplates then NO_ACCOUNTS
    else AccountsOf(db.itemTaxTemplates[name].taxes, AccountHeadField)
  }

  /** The classification the summary helpers use: the row's, or else the
      fetched Item's; none when neither has one or the Item is missing. */
  function RowClassification(row: LineInput, db: Db): (r: Option<string>)
    ensures r.Some? ==> r.value != ""
  {
    if row.taxClassification != "" then Some(row.taxClassification)
    else if row.itemCode !in db.items || db.items[row.itemCode].taxClassification == "" then None
    else Some(db.items[row.itemCode].taxClassification)
  }

  /** `fetch_tax_template_from_fbr_type`: the FBR Transaction Type's tax
      template, when the type is found and names one. */
  function FbrTemplate(fbrType: string, db: Db): (r: Option<string>)
    ensures r.Some? <==> fbrType in db.fbrTypes && db.fbrTypes[fbrType].taxTemplate != ""
    ensures r.Some? ==> r.value == db.fbrTypes[fbrType].taxTemplate
  {
    if fbrType in db.fbrTypes && db.fbrTypes[fbrType].taxTemplate != ""
    then Some(db.fbrTypes[fbrType].taxTemplate) else None
  }

  /** The template the summary helpers reach from a row: through its
      classification and the FBR Transaction Type only. */
  function RowFbrTemplate(row: LineInput, db: Db): Option<string>
  {
    match RowClassification(row, db)
    case None => None
    case Some(cls) => FbrTemplate(cls, db)
  }

  /** `get_tax_accounts_for_row`. */
  function AccountsForRow(row: LineInput, db: Db): Accounts
  {
    match RowFbrTemplate(row, db)
    case None => NO_ACCOUNTS
    case Some(name) => TemplateAccounts(name, db)
  }

  /** The helpers do not consult the row's `item_tax_template` nor the Item's
      taxes table: two rows that differ only there get the same accounts.
      (The calculator does consult them, so the two can disagree.) */
  lemma AccountsIgnoreRowTemplate(row: LineInput, db: Db, template: string, item: Item)
    requires row.itemCode in db.items
    requires item.taxClassification == db.items[row.itemCode].taxClassification
    ensures AccountsForRow(row.(itemTaxTemplate := template), db.(items := db.items[row.itemCode := item]))
         == AccountsForRow(row, db)
  {
  }

  // ---------------------------------------------------------------------
  // Advance tax (236G)

  datatype Advance = Advance(rate: real, account: string)

  const NO_ADVANCE := Advance(0.0, "")

  /** `account_head || tax_account`. */
  function AdvanceAccount(row: ItemTaxRow): string
  {
    if row.accountHead != "" then row.accountHead else row.taxAccount
  }

  /** `extract_advance_tax_from_template`: the rate and account of the
      template's last 236G row. */
  function TemplateAdvance(name: string, db: Db): Advance
  {
    if name !in db.itemTaxTemplates then NO_ADVANCE
    else
      match LastOf(db.itemTaxTemplates[name].taxes, ADVANCE_236G)
      case None => NO_ADVANCE
      case Some(r) => Advance(r.taxRate, AdvanceAccount(r))
  }

  /** `get_advance_tax_from_template_for_row`. */
  function AdvanceForRow(row: LineInput, db: Db): Advance
  {
    match RowFbrTemplate(row, db)
    case None => NO_ADVANCE
    case Some(name) => TemplateAdvance(name, db)
  }

  /** The last 236G row of a Sales or Purchase Taxes and Charges Template. */
  function LastCharge236G(taxes: seq<ChargeTemplateRow>): (r: Option<ChargeTemplateRow>)
    ensures r.Some? ==> r.value in taxes && r.value.category == ADVANCE_236G
  {
    if |taxes| == 0 then None
    else if taxes[|taxes| - 1].category == ADVANCE_236G then Some(taxes[|taxes| - 1])
    else LastCharge236G(taxes[..|taxes| - 1])
  }

  /** `get_advance_tax_from_template`: the 236G rate and account of the
      Sales (on a Sales Invoice) or Purchase Taxes and Charges Template. */
  function ChargeTemplateAdvance(doctype: string, name: string, db: Db): Advance
  {
    var templates := if doctype == SALES_INVOICE then db.salesTemplates else db.purchaseTemplates;
    if name == "" || name !in templates then NO_ADVANCE
    else
      match LastCharge236G(templates[name].taxes)
      case None => NO_ADVANCE
      case Some(r) => Advance(r.rate, r.accountHead)
  }

  /** The row picked is the last 236G row of the template. */
  lemma {:induction false} LastCharge236GAt(taxes: seq<ChargeTemplateRow>, k: nat)
    requires k < |taxes| && taxes[k].category == ADVANCE_236G
    requires forall j :: k < j < |taxes| ==> taxes[j].category != ADVANCE_236G
    ensures LastCharge236G(taxes) == Some(taxes[k])
  {
    if k < |taxes| - 1 {
      LastCharge236GAt(taxes[..|taxes| - 1], k);
    }
  }

  // ---------------------------------------------------------------------
  // Preserved 236G rows of a Purchase Invoice

  predicate Is236G(t: ChargeRow)
  {
    t.customTaxCategory == ADVANCE_236G || t.taxCategory == ADVANCE_236G
  }

  /** The fields a preserved row keeps; the rest take their defaults. */
  function Keep(t: ChargeRow): ChargeRow
  {
    ChargeRow(t.chargeType, t.accountHead, t.description, t.taxAmount,
              t.customTaxCategory, t.taxCategory, t.costCenter, t.rate, "", "")
  }

  /** The 236G rows of the table, in order, with the fields they keep. */
  function Preserved(taxes: seq<ChargeRow>): seq<ChargeRow>
  {
    if |taxes| == 0 then []
    else
      var last := taxes[|taxes| - 1];
      Preserved(taxes[..|taxes| - 1]) + (if Is236G(last) then [Keep(last)] else [])
  }

  /** A row is preserved exactly when it is the kept part of a 236G row of
      the table. */
  lemma {:induction false} PreservedMembers(taxes: seq<ChargeRow>)
    ensures forall r :: r in Preserved(taxes) <==> exists t :: t in taxes && Is236G(t) && r == Keep(t)
  {
    if |taxes| > 0 {
      var init := taxes[..|taxes| - 1];
      PreservedMembers(init);
      assert taxes == init + [taxes[|taxes| - 1]];
    }
  }

  lemma {:induction false} PreservedAppend(a: seq<ChargeRow>, b: seq<ChargeRow>)
    ensures Preserved(a + b) == Preserved(a) + Preserved(b)
  {
    if |b| > 0 {
      assert (a + b)[..|a + b| - 1] == a + b[..|b| - 1];
      PreservedAppend(a, b[..|b| - 1]);
    } else {
      assert a + b == a;
    }
  }

  /** Preserving twice keeps the same rows. */
  lemma {:induction false} PreservedIdempotent(taxes: seq<ChargeRow>)
    ensures Preserved(Preserved(taxes)) == Preserved(taxes)
  {
    if |taxes| > 0 {
      var init := taxes[..|taxes| - 1];
      var last := taxes[|taxes| - 1];
      PreservedIdempotent(init);
      var tail := if Is236G(last) then [Keep(last)] else [];
      PreservedAppend(Preserved(init), tail);
      if Is236G(last) {
        assert tail[..0] == [];
      }
    }
  }

  /** The sum of the rows' tax amounts. */
  function AmountSum(rows: seq<ChargeRow>): real
  {
    if |rows| == 0 then 0.0 else AmountSum(rows[..|rows| - 1]) + rows[|rows| - 1].taxAmount
  }

  lemma {:induction false} AmountSumAppend(a: seq<ChargeRow>, b: seq<ChargeRow>)
    ensures AmountSum(a + b) == AmountSum(a) + AmountSum(b)
  {
    if |b| > 0 {
      assert (a + b)[..|a + b| - 1] == a + b[..|b| - 1];
      AmountSumAppend(a, b[..|b| - 1]);
    } else {
      assert a + b == a;
    }
  }

  // ---------------------------------------------------------------------
  // The rebuilt table

  /** An "Actual" summary row. */
  function SummaryRow(account: string, description: string, amount: real, category: string, rate: real): ChargeRow
  {
    ChargeRow("Actual", account, description, amount, category, category, "", rate, "", "")
  }

  const SALES_TAX_DESCRIPTION := "Sales Tax (Item Level)"
  const FURTHER_TAX_DESCRIPTION := "Further Tax (Item Level)"
  const SALES_236G_DESCRIPTION := "Advance Income Tax (236G)"
  const PURCHASE_236G_DESCRIPTION := "Withholding Tax (236G)"

  /** The 236G rows and the advance tax counted in the total. */
  datatype AdvanceOutcome = AdvanceOutcome(rows: seq<ChargeRow>, amount: real)

  /** On a Sales Invoice the advance tax is the rate on the inclusive
      total, with a row when it is positive and has an account. On a
      Purchase Invoice a template 236G rate with an account does the same
      (the row carries the rate); otherwise the preserved rows come back
      and their amounts make the advance tax. Other documents have none. */
  function AdvanceRows(doctype: string, inclusive: real, adv: Advance, preserved: seq<ChargeRow>): AdvanceOutcome
  {
    if doctype == SALES_INVOICE then
      var amount := adv.rate * 0.01 * inclusive;
      AdvanceOutcome(
        if amount > 0.0 && adv.account != ""
        then [SummaryRow(adv.account, SALES_236G_DESCRIPTION, amount, ADVANCE_236G, 0.0)] else [],
        amount)
    else if doctype == PURCHASE_INVOICE then
      if adv.rate != 0.0 && adv.account != "" then
        var amount := adv.rate * 0.01 * inclusive;
        AdvanceOutcome(
          if amount > 0.0 then [SummaryRow(adv.account, PURCHASE_236G_DESCRIPTION, amount, ADVANCE_236G, adv.rate)] else [],
          amount)
      else AdvanceOutcome(preserved, AmountSum(preserved))
    else AdvanceOutcome([], 0.0)
  }

  /** What a summary rebuild does to the form. */
  datatype SummaryEffect =
    | NoChange                                  // no item rows
    | ClearedOnly                               // no row has taxes: the table is emptied
    | Rebuilt(taxes: seq<ChargeRow>, total: real)

  /** The Sales Tax row: present when the total is positive and the
      account is known. */
  function SalesTaxRows(totals: Totals, accounts: Accounts): seq<ChargeRow>
  {
    if totals.st > 0.0 && accounts.salesTax != ""
    then [SummaryRow(accounts.salesTax, SALES_TAX_DESCRIPTION, totals.st, SALES_TAX, 0.0)] else []
  }

  /** The Further Tax row, under the same condition. */
  function FurtherTaxRows(totals: Totals, accounts: Accounts): seq<ChargeRow>
  {
    if totals.furtherTax > 0.0 && accounts.furtherTax != ""
    then [SummaryRow(accounts.furtherTax, FURTHER_TAX_DESCRIPTION, totals.furtherTax, FURTHER_SALES_TAX, 0.0)] else []
  }

  function PreservedFor(doctype: string, current: seq<ChargeRow>): seq<ChargeRow>
  {
    if doctype == PURCHASE_INVOICE then Preserved(current) else []
  }

  /** The table rebuilt from the totals, the accounts, the advance tax and
      the current table. */
  function Rebuild(doctype: string, totals: Totals, accounts: Accounts, adv: Advance, current: seq<ChargeRow>): SummaryEffect
  {
    var advance := AdvanceRows(doctype, totals.inclusive, adv, PreservedFor(doctype, current));
    Rebuilt(SalesTaxRows(totals, accounts) + FurtherTaxRows(totals, accounts) + advance.rows,
            totals.st + totals.furtherTax + advance.amount)
  }

  /** The accounts of the first taxed row: from its cached template, or
      else looked up through its classification. */
  function SummaryAccounts(first: LineInput, cache: map<string, ItemTaxTemplate>, db: Db): Accounts
  {
    var key := CacheKey(first.itemCode);
    if key in cache then AccountsOf(cache[key].taxes, TaxTypeField) else AccountsForRow(first, db)
  }

  /** `apply_tax_summary`: what one rebuild does, given the item rows, the
      current table, the template cache and the master data. */
  function TaxSummary(doctype: string, lines: seq<Line>, current: seq<ChargeRow>,
                      cache: map<string, ItemTaxTemplate>, db: Db): SummaryEffect
  {
    if |lines| == 0 then NoChange
    else
      match FirstTaxed(lines)
      case None => ClearedOnly
      case Some(first) =>
        Rebuild(doctype, RowTotals(lines), SummaryAccounts(first.input, cache, db),
                AdvanceForRow(first.input, db), current)
  }

  // ---------------------------------------------------------------------
  // Properties of the summary

  /** The three outcomes: nothing happens without item rows; the table is
      only cleared when no row has a positive sales or further tax;
      otherwise it is rebuilt. */
  lemma SummaryCases(doctype: string, lines: seq<Line>, current: seq<ChargeRow>,
                     cache: map<string, ItemTaxTemplate>, db: Db)
    ensures TaxSummary(doctype, lines, current, cache, db) == NoChange <==> |lines| == 0
    ensures TaxSummary(doctype, lines, current, cache, db) == ClearedOnly
      <==> |lines| > 0 && forall i :: 0 <= i < |lines| ==> !IsTaxed(lines[i].taxes)
  {
    FirstTaxedNone(lines);
  }

  /** A return invoice, whose rows all carry non-positive taxes, only has
      its table cleared. */
  lemma ReturnInvoiceClearsTable(doctype: string, lines: seq<Line>, current: seq<ChargeRow>,
                                 cache: map<string, ItemTaxTemplate>, db: Db)
    requires |lines| > 0
    requires forall i :: 0 <= i < |lines| ==> lines[i].taxes.st <= 0.0 && lines[i].taxes.furtherTax <= 0.0
    ensures TaxSummary(doctype, lines, current, cache, db) == ClearedOnly
  {
    SummaryCases(doctype, lines, current, cache, db);
  }

  /** The total is the rows' sales tax plus their further tax plus the
      advance tax; it exceeds the sum of the table's amounts by exactly the
      amounts that got no row (for want of an account or of a positive
      amount). */
  lemma RebuildTotal(doctype: string, totals: Totals, accounts: Accounts, adv: Advance, current: seq<ChargeRow>)
    ensures var e := Rebuild(doctype, totals, accounts, adv, current);
      var advance := AdvanceRows(doctype, totals.inclusive, adv, PreservedFor(doctype, current));
      && e.Rebuilt?
      && e.total == totals.st + totals.furtherTax + advance.amount
      && e.total == AmountSum(e.taxes)
           + (if SalesTaxRows(totals, accounts) == [] then totals.st else 0.0)
           + (if FurtherTaxRows(totals, accounts) == [] then totals.furtherTax else 0.0)
           + (if advance.rows == [] then advance.amount else 0.0)
  {
    var stRows := SalesTaxRows(totals, accounts);
    var ftRows := FurtherTaxRows(totals, accounts);
    var advance := AdvanceRows(doctype, totals.inclusive, adv, PreservedFor(doctype, current));
    AmountSumAppend(stRows + ftRows, advance.rows);
    AmountSumAppend(stRows, ftRows);
    if stRows != [] { SingleRowAmount(stRows); }
    if ftRows != [] { SingleRowAmount(ftRows); }
    AdvanceRowsAmount(doctype, totals.inclusive, adv, PreservedFor(doctype, current));
  }

  lemma SingleRowAmount(rows: seq<ChargeRow>)
    requires |rows| == 1
    ensures AmountSum(rows) == rows[0].taxAmount
  {
    assert rows[..0] == [];
  }

  /** The 236G rows carry the advance tax, unless there are none. */
  lemma AdvanceRowsAmount(doctype: string, inclusive: real, adv: Advance, preserved: seq<ChargeRow>)
    ensures var advance := AdvanceRows(doctype, inclusive, adv, preserved);
      advance.rows != [] ==> AmountSum(advance.rows) == advance.amount
  {
    var advance := AdvanceRows(doctype, inclusive, adv, preserved);
    if advance.rows != [] && (doctype != PURCHASE_INVOICE || (adv.rate != 0.0 && adv.account != "")) {
      SingleRowAmount(advance.rows);
    }
  }

  /** No summary row is a 236G row of the Sales or Further Sales Tax kind,
      so a rebuilt table preserves only its 236G rows. */
  lemma SummaryRowsNotPreserved(totals: Totals, accounts: Accounts)
    ensures Preserved(SalesTaxRows(totals, accounts)) == []
    ensures Preserved(FurtherTaxRows(totals, accounts)) == []
  {
    var st := SalesTaxRows(totals, accounts);
    var ft := FurtherTaxRows(totals, accounts);
    if st != [] { assert st[..0] == []; }
    if ft != [] { assert ft[..0] == []; }
  }

  /** Rebuilding a rebuilt table with the same inputs changes nothing: the
      summary rows are not preserved, and preserved rows are preserved
      again unchanged. */
  lemma RebuildIdempotent(doctype: string, totals: Totals, accounts: Accounts, adv: Advance, current: seq<ChargeRow>)
    ensures var e := Rebuild(doctype, totals, accounts, adv, current);
      Rebuild(doctype, totals, accounts, adv, e.taxes) == e
  {
    if doctype == PURCHASE_INVOICE && !(adv.rate != 0.0 && adv.account != "") {
      var st := SalesTaxRows(totals, accounts);
      var ft := FurtherTaxRows(totals, accounts);
      var kept := Preserved(current);
      SummaryRowsNotPreserved(totals, accounts);
      PreservedAppend(st + ft, kept);
      PreservedAppend(st, ft);
      PreservedIdempotent(current);
      assert Preserved(st + ft + kept) == kept;
    }
  }

  /** Running the summary again on the table it produced gives the same
      table and total. */
  lemma TaxSummaryIdempotent(doctype: string, lines: seq<Line>, current: seq<ChargeRow>,
                             cache: map<string, ItemTaxTemplate>, db: Db)
    ensures match TaxSummary(doctype, lines, current, cache, db)
      case NoChange => TaxSummary(doctype, lines, [], cache, db) == NoChange
      case ClearedOnly => TaxSummary(doctype, lines, [], cache, db) == ClearedOnly
      case Rebuilt(t, total) => TaxSummary(doctype, lines, t, cache, db) == Rebuilt(t, total)
  {
    if |lines| > 0 && FirstTaxed(lines).Some? {
      var first := FirstTaxed(lines).value;
      RebuildIdempotent(doctype, RowTotals(lines), SummaryAccounts(first.input, cache, db),
                        AdvanceForRow(first.input, db), current);
    }
  }

  /** On a Sales Invoice the old table plays no part; the table holds a
      Sales Tax row exactly when the sales tax total is positive and has an
      account, likewise for Further Tax, and a 236G row exactly when the
      advance tax is positive and has an account. */
  lemma SalesInvoiceTable(totals: Totals, accounts: Accounts, adv: Advance, current: seq<ChargeRow>)
    ensures var e := Rebuild(SALES_INVOICE, totals, accounts, adv, current);
      && e == Rebuild(SALES_INVOICE, totals, accounts, adv, [])
      && |e.taxes| <= 3
      && ((exists r :: r in e.taxes && r.customTaxCategory == SALES_TAX)
          <==> totals.st > 0.0 && accounts.salesTax != "")
      && ((exists r :: r in e.taxes && r.customTaxCategory == FURTHER_SALES_TAX)
          <==> totals.furtherTax > 0.0 && accounts.furtherTax != "")
      && ((exists r :: r in e.taxes && r.customTaxCategory == ADVANCE_236G)
          <==> adv.rate * 0.01 * totals.inclusive > 0.0 && adv.account != "")
      && e.total == totals.st + totals.furtherTax + adv.rate * 0.01 * totals.inclusive
  {
    var e := Rebuild(SALES_INVOICE, totals, accounts, adv, current);
    var st := SalesTaxRows(totals, accounts);
    var ft := FurtherTaxRows(totals, accounts);
    var advance := AdvanceRows(SALES_INVOICE, totals.inclusive, adv, []);
    assert e.taxes == st + ft + advance.rows;
    assert forall r :: r in e.taxes <==> r in st || r in ft || r in advance.rows;
  }


  /** For every doctype: the rebuilt table opens with the Sales Tax row
      when the sales tax total is positive and has an account, then the
      Further Tax row under the same rule for the further tax, each for its
      total; every later row is a 236G row. So a Sales Tax (Further Tax) row
      that is not a 236G row is present exactly under its rule, and the
      total counts both tax totals whether or not they got a row. */
  lemma RebuildTaxRows(doctype: string, totals: Totals, accounts: Accounts, adv: Advance, current: seq<ChargeRow>)
    ensures var e := Rebuild(doctype, totals, accounts, adv, current);
      var hasSt := totals.st > 0.0 && accounts.salesTax != "";
      var hasFt := totals.furtherTax > 0.0 && accounts.furtherTax != "";
      var n := (if hasSt then 1 else 0) + (if hasFt then 1 else 0);
      && n <= |e.taxes|
      && (hasSt ==> e.taxes[0] == SummaryRow(accounts.salesTax, SALES_TAX_DESCRIPTION, totals.st, SALES_TAX, 0.0))
      && (hasFt ==> e.taxes[n - 1] == SummaryRow(accounts.furtherTax, FURTHER_TAX_DESCRIPTION, totals.furtherTax, FURTHER_SALES_TAX, 0.0))
      && (forall k :: n <= k < |e.taxes| ==> Is236G(e.taxes[k]))
      && ((exists k :: 0 <= k < |e.taxes| && !Is236G(e.taxes[k]) && e.taxes[k].customTaxCategory == SALES_TAX) <==> hasSt)
      && ((exists k :: 0 <= k < |e.taxes| && !Is236G(e.taxes[k]) && e.taxes[k].customTaxCategory == FURTHER_SALES_TAX) <==> hasFt)
      && e.total == totals.st + totals.furtherTax + AdvanceRows(doctype, totals.inclusive, adv, PreservedFor(doctype, current)).amount
  {
    var e := Rebuild(doctype, totals, accounts, adv, current);
    var st := SalesTaxRows(totals, accounts);
    var ft := FurtherTaxRows(totals, accounts);
    var advance := AdvanceRows(doctype, totals.inclusive, adv, PreservedFor(doctype, current));
    assert e.taxes == st + ft + advance.rows;
    AdvanceRowsAre236G(doctype, totals.inclusive, adv, current);
    forall k | |st| + |ft| <= k < |e.taxes| ensures Is236G(e.taxes[k]) {
      assert e.taxes[k] == advance.rows[k - |st| - |ft|];
    }
    forall k | 0 <= k < |st| + |ft| ensures !Is236G(e.taxes[k]) {
      if k < |st| { assert e.taxes[k] == st[k]; } else { assert e.taxes[k] == ft[k - |st|]; }
    }
    if st != [] { assert e.taxes[0] == st[0]; }
    if ft != [] { assert e.taxes[|st|] == ft[0]; }
  }

  /** The advance rows of any doctype are 236G rows. */
  lemma AdvanceRowsAre236G(doctype: string, inclusive: real, adv: Advance, current: seq<ChargeRow>)
    ensures var rows := AdvanceRows(doctype, inclusive, adv, PreservedFor(doctype, current)).rows;
      forall k :: 0 <= k < |rows| ==> Is236G(rows[k])
  {
    var rows := AdvanceRows(doctype, inclusive, adv, PreservedFor(doctype, current)).rows;
    PreservedMembers(current);
    forall k | 0 <= k < |rows| ensures Is236G(rows[k]) {
      assert rows[k] in rows;
    }
  }
  /** On a Purchase Invoice a 236G rate with an account in the template
      supersedes the manually added 236G rows: the only 236G row left is the
      template's, present exactly when its amount is positive. Otherwise the
      manually added 236G rows come back, each with the fields it keeps,
      and their amounts make the advance tax. */
  lemma PurchaseInvoice236G(totals: Totals, accounts: Accounts, adv: Advance, current: seq<ChargeRow>)
    ensures var e := Rebuild(PURCHASE_INVOICE, totals, accounts, adv, current);
      && (adv.rate != 0.0 && adv.account != "" ==>
            && (forall r :: r in e.taxes && Is236G(r) ==>
                  r == SummaryRow(adv.account, PURCHASE_236G_DESCRIPTION, adv.rate * 0.01 * totals.inclusive,
                                  ADVANCE_236G, adv.rate))
            && ((exists r :: r in e.taxes && Is236G(r)) <==> adv.rate * 0.01 * totals.inclusive > 0.0)
            && e.total == totals.st + totals.furtherTax + adv.rate * 0.01 * totals.inclusive)
      && (!(adv.rate != 0.0 && adv.account != "") ==>
            && (forall r :: r in e.taxes && Is236G(r) <==> exists t :: t in current && Is236G(t) && r == Keep(t))
            && e.total == totals.st + totals.furtherTax + AmountSum(Preserved(current)))
  {
    var e := Rebuild(PURCHASE_INVOICE, totals, accounts, adv, current);
    var st := SalesTaxRows(totals, accounts);
    var ft := FurtherTaxRows(totals, accounts);
    var advance := AdvanceRows(PURCHASE_INVOICE, totals.inclusive, adv, Preserved(current));
    assert e.taxes == st + ft + advance.rows;
    assert forall r :: r in e.taxes <==> r in st || r in ft || r in advance.rows;
    assert forall r :: r in st || r in ft ==> !Is236G(r);
    PreservedMembers(current);
    if adv.rate != 0.0 && adv.account != "" && adv.rate * 0.01 * totals.inclusive > 0.0 {
      assert advance.rows[0] in e.taxes && Is236G(advance.rows[0]);
    }
  }

  // ---------------------------------------------------------------------
  // The summary, step by step

  /** The `forEach` of `calculate_row_tax_totals`. */
  method CalculateRowTaxTotals(rows: seq<ItemRow>) returns (t: Totals)
    ensures t == RowTotals(LinesOf(rows))
  {
    var lines := LinesOf(rows);
    t := Totals(0.0, 0.0, 0.0);
    var i := 0;
    while i < |rows|
      invariant 0 <= i <= |rows|
      invariant t == RowTotals(lines[..i])
    {
      assert lines[..i + 1][..i] == lines[..i];
      t := Totals(t.st + rows[i].st, t.furtherTax + rows[i].furtherTax, t.inclusive + rows[i].totalInclTax);
      i := i + 1;
    }
    assert lines[..i] == lines;
  }

  /** The `filter` for rows with taxes, of which only the first is used. */
  method FindFirstTaxed(rows: seq<ItemRow>) returns (first: Option<Line>)
    ensures first == FirstTaxed(LinesOf(rows))
  {
    var lines := LinesOf(rows);
    var i := 0;
    while i < |rows|
      invariant 0 <= i <= |rows|
      invariant FirstTaxed(lines) == FirstTaxed(lines[i..])
    {
      assert lines[i..][1..] == lines[i + 1..];
      if rows[i].st > 0.0 || rows[i].furtherTax > 0.0 {
        return Some(Line(rows[i].Input(), rows[i].Taxes()));
      }
      i := i + 1;
    }
    return None;
  }

  /** The `forEach` of `extract_accounts_from_cached_template` (reading
      `tax_type`) and of `extract_accounts_from_template` (reading
      `account_head`). */
  method ExtractAccounts(taxes: seq<ItemTaxRow>, field: AccountField) returns (a: Accounts)
    ensures a == AccountsOf(taxes, field)
  {
    a := NO_ACCOUNTS;
    var i := 0;
    while i < |taxes|
      invariant 0 <= i <= |taxes|
      invariant a == AccountsOf(taxes[..i], field)
    {
      assert taxes[..i + 1][..i] == taxes[..i];
      var tax := taxes[i];
      if tax.category == SALES_TAX {
        a := a.(salesTax := AccountIn(tax, field));
      } else if tax.category == FURTHER_SALES_TAX {
        a := a.(furtherTax := AccountIn(tax, field));
      } else if tax.category == ADVANCE_236G {
        a := a.(advanceTax := AccountIn(tax, field));
      }
      i := i + 1;
    }
    assert taxes[..i] == taxes;
  }

  /** `extract_accounts_from_template`. */
  method ExtractAccountsFromTemplate(name: string, db: Db) returns (a: Accounts)
    ensures a == TemplateAccounts(name, db)
  {
    if name == "" {
      return NO_ACCOUNTS;
    }
    var template := Lookup(db.itemTaxTemplates, name);
    if template.None? {
      return NO_ACCOUNTS;
    }
    a := ExtractAccounts(template.value.taxes, AccountHeadField);
  }

  /** The classification lookup shared by the two row helpers. */
  method FetchRowFbrTemplate(row: LineInput, db: Db) returns (name: Option<string>)
    ensures name == RowFbrTemplate(row, db)
  {
    var cls := row.taxClassification;
    if cls == "" {
      var item := Lookup(db.items, row.itemCode);
      if item.None? || item.value.taxClassification == "" {
        return None;
      }
      cls := item.value.taxClassification;
    }
    var fbr := Lookup(db.fbrTypes, cls);
    if fbr.Some? && fbr.value.taxTemplate != "" {
      return Some(fbr.value.taxTemplate);
    }
    return None;
  }

  /** `get_tax_accounts_for_row`. */
  method GetTaxAccountsForRow(row: LineInput, db: Db) returns (a: Accounts)
    ensures a == AccountsForRow(row, db)
  {
    var name := FetchRowFbrTemplate(row, db);
    if name.None? {
      return NO_ACCOUNTS;
    }
    a := ExtractAccountsFromTemplate(name.value, db);
  }

  /** `extract_advance_tax_from_template`. */
  method ExtractAdvanceTaxFromTemplate(name: string, db: Db) returns (adv: Advance)
    ensures adv == TemplateAdvance(name, db)
  {
    var template := Lookup(db.itemTaxTemplates, name);
    if template.None? {
      return NO_ADVANCE;
    }
    var taxes := template.value.taxes;
    adv := NO_ADVANCE;
    var i := 0;
    while i < |taxes|
      invariant 0 <= i <= |taxes|
      invariant adv == match LastOf(taxes[..i], ADVANCE_236G)
                       case None => NO_ADVANCE
                       case Some(r) => Advance(r.taxRate, AdvanceAccount(r))
    {
      assert taxes[..i + 1][..i] == taxes[..i];
      if taxes[i].category == ADVANCE_236G {
        adv := Advance(taxes[i].taxRate, AdvanceAccount(taxes[i]));
      }
      i := i + 1;
    }
    assert taxes[..i] == taxes;
  }

  /** `get_advance_tax_from_template_for_row`. */
  method GetAdvanceTaxForRow(row: LineInput, db: Db) returns (adv: Advance)
    ensures adv == AdvanceForRow(row, db)
  {
    var name := FetchRowFbrTemplate(row, db);
    if name.None? {
      return NO_ADVANCE;
    }
    adv := ExtractAdvanceTaxFromTemplate(name.value, db);
  }

  /** `get_advance_tax_from_template`. */
  method GetAdvanceTaxFromTemplate(doctype: string, name: string, db: Db) returns (adv: Advance)
    ensures adv == ChargeTemplateAdvance(doctype, name, db)
  {
    if name == "" {
      return NO_ADVANCE;
    }
    var templates := if doctype == SALES_INVOICE then db.salesTemplates else db.purchaseTemplates;
    var template := Lookup(templates, name);
    if template.None? {
      return NO_ADVANCE;
    }
    var taxes := template.value.taxes;
    adv := NO_ADVANCE;
    var i := 0;
    while i < |taxes|
      invariant 0 <= i <= |taxes|
      invariant adv == match LastCharge236G(taxes[..i])
                       case None => NO_ADVANCE
                       case Some(r) => Advance(r.rate, r.accountHead)
    {
      assert taxes[..i + 1][..i] == taxes[..i];
      if taxes[i].category == ADVANCE_236G {
        adv := Advance(taxes[i].rate, taxes[i].accountHead);
      }
      i := i + 1;
    }
    assert taxes[..i] == taxes;
  }

  /** The `forEach` that collects the 236G rows of a Purchase Invoice. */
  method PreserveRows(taxes: seq<ChargeRow>) returns (kept: seq<ChargeRow>)
    ensures kept == Preserved(taxes)
  {
    kept := [];
    var i := 0;
    while i < |taxes|
      invariant 0 <= i <= |taxes|
      invariant kept == Preserved(taxes[..i])
    {
      assert taxes[..i + 1][..i] == taxes[..i];
      if taxes[i].customTaxCategory == ADVANCE_236G || taxes[i].taxCategory == ADVANCE_236G {
        kept := kept + [Keep(taxes[i])];
      }
      i := i + 1;
    }
    assert taxes[..i] == taxes;
  }

  /** The `forEach` that restores preserved rows and sums their amounts. */
  method RestoreRows(table: seq<ChargeRow>, preserved: seq<ChargeRow>) returns (table': seq<ChargeRow>, advance: real)
    ensures table' == table + preserved
    ensures advance == AmountSum(preserved)
  {
    table', advance := table, 0.0;
    var i := 0;
    while i < |preserved|
      invariant 0 <= i <= |preserved|
      invariant table' == table + preserved[..i]
      invariant advance == AmountSum(preserved[..i])
    {
      assert preserved[..i + 1][..i] == preserved[..i];
      assert preserved[..i + 1] == preserved[..i] + [preserved[i]];
      table' := table' + [preserved[i]];
      advance := advance + preserved[i].taxAmount;
      i := i + 1;
    }
    assert preserved[..i] == preserved;
  }

  /** The 236G part of `perform_tax_summary_update`. */
  method AddAdvanceRows(doctype: string, inclusive: real, adv: Advance, preserved: seq<ChargeRow>, table: seq<ChargeRow>)
    returns (table': seq<ChargeRow>, advanceTax: real)
    ensures var outcome := AdvanceRows(doctype, inclusive, adv, preserved);
      table' == table + outcome.rows && advanceTax == outcome.amount
  {
    ghost var outcome := AdvanceRows(doctype, inclusive, adv, preserved);
    table', advanceTax := table, 0.0;
    if doctype == SALES_INVOICE {
      advanceTax := adv.rate * 0.01 * inclusive;
      if advanceTax > 0.0 && adv.account != "" {
        var row := SummaryRow(adv.account, SALES_236G_DESCRIPTION, advanceTax, ADVANCE_236G, 0.0);
        assert outcome.amount == advanceTax;
        assert outcome == AdvanceOutcome([row], advanceTax);
        table' := table' + [row];
      } else {
        assert outcome.rows == [];
        assert table + [] == table;
      }
    } else if doctype == PURCHASE_INVOICE {
      if adv.rate != 0.0 && adv.account != "" {
        advanceTax := adv.rate * 0.01 * inclusive;
        if advanceTax > 0.0 {
          var row := SummaryRow(adv.account, PURCHASE_236G_DESCRIPTION, advanceTax, ADVANCE_236G, adv.rate);
          assert outcome.amount == advanceTax;
          assert outcome == AdvanceOutcome([row], advanceTax);
          table' := table' + [row];
        } else {
          assert outcome.rows == [];
          assert table + [] == table;
        }
      } else if |preserved| > 0 {
        table', advanceTax := RestoreRows(table', preserved);
      } else {
        assert table + preserved == table;
      }
    } else {
      assert table + [] == table;
    }
  }

  /** `perform_tax_summary_update`: with the accounts and the advance tax
      known, keeps the 236G rows of a Purchase Invoice, clears the table,
      adds the summary rows and sets the total. */
  method PerformTaxSummaryUpdate(form: Form, totals: Totals, accounts: Accounts, adv: Advance)
    modifies form
    ensures Rebuilt(form.taxes, form.totalTaxesAndCharges)
         == Rebuild(form.header.doctype, totals, accounts, adv, old(form.taxes))
  {
    var doctype := form.header.doctype;
    var preserved := [];
    if doctype == PURCHASE_INVOICE {
      preserved := PreserveRows(form.taxes);
    }
    assert preserved == PreservedFor(doctype, old(form.taxes));
    form.taxes := [];
    if totals.st > 0.0 && accounts.salesTax != "" {
      form.taxes := form.taxes + [SummaryRow(accounts.salesTax, SALES_TAX_DESCRIPTION, totals.st, SALES_TAX, 0.0)];
    }
    assert form.taxes == SalesTaxRows(totals, accounts);
    if totals.furtherTax > 0.0 && accounts.furtherTax != "" {
      form.taxes := form.taxes
        + [SummaryRow(accounts.furtherTax, FURTHER_TAX_DESCRIPTION, totals.furtherTax, FURTHER_SALES_TAX, 0.0)];
    }
    assert form.taxes == SalesTaxRows(totals, accounts) + FurtherTaxRows(totals, accounts);
    var advanceTax;
    form.taxes, advanceTax := AddAdvanceRows(doctype, totals.inclusive, adv, preserved, form.taxes);
    form.totalTaxesAndCharges := totals.st + totals.furtherTax + advanceTax;
  }

  /** The accounts and the advance tax of the first taxed row: from the
      cached template when there is one, else through the lookups. */
  method SummaryInputs(row: LineInput, cache: TemplateCache, db: Db) returns (accounts: Accounts, adv: Advance)
    ensures accounts == SummaryAccounts(row, cache.entries, db)
    ensures adv == AdvanceForRow(row, db)
  {
    var cached := cache.Get(CacheKey(row.itemCode));
    if cached.Some? {
      accounts := ExtractAccounts(cached.value.taxes, TaxTypeField);
    } else {
      accounts := GetTaxAccountsForRow(row, db);
    }
    adv := GetAdvanceTaxForRow(row, db);
  }

  /** `apply_tax_summary(frm)`: rewrites the form's `taxes` table and
      `total_taxes_and_charges` as `TaxSummary` says of the rows, the table
      and the cache at the call. */
  method ApplyTaxSummary(form: Form, cache: TemplateCache, db: Db)
    modifies form
    ensures match TaxSummary(form.header.doctype, old(LinesOf(form.items)), old(form.taxes), old(cache.entries), db)
      case NoChange =>
        form.taxes == old(form.taxes) && form.totalTaxesAndCharges == old(form.totalTaxesAndCharges)
      case ClearedOnly =>
        form.taxes == [] && form.totalTaxesAndCharges == old(form.totalTaxesAndCharges)
      case Rebuilt(t, total) =>
        form.taxes == t && form.totalTaxesAndCharges == total
  {
    var totals := CalculateRowTaxTotals(form.items);
    if |form.items| == 0 {
      return;
    }
    var first := FindFirstTaxed(form.items);
    if first.None? {
      form.taxes := [];
      return;
    }
    var accounts, adv := SummaryInputs(first.value.input, cache, db);
    PerformTaxSummaryUpdate(form, totals, accounts, adv);
  }

  /** A calculator call on one row of the form followed, whenever it wrote
      the row, by a summary rebuild over the updated rows. */
  method RecalculateRow(form: Form, row: ItemRow, mode: Override, db: Db, cache: TemplateCache) returns (written: bool)
    requires row in form.items
    modifies row, cache, form
    ensures row.Input() == old(row.Input())
    ensures var effect := CalculateLine(form.header, old(row.Input()), old(row.Taxes()), mode, db);
      && (written <==> effect.Written?)
      && (written ==> row.Taxes() == effect.taxes)
      && (!written ==> row.Taxes() == old(row.Taxes())
                       && form.taxes == old(form.taxes)
                       && form.totalTaxesAndCharges == old(form.totalTaxesAndCharges))
      && cache.entries == (if effect.Written? && effect.cached.Some?
                           then old(cache.entries)[CacheKey(row.itemCode) := effect.cached.value]
                           else old(cache.entries))
    ensures written ==>
      match TaxSummary(form.header.doctype, LinesOf(form.items), old(form.taxes), cache.entries, db)
      case NoChange => false
      case ClearedOnly => form.taxes == [] && form.totalTaxesAndCharges == old(form.totalTaxesAndCharges)
      case Rebuilt(t, total) => form.taxes == t && form.totalTaxesAndCharges == total
  {
    written := CalculateTaxes(form, row, mode, db, cache);
    if written {
      ghost var lines := LinesOf(form.items);
      ApplyTaxSummary(form, cache, db);
      assert LinesOf(form.items) == lines;
    }
  }
}
