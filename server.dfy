/** The server-side summary run on every save of a Sales or Purchase
    Invoice: the item-level tax fields already on the rows are summed, and
    the invoice's `taxes` table is replaced by a list of charge rows built
    from those sums, the company's accounts, the first 236G row of the
    Sales template, the Purchase Invoice's existing 236G rows, and freight. */
module ServerSummary {
  import opened Base
  import opened Records

  /** The Company fields the summary reads (a missing one is ""). */
  datatype Company = Company(
    vatInput: string,
    furtherTaxAccount: string,
    freightAccount: string,
    freightOnPurchaseAccount: string,
    costCenter: string)

  /** The invoice fields the summary reads. */
  datatype InvoiceHeader = InvoiceHeader(
    doctype: string,
    name: string,
    isReturn: int,
    company: string,
    taxTemplate: string,
    freightRule: string,
    freightAmount: real)

  /** The item-level tax fields of an item row (a missing one is 0). */
  datatype ItemFields = ItemFields(st: real, furtherTax: real, totalInclTax: real)

  /** The sums kept while walking the items. */
  datatype Sums = Sums(salesTax: real, furtherTax: real, inclusive: real)

  const SALES_TAX_DESCRIPTION := "Sales Tax (Item Level)"
  const FURTHER_TAX_DESCRIPTION := "Further Tax (Item Level)"
  const ADVANCE_DESCRIPTION := "Advance Income Tax (236G)"
  const SALES_FREIGHT_DESCRIPTION := "Freight (Paid by Customer)"
  const PAID_BY_CUSTOMER := "Paid By Customer"
  const FREIGHT := "Freight"

  /** A Python truthy `is_return` makes the amounts negative. */
  function Multiplier(isReturn: int): (m: real)
    ensures m == 1.0 || m == -1.0
    ensures m == -1.0 <==> isReturn != 0
  {
    if isReturn != 0 then -1.0 else 1.0
  }

  /** `x or d` on strings: the default replaces an empty value. */
  function OrDefault(x: string, d: string): (r: string)
    ensures x != "" ==> r == x
    ensures x == "" ==> r == d
  {
    if x != "" then x else d
  }

  /** The sums of the items' fields. */
  function SumItems(items: seq<ItemFields>): Sums
  {
    if |items| == 0 then Sums(0.0, 0.0, 0.0)
    else
      var s := SumItems(items[..|items| - 1]);
      var last := items[|items| - 1];
      Sums(s.salesTax + last.st, s.furtherTax + last.furtherTax, s.inclusive + last.totalInclTax)
  }

  /** The sums split over any division of the items. */
  lemma {:induction false} SumItemsAppend(a: seq<ItemFields>, b: seq<ItemFields>)
    ensures SumItems(a + b).salesTax == SumItems(a).salesTax + SumItems(b).salesTax
    ensures SumItems(a + b).furtherTax == SumItems(a).furtherTax + SumItems(b).furtherTax
    ensures SumItems(a + b).inclusive == SumItems(a).inclusive + SumItems(b).inclusive
  {
    if |b| == 0 {
      assert a + b == a;
    } else {
      var init := b[..|b| - 1];
      assert (a + b)[..|a + b| - 1] == a + init;
      assert (a + b)[|a + b| - 1] == b[|b| - 1];
      SumItemsAppend(a, init);
    }
  }

  /** A row the summary computes itself, with category Total and Add. */
  function ComputedRow(account: string, description: string, amount: real, category: string, costCenter: string): ChargeRow
  {
    ChargeRow("Actual", account, description, amount, category, category, costCenter, 0.0, "Total", "Add")
  }

  /** The Sales Tax and Further Tax rows: each only with a non-zero total
      and a company account. */
  function ItemTaxRows(m: real, sums: Sums, company: Company): seq<ChargeRow>
  {
    (if sums.salesTax != 0.0 && company.vatInput != ""
     then [ComputedRow(company.vatInput, SALES_TAX_DESCRIPTION, m * sums.salesTax, SALES_TAX, "")] else [])
    + (if sums.furtherTax != 0.0 && company.furtherTaxAccount != ""
       then [ComputedRow(company.furtherTaxAccount, FURTHER_TAX_DESCRIPTION, m * sums.furtherTax, FURTHER_SALES_TAX, "")] else [])
  }

  /** The first 236G row of a Sales Taxes and Charges Template. */
  function FirstAdvanceRow(rows: seq<ChargeTemplateRow>): (r: Option<ChargeTemplateRow>)
    ensures r.None? <==> forall j :: 0 <= j < |rows| ==> rows[j].category != ADVANCE_236G
    ensures r.Some? ==> r.value in rows && r.value.category == ADVANCE_236G
  {
    if |rows| == 0 then None
    else if rows[0].category == ADVANCE_236G then Some(rows[0])
    else
      var r := FirstAdvanceRow(rows[1..]);
      assert forall j :: 1 <= j < |rows| ==> rows[j] == rows[1..][j - 1];
      r
  }

  /** The 236G row of a Sales Invoice with a tax template: the template's
      first 236G row, kept only with a non-zero rate and an account; its
      amount is the rate on the tax-inclusive total. A template that cannot
      be fetched aborts the save. */
  function SalesAdvanceRows(h: InvoiceHeader, m: real, sums: Sums, templates: map<string, ChargeTemplate>, costCenter: string): Result<seq<ChargeRow>>
  {
    if h.doctype != SALES_INVOICE || h.taxTemplate == "" then Ok([])
    else if h.taxTemplate !in templates then Err(MissingRecord("Sales Taxes and Charges Template", h.taxTemplate))
    else
      match FirstAdvanceRow(templates[h.taxTemplate].taxes)
      case None => Ok([])
      case Some(row) => Ok(AdvanceRowFor(row, m, sums.inclusive, costCenter))
  }

  /** The 236G row for a template row: only with a non-zero rate and an
      account, for the signed rate on the tax-inclusive total. */
  function AdvanceRowFor(row: ChargeTemplateRow, m: real, inclusive: real, costCenter: string): (r: seq<ChargeRow>)
    ensures |r| <= 1
    ensures r != [] <==> row.rate != 0.0 && row.accountHead != ""
    ensures r != [] ==> r[0].accountHead == row.accountHead && r[0].taxAmount == m * Percent(row.rate, inclusive)
                        && IsAdvanceRow(r[0])
  {
    if row.rate != 0.0 && row.accountHead != "" then
      [ComputedRow(row.accountHead, ADVANCE_DESCRIPTION, m * Percent(row.rate, inclusive), ADVANCE_236G, costCenter)]
    else []
  }

  /** Rows whose `custom_tax_category` is 236G. */
  predicate IsAdvanceRow(t: ChargeRow)
  {
    t.customTaxCategory == ADVANCE_236G
  }

  /** A copied 236G row: every field kept, with the company cost center,
      Total and Add for the empty ones. */
  function CopyRow(t: ChargeRow, costCenter: string): (r: ChargeRow)
    ensures IsAdvanceRow(r) <==> IsAdvanceRow(t)
  {
    t.(costCenter := OrDefault(t.costCenter, costCenter),
       category := OrDefault(t.category, "Total"),
       addDeductTax := OrDefault(t.addDeductTax, "Add"))
  }

  /** The Purchase Invoice's existing 236G rows, copied in order. */
  function CopiedAdvanceRows(taxes: seq<ChargeRow>, costCenter: string): seq<ChargeRow>
  {
    if |taxes| == 0 then []
    else
      var last := taxes[|taxes| - 1];
      CopiedAdvanceRows(taxes[..|taxes| - 1], costCenter) + (if IsAdvanceRow(last) then [CopyRow(last, costCenter)] else [])
  }

  /** The freight row: on a Sales Invoice only when the customer pays it;
      on a Purchase Invoice whenever it is positive and the account is set;
      the amount is truncated to an integer. */
  function FreightRows(h: InvoiceHeader, company: Company): (r: seq<ChargeRow>)
  {
    if h.doctype == SALES_INVOICE then
      if h.freightRule == PAID_BY_CUSTOMER && h.freightAmount > 0.0 && company.freightAccount != "" then
        [ChargeRow("Actual", company.freightAccount, SALES_FREIGHT_DESCRIPTION, Trunc(h.freightAmount) as real,
                   FREIGHT, FREIGHT, company.costCenter, 0.0, "", "")]
      else []
    else if h.doctype == PURCHASE_INVOICE then
      if h.freightAmount > 0.0 && company.freightOnPurchaseAccount != "" then
        [ComputedRow(company.freightOnPurchaseAccount, "Freight (Paid by " + h.name + ")", Trunc(h.freightAmount) as real,
                     FREIGHT, company.costCenter)]
      else []
    else []
  }

  /** `apply_item_level_tax_summary`: the new `taxes` table, or the record
      whose fetch raised. */
  function ItemLevelSummary(h: InvoiceHeader, items: seq<ItemFields>, taxes: seq<ChargeRow>,
                            companies: map<string, Company>, templates: map<string, ChargeTemplate>): Result<seq<ChargeRow>>
  {
    if h.company !in companies then Err(MissingRecord("Company", h.company))
    else
      var company := companies[h.company];
      var m := Multiplier(h.isReturn);
      var sums := SumItems(items);
      match SalesAdvanceRows(h, m, sums, templates, company.costCenter)
      case Err(missing) => Err(missing)
      case Ok(advance) =>
        var copied := if h.doctype == PURCHASE_INVOICE then CopiedAdvanceRows(taxes, company.costCenter) else [];
        Ok(ItemTaxRows(m, sums, company) + advance + copied + FreightRows(h, company))
  }

  // ---------------------------------------------------------------------
  // Properties

  /** The save aborts exactly when the company cannot be fetched, or when a
      Sales Invoice names a tax template that cannot be fetched. */
  lemma SummaryFails(h: InvoiceHeader, items: seq<ItemFields>, taxes: seq<ChargeRow>,
                     companies: map<string, Company>, templates: map<string, ChargeTemplate>)
    ensures ItemLevelSummary(h, items, taxes, companies, templates).Err? <==>
      h.company !in companies || (h.doctype == SALES_INVOICE && h.taxTemplate != "" && h.taxTemplate !in templates)
  {
  }

  /** Every copied row is a 236G row of the table with its defaults filled
      in, and every 236G row of the table is copied. */
  lemma {:induction false} CopiedAdvanceRowsMembers(taxes: seq<ChargeRow>, costCenter: string)
    ensures forall r :: r in CopiedAdvanceRows(taxes, costCenter) <==>
      exists t :: t in taxes && IsAdvanceRow(t) && r == CopyRow(t, costCenter)
  {
    if |taxes| > 0 {
      var init := taxes[..|taxes| - 1];
      CopiedAdvanceRowsMembers(init, costCenter);
      assert taxes == init + [taxes[|taxes| - 1]];
    }
  }

  lemma {:induction false} CopiedAdvanceRowsAppend(a: seq<ChargeRow>, b: seq<ChargeRow>, costCenter: string)
    ensures CopiedAdvanceRows(a + b, costCenter) == CopiedAdvanceRows(a, costCenter) + CopiedAdvanceRows(b, costCenter)
  {
    if |b| == 0 {
      assert a + b == a;
    } else {
      var init := b[..|b| - 1];
      assert (a + b)[..|a + b| - 1] == a + init;
      assert (a + b)[|a + b| - 1] == b[|b| - 1];
      CopiedAdvanceRowsAppend(a, init, costCenter);
    }
  }

  /** A table with no 236G row contributes nothing. */
  lemma {:induction false} CopiedAdvanceRowsNone(taxes: seq<ChargeRow>, costCenter: string)
    requires forall i :: 0 <= i < |taxes| ==> !IsAdvanceRow(taxes[i])
    ensures CopiedAdvanceRows(taxes, costCenter) == []
  {
    if |taxes| > 0 {
      CopiedAdvanceRowsNone(taxes[..|taxes| - 1], costCenter);
    }
  }

  /** Copying the copied rows again changes nothing. */
  lemma {:induction false} CopiedAdvanceRowsIdempotent(taxes: seq<ChargeRow>, costCenter: string)
    ensures CopiedAdvanceRows(CopiedAdvanceRows(taxes, costCenter), costCenter) == CopiedAdvanceRows(taxes, costCenter)
  {
    if |taxes| > 0 {
      var init := taxes[..|taxes| - 1];
      var last := taxes[|taxes| - 1];
      CopiedAdvanceRowsIdempotent(init, costCenter);
      var tail := if IsAdvanceRow(last) then [CopyRow(last, costCenter)] else [];
      CopiedAdvanceRowsAppend(CopiedAdvanceRows(init, costCenter), tail, costCenter);
      if IsAdvanceRow(last) {
        assert tail[..0] == [];
      }
    }
  }

  /** The freight amount is the integer part of the invoice's freight. */
  lemma FreightTruncated(h: InvoiceHeader, company: Company)
    ensures forall r :: r in FreightRows(h, company) ==>
      && r.taxAmount == Trunc(h.freightAmount) as real
      && 0.0 <= r.taxAmount <= h.freightAmount < r.taxAmount + 1.0
  {
  }

  /** Rows that are 236G or freight rows. */
  predicate AdvanceOrFreight(rows: seq<ChargeRow>)
  {
    forall k :: 0 <= k < |rows| ==> rows[k].customTaxCategory == ADVANCE_236G || rows[k].customTaxCategory == FREIGHT
  }

  lemma AdvanceOrFreightConcat(a: seq<ChargeRow>, b: seq<ChargeRow>)
    requires AdvanceOrFreight(a) && AdvanceOrFreight(b)
    ensures AdvanceOrFreight(a + b)
  {
    assert forall k :: |a| <= k < |a + b| ==> (a + b)[k] == b[k - |a|];
  }

  /** After the Sales Tax and Further Tax rows come only 236G and freight
      rows. */
  lemma SummaryShape(h: InvoiceHeader, items: seq<ItemFields>, taxes: seq<ChargeRow>,
                     companies: map<string, Company>, templates: map<string, ChargeTemplate>)
    requires ItemLevelSummary(h, items, taxes, companies, templates).Ok?
    ensures var out := ItemLevelSummary(h, items, taxes, companies, templates).value;
      var head := ItemTaxRows(Multiplier(h.isReturn), SumItems(items), companies[h.company]);
      && |head| <= |out| && out[..|head|] == head && AdvanceOrFreight(out[|head|..])
  {
    var company := companies[h.company];
    var m := Multiplier(h.isReturn);
    var sums := SumItems(items);
    var head := ItemTaxRows(m, sums, company);
    var advance := SalesAdvanceRows(h, m, sums, templates, company.costCenter).value;
    var copied := if h.doctype == PURCHASE_INVOICE then CopiedAdvanceRows(taxes, company.costCenter) else [];
    var freight := FreightRows(h, company);
    var out := head + (advance + copied + freight);
    assert ItemLevelSummary(h, items, taxes, companies, templates).value == out;
    CopiedAdvanceRowsMembers(taxes, company.costCenter);
    assert AdvanceOrFreight(copied) by {
      forall k | 0 <= k < |copied| ensures IsAdvanceRow(copied[k]) {
        assert copied[k] in copied;
      }
    }
    AdvanceOrFreightConcat(advance, copied);
    AdvanceOrFreightConcat(advance + copied, freight);
    assert out[..|head|] == head;
    assert out[|head|..] == advance + copied + freight;
  }


  /** At most one freight row: on a Sales Invoice exactly when the customer
      pays a positive freight and the company has a freight account, on a
      Purchase Invoice exactly when the freight is positive and the company
      has a freight-on-purchase account, never on another doctype; the row
      is a Freight row on that account with the company cost center. */
  lemma FreightRowRule(h: InvoiceHeader, company: Company)
    ensures var r := FreightRows(h, company);
      && |r| <= 1
      && (r != [] <==>
            || (h.doctype == SALES_INVOICE && h.freightRule == PAID_BY_CUSTOMER && h.freightAmount > 0.0 && company.freightAccount != "")
            || (h.doctype == PURCHASE_INVOICE && h.freightAmount > 0.0 && company.freightOnPurchaseAccount != ""))
      && (r != [] ==>
            && r[0].customTaxCategory == FREIGHT && r[0].taxCategory == FREIGHT
            && r[0].accountHead == (if h.doctype == SALES_INVOICE then company.freightAccount else company.freightOnPurchaseAccount)
            && r[0].costCenter == company.costCenter
            && r[0].chargeType == "Actual")
  {
  }

  /** The order of the new table: the Sales Tax row, then the Further Tax
      row (each when present), then the 236G rows (at most the one from the
      Sales template, or the Purchase Invoice's own 236G rows in their
      order), and the freight row last; no row but the last is a freight
      row. */
  lemma SummaryOrder(h: InvoiceHeader, items: seq<ItemFields>, taxes: seq<ChargeRow>,
                     companies: map<string, Company>, templates: map<string, ChargeTemplate>)
    requires ItemLevelSummary(h, items, taxes, companies, templates).Ok?
    ensures var out := ItemLevelSummary(h, items, taxes, companies, templates).value;
      var company := companies[h.company];
      var freight := FreightRows(h, company);
      var n := |ItemTaxRows(Multiplier(h.isReturn), SumItems(items), company)|;
      && n <= |out| - |freight|
      && out[|out| - |freight|..] == freight
      && (forall k :: 0 <= k < n ==> out[k].customTaxCategory == SALES_TAX || out[k].customTaxCategory == FURTHER_SALES_TAX)
      && (n == 2 ==> out[0].customTaxCategory == SALES_TAX && out[1].customTaxCategory == FURTHER_SALES_TAX)
      && (forall k :: n <= k < |out| - |freight| ==> IsAdvanceRow(out[k]))
      && (forall k :: 0 <= k < |out| - |freight| ==> out[k].customTaxCategory != FREIGHT)
      && (h.doctype == PURCHASE_INVOICE ==> out[n..|out| - |freight|] == CopiedAdvanceRows(taxes, company.costCenter))
      && (h.doctype != PURCHASE_INVOICE ==> |out| - |freight| - n <= 1)
  {
    var company := companies[h.company];
    var m := Multiplier(h.isReturn);
    var sums := SumItems(items);
    var mid := MiddleRows(h, m, sums, taxes, templates, company.costCenter);
    SummaryParts(h, items, taxes, companies, templates);
    ItemTaxRowsOrder(m, sums, company);
    MiddleRowsShape(h, m, sums, taxes, templates, company.costCenter);
    PartsOrder(ItemTaxRows(m, sums, company), mid, FreightRows(h, company));
  }

  /** The rows between the Sales Tax and Further Tax rows and the freight
      row: the Sales template's 236G row, or the Purchase Invoice's copied
      236G rows. */
  function MiddleRows(h: InvoiceHeader, m: real, sums: Sums, taxes: seq<ChargeRow>,
                      templates: map<string, ChargeTemplate>, costCenter: string): seq<ChargeRow>
  {
    match SalesAdvanceRows(h, m, sums, templates, costCenter)
    case Err(_) => []
    case Ok(advance) => advance + (if h.doctype == PURCHASE_INVOICE then CopiedAdvanceRows(taxes, costCenter) else [])
  }

  /** A successful summary is the three parts in order. */
  lemma SummaryParts(h: InvoiceHeader, items: seq<ItemFields>, taxes: seq<ChargeRow>,
                     companies: map<string, Company>, templates: map<string, ChargeTemplate>)
    requires ItemLevelSummary(h, items, taxes, companies, templates).Ok?
    ensures var company := companies[h.company];
      var m := Multiplier(h.isReturn);
      var sums := SumItems(items);
      ItemLevelSummary(h, items, taxes, companies, templates).value
        == ItemTaxRows(m, sums, company) + MiddleRows(h, m, sums, taxes, templates, company.costCenter) + FreightRows(h, company)
  {
    var company := companies[h.company];
    var m := Multiplier(h.isReturn);
    var sums := SumItems(items);
    var mid := MiddleRows(h, m, sums, taxes, templates, company.costCenter);
    var head := ItemTaxRows(m, sums, company);
    var freight := FreightRows(h, company);
    assert ItemLevelSummary(h, items, taxes, companies, templates).value == head + mid + freight;
  }

  /** The middle rows are 236G rows: on a Purchase Invoice exactly the
      copied rows, otherwise at most one. */
  lemma MiddleRowsShape(h: InvoiceHeader, m: real, sums: Sums, taxes: seq<ChargeRow>,
                        templates: map<string, ChargeTemplate>, costCenter: string)
    requires SalesAdvanceRows(h, m, sums, templates, costCenter).Ok?
    ensures var mid := MiddleRows(h, m, sums, taxes, templates, costCenter);
      && AllAdvance(mid)
      && (h.doctype == PURCHASE_INVOICE ==> mid == CopiedAdvanceRows(taxes, costCenter))
      && (h.doctype != PURCHASE_INVOICE ==> |mid| <= 1)
  {
    SalesAdvanceRowsShape(h, m, sums, templates, costCenter);
    if h.doctype == PURCHASE_INVOICE {
      CopiedAdvanceRowsAreAdvance(taxes, costCenter);
      assert MiddleRows(h, m, sums, taxes, templates, costCenter) == [] + CopiedAdvanceRows(taxes, costCenter);
    } else {
      var advance := SalesAdvanceRows(h, m, sums, templates, costCenter).value;
      assert MiddleRows(h, m, sums, taxes, templates, costCenter) == advance + [];
    }
  }

  /** Rows that are all 236G rows. */
  predicate AllAdvance(rows: seq<ChargeRow>)
  {
    forall k :: 0 <= k < |rows| ==> IsAdvanceRow(rows[k])
  }

  /** Every copied row is a 236G row. */
  lemma CopiedAdvanceRowsAreAdvance(taxes: seq<ChargeRow>, costCenter: string)
    ensures AllAdvance(CopiedAdvanceRows(taxes, costCenter))
  {
    var copied := CopiedAdvanceRows(taxes, costCenter);
    CopiedAdvanceRowsMembers(taxes, costCenter);
    forall k | 0 <= k < |copied| ensures IsAdvanceRow(copied[k]) {
      assert copied[k] in copied;
    }
  }

  /** The Sales Tax and Further Tax rows, in that order. */
  lemma ItemTaxRowsOrder(m: real, sums: Sums, company: Company)
    ensures var head := ItemTaxRows(m, sums, company);
      && |head| <= 2
      && (forall k :: 0 <= k < |head| ==> head[k].customTaxCategory == SALES_TAX || head[k].customTaxCategory == FURTHER_SALES_TAX)
      && (|head| == 2 ==> head[0].customTaxCategory == SALES_TAX && head[1].customTaxCategory == FURTHER_SALES_TAX)
  {
  }

  /** The Sales template gives at most one row, and it is a 236G row. */
  lemma SalesAdvanceRowsShape(h: InvoiceHeader, m: real, sums: Sums, templates: map<string, ChargeTemplate>, costCenter: string)
    requires SalesAdvanceRows(h, m, sums, templates, costCenter).Ok?
    ensures var advance := SalesAdvanceRows(h, m, sums, templates, costCenter).value;
      && |advance| <= 1
      && AllAdvance(advance)
      && (h.doctype != SALES_INVOICE ==> advance == [])
  {
    if h.doctype == SALES_INVOICE && h.taxTemplate != "" {
      var first := FirstAdvanceRow(templates[h.taxTemplate].taxes);
      if first.Some? {
        assert SalesAdvanceRows(h, m, sums, templates, costCenter).value == AdvanceRowFor(first.value, m, sums.inclusive, costCenter);
      }
    }
  }

  /** Indexing into the three parts of the table. */
  lemma PartsOrder(head: seq<ChargeRow>, mid: seq<ChargeRow>, freight: seq<ChargeRow>)
    requires forall k :: 0 <= k < |head| ==> head[k].customTaxCategory == SALES_TAX || head[k].customTaxCategory == FURTHER_SALES_TAX
    requires |head| == 2 ==> head[0].customTaxCategory == SALES_TAX && head[1].customTaxCategory == FURTHER_SALES_TAX
    requires AllAdvance(mid)
    ensures var out := head + mid + freight;
      var n := |head|;
      && n <= |out| - |freight|
      && out[|out| - |freight|..] == freight
      && (forall k :: 0 <= k < n ==> out[k].customTaxCategory == SALES_TAX || out[k].customTaxCategory == FURTHER_SALES_TAX)
      && (n == 2 ==> out[0].customTaxCategory == SALES_TAX && out[1].customTaxCategory == FURTHER_SALES_TAX)
      && (forall k :: n <= k < |out| - |freight| ==> IsAdvanceRow(out[k]))
      && (forall k :: 0 <= k < |out| - |freight| ==> out[k].customTaxCategory != FREIGHT)
      && out[n..|out| - |freight|] == mid
  {
    var out := head + mid + freight;
    assert out[|head|..|out| - |freight|] == mid;
    assert out[|out| - |freight|..] == freight;
    forall k | 0 <= k < |out| - |freight|
      ensures k < |head| ==> out[k] == head[k]
      ensures |head| <= k ==> out[k] == mid[k - |head|]
    {
    }
  }

  /** The Sales Tax row: present exactly when the sales-tax total is
      non-zero (negative totals included) and the company has an input-tax
      account; it is then the first row, for the signed total. */
  lemma SalesTaxRowRule(h: InvoiceHeader, items: seq<ItemFields>, taxes: seq<ChargeRow>,
                        companies: map<string, Company>, templates: map<string, ChargeTemplate>)
    requires ItemLevelSummary(h, items, taxes, companies, templates).Ok?
    ensures var out := ItemLevelSummary(h, items, taxes, companies, templates).value;
      var sums := SumItems(items);
      var company := companies[h.company];
      && ((exists k :: 0 <= k < |out| && out[k].customTaxCategory == SALES_TAX) <==> sums.salesTax != 0.0 && company.vatInput != "")
      && (sums.salesTax != 0.0 && company.vatInput != "" ==>
            out[0] == ComputedRow(company.vatInput, SALES_TAX_DESCRIPTION, Multiplier(h.isReturn) * sums.salesTax, SALES_TAX, ""))
  {
    var out := ItemLevelSummary(h, items, taxes, companies, templates).value;
    var head := ItemTaxRows(Multiplier(h.isReturn), SumItems(items), companies[h.company]);
    SummaryShape(h, items, taxes, companies, templates);
    assert out == head + out[|head|..];
    CategoryOfHead(head, out[|head|..], SALES_TAX);
    if SumItems(items).salesTax != 0.0 && companies[h.company].vatInput != "" {
      assert out[0] == head[0];
    }
  }

  /** Rows of a category other than 236G and freight can only come from
      the head of a summary list. */
  lemma CategoryOfHead(head: seq<ChargeRow>, tail: seq<ChargeRow>, category: string)
    requires AdvanceOrFreight(tail) && category != ADVANCE_236G && category != FREIGHT
    ensures (exists k :: 0 <= k < |head + tail| && (head + tail)[k].customTaxCategory == category)
        <==> (exists k :: 0 <= k < |head| && head[k].customTaxCategory == category)
    ensures forall k :: 0 <= k < |head + tail| && (head + tail)[k].customTaxCategory == category ==>
      k < |head| && (head + tail)[k] == head[k]
  {
    forall k | |head| <= k < |head + tail| ensures (head + tail)[k].customTaxCategory != category {
      assert (head + tail)[k] == tail[k - |head|];
    }
    forall k | 0 <= k < |head| ensures (head + tail)[k] == head[k] {}
  }

  /** The Further Tax row: present exactly when the further-tax total is
      non-zero and the company has a further-tax account; it is then the
      Sales Tax row's successor (or the first row), for the signed total. */
  lemma FurtherTaxRowRule(h: InvoiceHeader, items: seq<ItemFields>, taxes: seq<ChargeRow>,
                          companies: map<string, Company>, templates: map<string, ChargeTemplate>)
    requires ItemLevelSummary(h, items, taxes, companies, templates).Ok?
    ensures var out := ItemLevelSummary(h, items, taxes, companies, templates).value;
      var sums := SumItems(items);
      var company := companies[h.company];
      && ((exists k :: 0 <= k < |out| && out[k].customTaxCategory == FURTHER_SALES_TAX)
          <==> sums.furtherTax != 0.0 && company.furtherTaxAccount != "")
      && (forall k :: 0 <= k < |out| && out[k].customTaxCategory == FURTHER_SALES_TAX ==>
            out[k] == ComputedRow(company.furtherTaxAccount, FURTHER_TAX_DESCRIPTION,
                                  Multiplier(h.isReturn) * sums.furtherTax, FURTHER_SALES_TAX, ""))
  {
    var out := ItemLevelSummary(h, items, taxes, companies, templates).value;
    var head := ItemTaxRows(Multiplier(h.isReturn), SumItems(items), companies[h.company]);
    SummaryShape(h, items, taxes, companies, templates);
    assert out == head + out[|head|..];
    CategoryOfHead(head, out[|head|..], FURTHER_SALES_TAX);
    if SumItems(items).furtherTax != 0.0 && companies[h.company].furtherTaxAccount != "" {
      assert head[|head| - 1].customTaxCategory == FURTHER_SALES_TAX;
    }
  }

  /** The first 236G row of the template is the one found. */
  lemma {:induction false} FirstAdvanceRowAt(rows: seq<ChargeTemplateRow>, i: int)
    requires 0 <= i < |rows| && rows[i].category == ADVANCE_236G
    requires forall j :: 0 <= j < i ==> rows[j].category != ADVANCE_236G
    ensures FirstAdvanceRow(rows) == Some(rows[i])
  {
    if i > 0 {
      assert rows[0].category != ADVANCE_236G;
      assert forall j :: 0 <= j < i - 1 ==> rows[1..][j] == rows[j + 1];
      FirstAdvanceRowAt(rows[1..], i - 1);
    }
  }

  /** The Sales Invoice's 236G row comes from the template's first 236G
      row alone, whatever later 236G rows hold. */
  lemma SalesAdvanceFromFirstRow(h: InvoiceHeader, m: real, sums: Sums, templates: map<string, ChargeTemplate>,
                                 costCenter: string, i: int)
    requires h.doctype == SALES_INVOICE && h.taxTemplate != "" && h.taxTemplate in templates
    requires var rows := templates[h.taxTemplate].taxes;
      && 0 <= i < |rows| && rows[i].category == ADVANCE_236G
      && forall j :: 0 <= j < i ==> rows[j].category != ADVANCE_236G
    ensures SalesAdvanceRows(h, m, sums, templates, costCenter)
      == Ok(AdvanceRowFor(templates[h.taxTemplate].taxes[i], m, sums.inclusive, costCenter))
  {
    FirstAdvanceRowAt(templates[h.taxTemplate].taxes, i);
  }

  /** A Sales template without a 236G row gives no 236G row. */
  lemma SalesAdvanceWithoutRow(h: InvoiceHeader, m: real, sums: Sums, templates: map<string, ChargeTemplate>, costCenter: string)
    requires h.taxTemplate in templates
    requires forall j :: 0 <= j < |templates[h.taxTemplate].taxes| ==> templates[h.taxTemplate].taxes[j].category != ADVANCE_236G
    ensures SalesAdvanceRows(h, m, sums, templates, costCenter) == Ok([])
  {
    assert FirstAdvanceRow(templates[h.taxTemplate].taxes).None?;
  }

  /** A Sales Invoice's new table does not depend on its old one. */
  lemma SalesInvoiceIgnoresTable(h: InvoiceHeader, items: seq<ItemFields>, taxes: seq<ChargeRow>, other: seq<ChargeRow>,
                                 companies: map<string, Company>, templates: map<string, ChargeTemplate>)
    requires h.doctype == SALES_INVOICE
    ensures ItemLevelSummary(h, items, taxes, companies, templates) == ItemLevelSummary(h, items, other, companies, templates)
  {
  }

  /** Saving again rebuilds the same table: the summary's output is a fixed
      point, for Sales and Purchase Invoices alike. */
  lemma SummaryIdempotent(h: InvoiceHeader, items: seq<ItemFields>, taxes: seq<ChargeRow>,
                          companies: map<string, Company>, templates: map<string, ChargeTemplate>)
    requires ItemLevelSummary(h, items, taxes, companies, templates).Ok?
    ensures var out := ItemLevelSummary(h, items, taxes, companies, templates).value;
      ItemLevelSummary(h, items, out, companies, templates) == Ok(out)
  {
    if h.doctype == PURCHASE_INVOICE {
      var company := companies[h.company];
      var cc := company.costCenter;
      var m := Multiplier(h.isReturn);
      var sums := SumItems(items);
      var head := ItemTaxRows(m, sums, company);
      var copied := CopiedAdvanceRows(taxes, cc);
      var freight := FreightRows(h, company);
      assert SalesAdvanceRows(h, m, sums, templates, cc) == Ok([]);
      var out := head + [] + copied + freight;
      assert ItemLevelSummary(h, items, taxes, companies, templates) == Ok(out);
      CopiedStable(h, m, sums, company, taxes);
      assert out == head + copied + freight;
    }
  }

  /** Copying 236G rows out of a Purchase Invoice's summary list gives back
      exactly the rows copied into it. */
  lemma CopiedStable(h: InvoiceHeader, m: real, sums: Sums, company: Company, taxes: seq<ChargeRow>)
    ensures var cc := company.costCenter;
      var copied := CopiedAdvanceRows(taxes, cc);
      CopiedAdvanceRows(ItemTaxRows(m, sums, company) + copied + FreightRows(h, company), cc) == copied
  {
    var cc := company.costCenter;
    var head, copied, freight := ItemTaxRows(m, sums, company), CopiedAdvanceRows(taxes, cc), FreightRows(h, company);
    CopiedAdvanceRowsNone(head, cc);
    CopiedAdvanceRowsNone(freight, cc);
    CopiedAdvanceRowsAppend(head, copied, cc);
    CopiedAdvanceRowsAppend(head + copied, freight, cc);
    CopiedAdvanceRowsIdempotent(taxes, cc);
  }

  // ---------------------------------------------------------------------
  // The hook, rewriting the invoice's table in place

  /** The invoice document as the hook receives it. */
  class Invoice {
    const header: InvoiceHeader
    const items: seq<ItemFields>
    var taxes: seq<ChargeRow>

    constructor (header: InvoiceHeader, items: seq<ItemFields>, taxes: seq<ChargeRow>)
      ensures this.header == header && this.items == items && this.taxes == taxes
    {
      this.header, this.items, this.taxes := header, items, taxes;
    }
  }

  /** The `for item` loop summing the item fields. */
  method SumItemFields(items: seq<ItemFields>) returns (sums: Sums)
    ensures sums == SumItems(items)
  {
    var st, ft, incl := 0.0, 0.0, 0.0;
    for i := 0 to |items|
      invariant Sums(st, ft, incl) == SumItems(items[..i])
    {
      assert items[..i + 1][..i] == items[..i];
      st := st + items[i].st;
      ft := ft + items[i].furtherTax;
      incl := incl + items[i].totalInclTax;
    }
    assert items[..|items|] == items;
    sums := Sums(st, ft, incl);
  }

  /** The loop over the template rows that stops at the first 236G row;
      no such row leaves the rate at 0 and the account empty. */
  method FindAdvanceRow(rows: seq<ChargeTemplateRow>) returns (rate: real, account: string)
    ensures match FirstAdvanceRow(rows)
      case None => rate == 0.0 && account == ""
      case Some(row) => rate == row.rate && account == row.accountHead
  {
    rate, account := 0.0, "";
    var i := 0;
    while i < |rows|
      invariant 0 <= i <= |rows|
      invariant forall j :: 0 <= j < i ==> rows[j].category != ADVANCE_236G
      invariant FirstAdvanceRow(rows[i..]) == FirstAdvanceRow(rows)
    {
      assert rows[i..][1..] == rows[i + 1..];
      if rows[i].category == ADVANCE_236G {
        rate, account := rows[i].rate, rows[i].accountHead;
        return;
      }
      i := i + 1;
    }
  }

  /** The loop over the current table copying its 236G rows. */
  method CopyAdvanceRows(taxes: seq<ChargeRow>, costCenter: string) returns (copied: seq<ChargeRow>)
    ensures copied == CopiedAdvanceRows(taxes, costCenter)
  {
    copied := [];
    for i := 0 to |taxes|
      invariant copied == CopiedAdvanceRows(taxes[..i], costCenter)
    {
      assert taxes[..i + 1][..i] == taxes[..i];
      var t := taxes[i];
      if t.customTaxCategory == ADVANCE_236G {
        copied := copied + [CopyRow(t, costCenter)];
      }
    }
    assert taxes[..|taxes|] == taxes;
  }

  /** The rows built before the table is rewritten: the summary list, or
      the fetch that raised. */
  method BuildSummary(doc: Invoice, companies: map<string, Company>, templates: map<string, ChargeTemplate>)
    returns (r: Result<seq<ChargeRow>>)
    ensures r == ItemLevelSummary(doc.header, doc.items, doc.taxes, companies, templates)
  {
    var h := doc.header;
    var sums := SumItemFields(doc.items);
    var m := -1.0;
    if h.isReturn == 0 {
      m := 1.0;
    }
    var found := Lookup(companies, h.company);
    if found.None? {
      return Err(MissingRecord("Company", h.company));
    }
    var company := found.value;
    var summary := ItemTaxRows(m, sums, company);
    var advanceRows: seq<ChargeRow> := [];
    if h.doctype == SALES_INVOICE && h.taxTemplate != "" {
      var template := Lookup(templates, h.taxTemplate);
      if template.None? {
        return Err(MissingRecord("Sales Taxes and Charges Template", h.taxTemplate));
      }
      var rate, account := FindAdvanceRow(template.value.taxes);
      ghost var first := FirstAdvanceRow(templates[h.taxTemplate].taxes);
      assert first == FirstAdvanceRow(template.value.taxes);
      if rate != 0.0 && account != "" {
        var advance := rate * 0.01 * sums.inclusive;
        assert advance == Percent(rate, sums.inclusive);
        advanceRows := [ComputedRow(account, ADVANCE_DESCRIPTION, m * advance, ADVANCE_236G, company.costCenter)];
        assert first.Some? && advanceRows == AdvanceRowFor(first.value, m, sums.inclusive, company.costCenter);
      }
    }
    assert Ok(advanceRows) == SalesAdvanceRows(h, m, sums, templates, company.costCenter);
    summary := summary + advanceRows;
    var copied: seq<ChargeRow> := [];
    if h.doctype == PURCHASE_INVOICE {
      copied := CopyAdvanceRows(doc.taxes, company.costCenter);
    }
    summary := summary + copied + FreightRows(h, company);
    return Ok(summary);
  }

  /** `apply_item_level_tax_summary(doc)`: on success the table is exactly
      the returned list; a fetch that raises leaves the table as it was. */
  method ApplyItemLevelTaxSummary(doc: Invoice, companies: map<string, Company>, templates: map<string, ChargeTemplate>)
    returns (r: Result<seq<ChargeRow>>)
    modifies doc
    ensures r == ItemLevelSummary(doc.header, doc.items, old(doc.taxes), companies, templates)
    ensures r.Ok? ==> doc.taxes == r.value
    ensures r.Err? ==> doc.taxes == old(doc.taxes)
  {
    r := BuildSummary(doc, companies, templates);
    if r.Err? {
      return;
    }
    var summary := r.value;
    doc.taxes := [];
    for i := 0 to |summary|
      invariant doc.taxes == summary[..i]
    {
      doc.taxes := doc.taxes + [summary[i]];
    }
    assert summary[..|summary|] == summary;
  }
}
