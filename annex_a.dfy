/** The Annex-A purchase report: for each Purchase Invoice, its items
    grouped by HS code, one report row per group, with the group's summed
    quantity, value, further tax and sales tax (as absolute values) and the
    rate, unit and classification of the first item seen with that code. */
module AnnexA {
  import opened Base

  const REGISTERED := "Registered"
  const MISSING_HS_CODE := "Missing HS Code"
  const DEBIT_NOTE := "Debit Note"
  const PURCHASE_INVOICE_TYPE := "Purchase Invoice"

  /** The fields of a Purchase Invoice Item the report reads. */
  datatype AnnexItem = AnnexItem(
    hsCode: Option<string>,
    itemGroup: string,
    stRate: real,
    qty: real,
    uom: string,
    amount: real,
    furtherTax: real,
    st: real)

  /** The four summed columns. */
  datatype Totals = Totals(qty: real, amount: real, furtherTax: real, st: real)

  /** One entry of `grouped_items`. */
  datatype Group = Group(totals: Totals, salesTaxRate: real, uom: string, taxClassification: string)

  /** `grouped_items`: a dictionary, iterated in insertion order. */
  datatype Grouping = Grouping(order: seq<Option<string>>, groups: map<Option<string>, Group>)

  datatype SupplierDoc = SupplierDoc(taxCategory: string, taxId: string, cnic: string, primaryAddress: string)

  datatype Tariff = Tariff(tariffNumber: string, completeDescription: string)

  datatype PurchaseInvoice = PurchaseInvoice(
    name: string,
    supplier: string,
    postingDate: string,
    isReturn: int,
    items: seq<AnnexItem>)

  /** The records the report fetches: suppliers, the provinces of
      addresses, and customs tariff numbers. */
  datatype AnnexDb = AnnexDb(
    suppliers: map<string, SupplierDoc>,
    provinces: map<string, string>,
    tariffs: map<string, Tariff>)

  /** The columns shared by every row of one invoice. */
  datatype RowHeader = RowHeader(
    supplierTaxId: string,
    supplierName: string,
    taxCategory: string,
    supplierProvince: string,
    companyProvince: Option<string>,
    docType: string,
    docName: string,
    postingDate: string)

  datatype AnnexRow = AnnexRow(
    header: RowHeader,
    hsCode: string,
    taxClassification: string,
    salesTaxRate: real,
    qty: real,
    uom: string,
    amount: real,
    furtherTax: real,
    stAmount: real)

  const ZERO := Totals(0.0, 0.0, 0.0, 0.0)

  function Plus(a: Totals, b: Totals): Totals
  {
    Totals(a.qty + b.qty, a.amount + b.amount, a.furtherTax + b.furtherTax, a.st + b.st)
  }

  /** What one item adds to its group. */
  function Contribution(item: AnnexItem): Totals
  {
    Totals(item.qty, item.amount, item.furtherTax, item.st)
  }

  // ---------------------------------------------------------------------
  // Grouping

  /** One pass of the grouping loop: a new code opens a group seeded from
      the item, a known one adds the item to its sums. */
  function AddItem(g: Grouping, item: AnnexItem): Grouping
  {
    var c := item.hsCode;
    if c in g.groups then
      Grouping(g.order, g.groups[c := g.groups[c].(totals := Plus(g.groups[c].totals, Contribution(item)))])
    else
      Grouping(g.order + [c], g.groups[c := Group(Plus(ZERO, Contribution(item)), item.stRate, item.uom, item.itemGroup)])
  }

  /** The dictionary after the loop over `items`. */
  function Grouped(items: seq<AnnexItem>): Grouping
  {
    if |items| == 0 then Grouping([], map[])
    else AddItem(Grouped(items[..|items| - 1]), items[|items| - 1])
  }

  /** The HS codes of the items. */
  function Codes(items: seq<AnnexItem>): set<Option<string>>
  {
    set i | 0 <= i < |items| :: items[i].hsCode
  }

  /** The sums over the items with a given code, as an independent fold. */
  function TotalFor(items: seq<AnnexItem>, c: Option<string>): Totals
  {
    if |items| == 0 then ZERO
    else
      var last := items[|items| - 1];
      Plus(TotalFor(items[..|items| - 1], c), if last.hsCode == c then Contribution(last) else ZERO)
  }

  /** `i` is the first item with code `c`. */
  predicate IsFirst(items: seq<AnnexItem>, c: Option<string>, i: int)
  {
    && 0 <= i < |items| && items[i].hsCode == c
    && forall j :: 0 <= j < i ==> items[j].hsCode != c
  }

  predicate DistinctCodes(order: seq<Option<string>>)
  {
    forall k, l :: 0 <= k < l < |order| ==> order[k] != order[l]
  }

  lemma CodesOfPrefix(items: seq<AnnexItem>)
    requires |items| > 0
    ensures Codes(items) == Codes(items[..|items| - 1]) + {items[|items| - 1].hsCode}
  {
    var init := items[..|items| - 1];
    forall c | c in Codes(items) ensures c in Codes(init) + {items[|items| - 1].hsCode} {
      var i :| 0 <= i < |items| && items[i].hsCode == c;
      if i < |init| {
        assert init[i] == items[i];
      }
    }
    forall c | c in Codes(init) ensures c in Codes(items) {
      var i :| 0 <= i < |init| && init[i].hsCode == c;
      assert items[i] == init[i];
    }
  }

  /** A code no item carries sums to zero. */
  lemma {:induction false} TotalForAbsent(items: seq<AnnexItem>, c: Option<string>)
    requires c !in Codes(items)
    ensures TotalFor(items, c) == ZERO
  {
    if |items| > 0 {
      CodesOfPrefix(items);
      TotalForAbsent(items[..|items| - 1], c);
    }
  }

  /** The dictionary has one key per HS code among the items, each listed
      once in the iteration order, and each group's four sums are the sums
      over the items with its code. */
  lemma {:induction false} GroupedMeaning(items: seq<AnnexItem>)
    ensures var g := Grouped(items);
      && DistinctCodes(g.order)
      && (forall c :: c in g.groups <==> c in g.order)
      && g.groups.Keys == Codes(items)
      && forall c :: c in g.groups ==> g.groups[c].totals == TotalFor(items, c)
  {
    if |items| > 0 {
      var init := items[..|items| - 1];
      var last := items[|items| - 1];
      GroupedMeaning(init);
      CodesOfPrefix(items);
      var g := Grouped(init);
      if last.hsCode !in g.groups {
        TotalForAbsent(init, last.hsCode);
        var order := g.order + [last.hsCode];
        assert forall k :: 0 <= k < |g.order| ==> order[k] == g.order[k];
      }
    }
  }

  /** A group's rate, unit and classification are those of the first item
      seen with its code. */
  lemma {:induction false} GroupAttributesFirstSeen(items: seq<AnnexItem>, c: Option<string>, i: int)
    requires IsFirst(items, c, i)
    ensures c in Grouped(items).groups
    ensures var grp := Grouped(items).groups[c];
      && grp.salesTaxRate == items[i].stRate
      && grp.uom == items[i].uom
      && grp.taxClassification == items[i].itemGroup
  {
    var init := items[..|items| - 1];
    GroupedMeaning(init);
    if i == |items| - 1 {
      assert forall j :: 0 <= j < |init| ==> init[j] == items[j];
    } else {
      assert init[i] == items[i];
      assert forall j :: 0 <= j < i ==> init[j] == items[j];
      GroupAttributesFirstSeen(init, c, i);
    }
  }

  /** The first item with a code that some earlier-than-last item carries
      lies before the last item. */
  lemma FirstInPrefix(items: seq<AnnexItem>, c: Option<string>, i: int)
    requires |items| > 0 && IsFirst(items, c, i) && c in Codes(items[..|items| - 1])
    ensures i < |items| - 1 && IsFirst(items[..|items| - 1], c, i)
  {
    var init := items[..|items| - 1];
    var j :| 0 <= j < |init| && init[j].hsCode == c;
    assert items[j] == init[j];
    assert forall k :: 0 <= k <= i && k < |init| ==> init[k] == items[k];
  }

  /** A code no earlier item carries is on none of them. */
  lemma AbsentFromPrefix(items: seq<AnnexItem>, c: Option<string>)
    requires |items| > 0 && c !in Codes(items[..|items| - 1])
    ensures forall j :: 0 <= j < |items| - 1 ==> items[j].hsCode != c
  {
    var init := items[..|items| - 1];
    assert forall j :: 0 <= j < |init| ==> init[j] == items[j];
  }

  /** The groups come out in the order their codes first occur. */
  lemma {:induction false} GroupOrderFirstSeen(items: seq<AnnexItem>, k: int, l: int, i: int, j: int)
    requires 0 <= k < l < |Grouped(items).order|
    requires IsFirst(items, Grouped(items).order[k], i) && IsFirst(items, Grouped(items).order[l], j)
    ensures i < j
  {
    var init := items[..|items| - 1];
    var last := items[|items| - 1];
    var g := Grouped(init);
    GroupedMeaning(init);
    CodesOfPrefix(items);
    var order := Grouped(items).order;
    assert order[k] in g.order && order[k] in Codes(init) by {
      if last.hsCode in g.groups {
      } else {
        assert order[k] == g.order[k];
      }
    }
    FirstInPrefix(items, order[k], i);
    if l < |g.order| {
      assert order[l] == g.order[l] && order[k] == g.order[k];
      assert order[l] in Codes(init);
      FirstInPrefix(items, order[l], j);
      GroupOrderFirstSeen(init, k, l, i, j);
    } else {
      assert last.hsCode !in g.groups && order[l] == last.hsCode;
      AbsentFromPrefix(items, last.hsCode);
    }
  }

  // ---------------------------------------------------------------------
  // Report rows

  /** Registered suppliers are reported by tax id, others by CNIC. */
  function SupplierTaxId(s: SupplierDoc): (id: string)
    ensures s.taxCategory == REGISTERED ==> id == s.taxId
    ensures s.taxCategory != REGISTERED ==> id == s.cnic
  {
    if s.taxCategory == REGISTERED then s.taxId else s.cnic
  }

  /** A return is a Debit Note. */
  function DocType(isReturn: int): (t: string)
    ensures t == DEBIT_NOTE <==> isReturn == 1
    ensures t != DEBIT_NOTE ==> t == PURCHASE_INVOICE_TYPE
  {
    if isReturn == 1 then DEBIT_NOTE else PURCHASE_INVOICE_TYPE
  }

  /** The HS Code Description column: a fetched tariff's number and
      description, or the placeholder for items without a code. */
  function HsDescription(c: Option<string>, tariffs: map<string, Tariff>): (r: Result<string>)
    ensures c.None? ==> r == Ok(MISSING_HS_CODE)
    ensures c.Some? && c.value !in tariffs ==> r == Err(MissingRecord("Customs Tariff Number", c.value))
    ensures c.Some? && c.value in tariffs ==>
      r == Ok(tariffs[c.value].tariffNumber + ": " + tariffs[c.value].completeDescription)
  {
    match c
    case None => Ok(MISSING_HS_CODE)
    case Some(code) =>
      if code !in tariffs then Err(MissingRecord("Customs Tariff Number", code))
      else Ok(tariffs[code].tariffNumber + ": " + tariffs[code].completeDescription)
  }

  function GroupRow(h: RowHeader, desc: string, grp: Group): AnnexRow
  {
    AnnexRow(h, desc, grp.taxClassification, grp.salesTaxRate, Abs(grp.totals.qty), grp.uom,
             Abs(grp.totals.amount), Abs(grp.totals.furtherTax), Abs(grp.totals.st))
  }

  /** The rows of the groups listed in `order`, in that order; the first
      code whose tariff is missing aborts the report. */
  function GroupRows(h: RowHeader, order: seq<Option<string>>, groups: map<Option<string>, Group>,
                     tariffs: map<string, Tariff>): Result<seq<AnnexRow>>
    requires forall c :: c in order ==> c in groups
  {
    if |order| == 0 then Ok([])
    else
      match GroupRows(h, order[..|order| - 1], groups, tariffs)
      case Err(m) => Err(m)
      case Ok(rows) =>
        var c := order[|order| - 1];
        match HsDescription(c, tariffs)
        case Err(m) => Err(m)
        case Ok(desc) => Ok(rows + [GroupRow(h, desc, groups[c])])
  }

  /** The columns of an invoice's rows; the supplier and its primary
      address must exist. */
  function InvoiceHeader(inv: PurchaseInvoice, companyProvince: Option<string>, db: AnnexDb): Result<RowHeader>
  {
    if inv.supplier !in db.suppliers then Err(MissingRecord("Supplier", inv.supplier))
    else
      var s := db.suppliers[inv.supplier];
      if s.primaryAddress !in db.provinces then Err(MissingRecord("Address", s.primaryAddress))
      else Ok(RowHeader(SupplierTaxId(s), inv.supplier, s.taxCategory, db.provinces[s.primaryAddress],
                        companyProvince, DocType(inv.isReturn), inv.name, inv.postingDate))
  }

  /** The rows one invoice contributes. */
  function InvoiceRows(inv: PurchaseInvoice, companyProvince: Option<string>, db: AnnexDb): Result<seq<AnnexRow>>
  {
    match InvoiceHeader(inv, companyProvince, db)
    case Err(m) => Err(m)
    case Ok(h) =>
      var g := Grouped(inv.items);
      GroupedMeaning(inv.items);
      GroupRows(h, g.order, g.groups, db.tariffs)
  }

  /** The outcome of each invoice, in invoice order. */
  function InvoiceResults(invoices: seq<PurchaseInvoice>, companyProvince: Option<string>, db: AnnexDb)
    : seq<Result<seq<AnnexRow>>>
  {
    seq(|invoices|, i requires 0 <= i < |invoices| => InvoiceRows(invoices[i], companyProvince, db))
  }

  /** Rows of a run of outcomes, one after the other, or the first failure. */
  function Collect(results: seq<Result<seq<AnnexRow>>>): Result<seq<AnnexRow>>
  {
    if |results| == 0 then Ok([])
    else
      match Collect(results[..|results| - 1])
      case Err(m) => Err(m)
      case Ok(rows) =>
        match results[|results| - 1]
        case Err(m) => Err(m)
        case Ok(more) => Ok(rows + more)
  }

  /** The report over the selected invoices: their rows in invoice order,
      or the first missing record. */
  function Report(invoices: seq<PurchaseInvoice>, companyProvince: Option<string>, db: AnnexDb): Result<seq<AnnexRow>>
  {
    Collect(InvoiceResults(invoices, companyProvince, db))
  }

  /** Every group of `order` that has a row gets it at its own position,
      built from that group. */
  lemma {:induction false} GroupRowsMeaning(h: RowHeader, order: seq<Option<string>>, groups: map<Option<string>, Group>,
                                            tariffs: map<string, Tariff>)
    requires forall c :: c in order ==> c in groups
    ensures GroupRows(h, order, groups, tariffs).Ok? <==>
      forall k :: 0 <= k < |order| ==> HsDescription(order[k], tariffs).Ok?
    ensures GroupRows(h, order, groups, tariffs).Ok? ==>
      var rows := GroupRows(h, order, groups, tariffs).value;
      && |rows| == |order|
      && forall k :: 0 <= k < |order| ==>
           rows[k] == GroupRow(h, HsDescription(order[k], tariffs).value, groups[order[k]])
  {
    if |order| > 0 {
      var init := order[..|order| - 1];
      assert forall k :: 0 <= k < |init| ==> init[k] == order[k];
      GroupRowsMeaning(h, init, groups, tariffs);
    }
  }

  /** An invoice's rows: one per distinct HS code, in the order of the
      groups. */
  lemma InvoiceRowsCodes(inv: PurchaseInvoice, companyProvince: Option<string>, db: AnnexDb, rows: seq<AnnexRow>)
    requires InvoiceRows(inv, companyProvince, db) == Ok(rows)
    ensures |rows| == |Grouped(inv.items).order|
    ensures (set k | 0 <= k < |Grouped(inv.items).order| :: Grouped(inv.items).order[k]) == Codes(inv.items)
  {
    var g := Grouped(inv.items);
    GroupedMeaning(inv.items);
    var h := InvoiceHeader(inv, companyProvince, db).value;
    GroupRowsMeaning(h, g.order, g.groups, db.tariffs);
    OrderCodes(inv.items);
  }

  /** The group order lists exactly the HS codes of the items. */
  lemma OrderCodes(items: seq<AnnexItem>)
    ensures (set k | 0 <= k < |Grouped(items).order| :: Grouped(items).order[k]) == Codes(items)
  {
    var g := Grouped(items);
    GroupedMeaning(items);
    forall c | c in g.groups ensures c in (set k | 0 <= k < |g.order| :: g.order[k]) {
      var k :| 0 <= k < |g.order| && g.order[k] == c;
    }
  }

  /** Each row carries the invoice's document type and name, its group's
      sums as absolute values, and "Missing HS Code" when the group has no
      code. */
  lemma InvoiceRowsColumns(inv: PurchaseInvoice, companyProvince: Option<string>, db: AnnexDb, rows: seq<AnnexRow>, k: int)
    requires InvoiceRows(inv, companyProvince, db) == Ok(rows)
    requires 0 <= k < |rows|
    ensures k < |Grouped(inv.items).order|
    ensures rows[k].header.docType == DocType(inv.isReturn) && rows[k].header.docName == inv.name
    ensures rows[k].qty == Abs(TotalFor(inv.items, Grouped(inv.items).order[k]).qty)
    ensures rows[k].amount == Abs(TotalFor(inv.items, Grouped(inv.items).order[k]).amount)
    ensures rows[k].furtherTax == Abs(TotalFor(inv.items, Grouped(inv.items).order[k]).furtherTax)
    ensures rows[k].stAmount == Abs(TotalFor(inv.items, Grouped(inv.items).order[k]).st)
    ensures Grouped(inv.items).order[k].None? ==> rows[k].hsCode == MISSING_HS_CODE
  {
    var g := Grouped(inv.items);
    GroupedMeaning(inv.items);
    var h := InvoiceHeader(inv, companyProvince, db).value;
    GroupRowsMeaning(h, g.order, g.groups, db.tariffs);
    var c := g.order[k];
    assert rows[k] == GroupRow(h, HsDescription(c, db.tariffs).value, g.groups[c]);
    assert g.groups[c].totals == TotalFor(inv.items, c);
  }

  /** A run of outcomes collects exactly when each outcome succeeded. */
  lemma {:induction false} CollectOk(results: seq<Result<seq<AnnexRow>>>)
    ensures Collect(results).Ok? <==> forall i :: 0 <= i < |results| ==> results[i].Ok?
  {
    if |results| > 0 {
      var init := results[..|results| - 1];
      assert forall i :: 0 <= i < |init| ==> init[i] == results[i];
      CollectOk(init);
    }
  }

  /** Collecting two runs in one is collecting each and concatenating. */
  lemma {:induction false} CollectAppend(a: seq<Result<seq<AnnexRow>>>, b: seq<Result<seq<AnnexRow>>>)
    ensures Collect(a + b).Ok? <==> Collect(a).Ok? && Collect(b).Ok?
    ensures Collect(a + b).Ok? ==> Collect(a + b).value == Collect(a).value + Collect(b).value
    decreases |b|
  {
    if |b| == 0 {
      assert a + b == a;
    } else {
      var init := b[..|b| - 1];
      assert (a + b)[..|a + b| - 1] == a + init;
      assert (a + b)[|a + b| - 1] == b[|b| - 1];
      CollectAppend(a, init);
    }
  }

  /** The report succeeds exactly when every invoice's rows do. */
  lemma ReportMeaning(invoices: seq<PurchaseInvoice>, companyProvince: Option<string>, db: AnnexDb)
    ensures Report(invoices, companyProvince, db).Ok? <==>
      forall i :: 0 <= i < |invoices| ==> InvoiceRows(invoices[i], companyProvince, db).Ok?
  {
    var results := InvoiceResults(invoices, companyProvince, db);
    assert forall i :: 0 <= i < |invoices| ==> results[i] == InvoiceRows(invoices[i], companyProvince, db);
    CollectOk(results);
  }

  /** Reporting two batches of invoices in one run succeeds exactly when
      both batches do, and lists the first batch's rows before the second's. */
  lemma ReportAppend(a: seq<PurchaseInvoice>, b: seq<PurchaseInvoice>, companyProvince: Option<string>, db: AnnexDb)
    ensures Report(a + b, companyProvince, db).Ok?
            <==> Report(a, companyProvince, db).Ok? && Report(b, companyProvince, db).Ok?
    ensures Report(a + b, companyProvince, db).Ok? ==>
      Report(a + b, companyProvince, db).value == Report(a, companyProvince, db).value + Report(b, companyProvince, db).value
  {
    assert InvoiceResults(a + b, companyProvince, db)
        == InvoiceResults(a, companyProvince, db) + InvoiceResults(b, companyProvince, db);
    CollectAppend(InvoiceResults(a, companyProvince, db), InvoiceResults(b, companyProvince, db));
  }

  // ---------------------------------------------------------------------
  // The report loops

  /** The `grouped_items` loop. */
  method GroupItems(items: seq<AnnexItem>) returns (order: seq<Option<string>>, groups: map<Option<string>, Group>)
    ensures Grouping(order, groups) == Grouped(items)
  {
    order, groups := [], map[];
    for i := 0 to |items|
      invariant Grouping(order, groups) == Grouped(items[..i])
    {
      assert items[..i + 1][..i] == items[..i];
      var item := items[i];
      var c := item.hsCode;
      if c !in groups {
        groups := groups[c := Group(ZERO, item.stRate, item.uom, item.itemGroup)];
        order := order + [c];
      }
      groups := groups[c := groups[c].(totals := Plus(groups[c].totals, Contribution(item)))];
    }
    assert items[..|items|] == items;
  }

  /** The loop emitting one row per group of one invoice. */
  method EmitRows(h: RowHeader, order: seq<Option<string>>, groups: map<Option<string>, Group>,
                  tariffs: map<string, Tariff>) returns (r: Result<seq<AnnexRow>>)
    requires forall c :: c in order ==> c in groups
    ensures r == GroupRows(h, order, groups, tariffs)
  {
    var data := [];
    for i := 0 to |order|
      invariant GroupRows(h, order[..i], groups, tariffs) == Ok(data)
    {
      assert order[..i + 1][..i] == order[..i];
      var c := order[i];
      var desc;
      if c.Some? {
        var tariff := Lookup(tariffs, c.value);
        if tariff.None? {
          assert GroupRows(h, order[..i + 1], groups, tariffs) == Err(MissingRecord("Customs Tariff Number", c.value));
          GroupRowsPrefixErr(h, order, groups, tariffs, i + 1);
          return Err(MissingRecord("Customs Tariff Number", c.value));
        }
        desc := tariff.value.tariffNumber + ": " + tariff.value.completeDescription;
      } else {
        desc := MISSING_HS_CODE;
      }
      data := data + [GroupRow(h, desc, groups[c])];
    }
    assert order[..|order|] == order;
    return Ok(data);
  }

  /** A failure on a prefix of the groups is the failure of them all. */
  lemma {:induction false} GroupRowsPrefixErr(h: RowHeader, order: seq<Option<string>>, groups: map<Option<string>, Group>,
                                              tariffs: map<string, Tariff>, n: int)
    requires forall c :: c in order ==> c in groups
    requires 0 <= n <= |order| && GroupRows(h, order[..n], groups, tariffs).Err?
    ensures GroupRows(h, order, groups, tariffs) == GroupRows(h, order[..n], groups, tariffs)
    decreases |order| - n
  {
    if n < |order| {
      assert order[..n + 1][..n] == order[..n];
      GroupRowsPrefixErr(h, order, groups, tariffs, n + 1);
    } else {
      assert order[..n] == order;
    }
  }

  /** `execute`: the loop over the invoices. */
  method Execute(invoices: seq<PurchaseInvoice>, companyProvince: Option<string>, db: AnnexDb)
    returns (r: Result<seq<AnnexRow>>)
    ensures r == Report(invoices, companyProvince, db)
  {
    ghost var results := InvoiceResults(invoices, companyProvince, db);
    var data := [];
    for i := 0 to |invoices|
      invariant Collect(results[..i]) == Ok(data)
    {
      assert results[..i + 1][..i] == results[..i];
      var inv := invoices[i];
      var rows := InvoiceReport(inv, companyProvince, db);
      if rows.Err? {
        assert Collect(results[..i + 1]) == Err(rows.missing);
        CollectPrefixErr(results, i + 1);
        return Err(rows.missing);
      }
      data := data + rows.value;
    }
    assert results[..|invoices|] == results;
    return Ok(data);
  }

  /** A failure on a prefix of the outcomes is the failure of the whole run. */
  lemma {:induction false} CollectPrefixErr(results: seq<Result<seq<AnnexRow>>>, n: int)
    requires 0 <= n <= |results| && Collect(results[..n]).Err?
    ensures Collect(results) == Collect(results[..n])
    decreases |results| - n
  {
    if n < |results| {
      assert results[..n + 1][..n] == results[..n];
      CollectPrefixErr(results, n + 1);
    } else {
      assert results[..n] == results;
    }
  }

  /** The body of the invoice loop for one invoice. */
  method InvoiceReport(inv: PurchaseInvoice, companyProvince: Option<string>, db: AnnexDb)
    returns (r: Result<seq<AnnexRow>>)
    ensures r == InvoiceRows(inv, companyProvince, db)
  {
    var supplier := Lookup(db.suppliers, inv.supplier);
    if supplier.None? {
      return Err(MissingRecord("Supplier", inv.supplier));
    }
    var s := supplier.value;
    var province := Lookup(db.provinces, s.primaryAddress);
    if province.None? {
      return Err(MissingRecord("Address", s.primaryAddress));
    }
    var taxId := if s.taxCategory == REGISTERED then s.taxId else s.cnic;
    var docType := if inv.isReturn == 1 then DEBIT_NOTE else PURCHASE_INVOICE_TYPE;
    var h := RowHeader(taxId, inv.supplier, s.taxCategory, province.value, companyProvince, docType, inv.name, inv.postingDate);
    assert InvoiceHeader(inv, companyProvince, db) == Ok(h);
    var order, groups := GroupItems(inv.items);
    GroupedMeaning(inv.items);
    r := EmitRows(h, order, groups, db.tariffs);
  }
}
