/** The item-row tax calculator of the shared form script: the sign
    multiplier, the template resolution chain, the rate extraction from an
    Item Tax Template, the normal, manual-override and 3rd-Schedule
    calculation modes, and the per-item template cache.

    `CalculateLine` is the reference definition of what one call of the
    calculator does to a row; `CalculateTaxes` is the step-by-step version
    that writes the row's fields in place and is proved to agree with it. */
module Taxation {
  import opened Base
  import opened Records

  // ---------------------------------------------------------------------
  // Sign multiplier and the base amount

  /** -1 for a return invoice or a negative quantity, 1 otherwise. */
  function Multiplier(isReturn: int, qty: real): (m: real)
    ensures m == 1.0 || m == -1.0
    ensures m == -1.0 <==> (isReturn == 1 || qty < 0.0)
  {
    if isReturn == 1 || qty < 0.0 then -1.0 else 1.0
  }

  /** `Math.abs(row.qty) * row.rate`, before the sign is applied. */
  function BaseAmount(row: LineInput): real
  {
    Abs(row.qty) * row.rate
  }

  /** Further tax is charged only on a Sales Invoice to an Unregistered
      customer. */
  predicate FurtherTaxApplies(h: FormHeader)
  {
    h.doctype == SALES_INVOICE && h.salesTaxStatus == UNREGISTERED
  }

  function Max(a: real, b: real): (r: real)
    ensures r >= a && r >= b && (r == a || r == b)
  {
    if a >= b then a else b
  }

  // ---------------------------------------------------------------------
  // Template resolution: row -> Item taxes table -> FBR Transaction Type

  predicate NamesSalesTaxTemplate(e: ItemTaxEntry)
  {
    e.taxCategory == SALES_TAX && e.itemTaxTemplate != ""
  }

  /** The template of the first Sales Tax entry that names one. */
  function FirstSalesTaxTemplate(entries: seq<ItemTaxEntry>): (r: Option<string>)
    ensures r.Some? ==> r.value != ""
  {
    if |entries| == 0 then None
    else if NamesSalesTaxTemplate(entries[0]) then Some(entries[0].itemTaxTemplate)
    else FirstSalesTaxTemplate(entries[1..])
  }

  /** The first entry that names a Sales Tax template is the one chosen;
      entries before it, including Sales Tax entries with no template, are
      skipped. */
  lemma {:induction false} FirstSalesTaxTemplateAt(entries: seq<ItemTaxEntry>, k: nat)
    requires k < |entries| && NamesSalesTaxTemplate(entries[k])
    requires forall j :: 0 <= j < k ==> !NamesSalesTaxTemplate(entries[j])
    ensures FirstSalesTaxTemplate(entries) == Some(entries[k].itemTaxTemplate)
  {
    if k > 0 {
      assert !NamesSalesTaxTemplate(entries[0]);
      FirstSalesTaxTemplateAt(entries[1..], k - 1);
    }
  }

  /** No template is taken from the Item exactly when no entry names one. */
  lemma {:induction false} FirstSalesTaxTemplateNone(entries: seq<ItemTaxEntry>)
    ensures FirstSalesTaxTemplate(entries).None?
            <==> forall j :: 0 <= j < |entries| ==> !NamesSalesTaxTemplate(entries[j])
  {
    if |entries| > 0 {
      FirstSalesTaxTemplateNone(entries[1..]);
      assert forall j :: 1 <= j < |entries| ==> entries[j] == entries[1..][j - 1];
    }
  }

  /** The classification used for the FBR Transaction Type lookup: the
      row's, or else the Item's. */
  function Classification(row: LineInput, item: Item): string
  {
    if row.taxClassification != "" then row.taxClassification else item.taxClassification
  }

  /** `fetch_item_tax_template`: the template that governs a row, if any. */
  function ResolveTemplate(row: LineInput, db: Db): (r: Option<string>)
    ensures r.Some? ==> r.value != ""
  {
    if row.itemTaxTemplate != "" then Some(row.itemTaxTemplate)
    else if row.itemCode !in db.items then None
    else
      var item := db.items[row.itemCode];
      match FirstSalesTaxTemplate(item.taxes)
      case Some(t) => Some(t)
      case None =>
        var cls := Classification(row, item);
        if cls != "" && cls in db.fbrTypes && db.fbrTypes[cls].taxTemplate != ""
        then Some(db.fbrTypes[cls].taxTemplate)
        else None
  }

  /** The resolution order, first match wins: the row's own template; then
      the first Item taxes entry naming a Sales Tax template; then the
      template of the FBR Transaction Type named by the row's or the Item's
      classification; otherwise none. */
  lemma ResolveTemplateOrder(row: LineInput, db: Db)
    ensures row.itemTaxTemplate != "" ==> ResolveTemplate(row, db) == Some(row.itemTaxTemplate)
    ensures row.itemTaxTemplate == "" && row.itemCode !in db.items ==> ResolveTemplate(row, db).None?
    ensures row.itemTaxTemplate == "" && row.itemCode in db.items ==>
      var item := db.items[row.itemCode];
      var cls := Classification(row, item);
      && (forall k :: 0 <= k < |item.taxes| && NamesSalesTaxTemplate(item.taxes[k])
            && (forall j :: 0 <= j < k ==> !NamesSalesTaxTemplate(item.taxes[j]))
            ==> ResolveTemplate(row, db) == Some(item.taxes[k].itemTaxTemplate))
      && ((forall j :: 0 <= j < |item.taxes| ==> !NamesSalesTaxTemplate(item.taxes[j])) ==>
            ResolveTemplate(row, db) ==
              (if cls != "" && cls in db.fbrTypes && db.fbrTypes[cls].taxTemplate != ""
               then Some(db.fbrTypes[cls].taxTemplate) else None))
  {
    if row.itemTaxTemplate == "" && row.itemCode in db.items {
      var item := db.items[row.itemCode];
      forall k | 0 <= k < |item.taxes| && NamesSalesTaxTemplate(item.taxes[k])
          && (forall j :: 0 <= j < k ==> !NamesSalesTaxTemplate(item.taxes[j]))
        ensures ResolveTemplate(row, db) == Some(item.taxes[k].itemTaxTemplate)
      {
        FirstSalesTaxTemplateAt(item.taxes, k);
      }
      FirstSalesTaxTemplateNone(item.taxes);
    }
  }

  /** The `for` loop over the Item's taxes table, with its early return. */
  method FindSalesTaxTemplate(entries: seq<ItemTaxEntry>) returns (r: Option<string>)
    ensures r == FirstSalesTaxTemplate(entries)
  {
    var i := 0;
    while i < |entries|
      invariant 0 <= i <= |entries|
      invariant FirstSalesTaxTemplate(entries) == FirstSalesTaxTemplate(entries[i..])
    {
      assert entries[i..][1..] == entries[i + 1..];
      if entries[i].taxCategory == SALES_TAX {
        var template := entries[i].itemTaxTemplate;
        if template != "" {
          return Some(template);
        }
      }
      i := i + 1;
    }
    return None;
  }

  method FetchItemTaxTemplate(row: LineInput, db: Db) returns (r: Option<string>)
    ensures r == ResolveTemplate(row, db)
  {
    if row.itemTaxTemplate != "" {
      return Some(row.itemTaxTemplate);
    }
    var item := Lookup(db.items, row.itemCode);
    if item.None? {
      return None;
    }
    r := FindSalesTaxTemplate(item.value.taxes);
    if r.Some? {
      return;
    }
    var cls := Classification(row, item.value);
    if cls == "" {
      return None;
    }
    var fbr := Lookup(db.fbrTypes, cls);
    if fbr.Some? && fbr.value.taxTemplate != "" {
      return Some(fbr.value.taxTemplate);
    }
    return None;
  }

  // ---------------------------------------------------------------------
  // Rate extraction from an Item Tax Template

  /** The sum of the rates of the rows of one category. */
  function RateSum(taxes: seq<ItemTaxRow>, category: string): real
  {
    if |taxes| == 0 then 0.0
    else
      RateSum(taxes[..|taxes| - 1], category)
      + (if taxes[|taxes| - 1].category == category then taxes[|taxes| - 1].taxRate else 0.0)
  }

  /** The last row of one category: the one a `forEach` that keeps
      overwriting its result ends with. */
  function LastOf(taxes: seq<ItemTaxRow>, category: string): (r: Option<ItemTaxRow>)
    ensures r.Some? ==> r.value in taxes && r.value.category == category
  {
    if |taxes| == 0 then None
    else if taxes[|taxes| - 1].category == category then Some(taxes[|taxes| - 1])
    else LastOf(taxes[..|taxes| - 1], category)
  }

  /** The rate of the last row of one category, 0 when there is none. */
  function LastRate(taxes: seq<ItemTaxRow>, category: string): real
  {
    match LastOf(taxes, category)
    case None => 0.0
    case Some(r) => r.taxRate
  }

  /** The row `LastOf` picks is the last matching one. */
  lemma {:induction false} LastOfAt(taxes: seq<ItemTaxRow>, category: string, k: nat)
    requires k < |taxes| && taxes[k].category == category
    requires forall j :: k < j < |taxes| ==> taxes[j].category != category
    ensures LastOf(taxes, category) == Some(taxes[k])
  {
    if k < |taxes| - 1 {
      LastOfAt(taxes[..|taxes| - 1], category, k);
    }
  }

  lemma {:induction false} LastOfNone(taxes: seq<ItemTaxRow>, category: string)
    ensures LastOf(taxes, category).None?
            <==> forall j :: 0 <= j < |taxes| ==> taxes[j].category != category
  {
    if |taxes| > 0 {
      LastOfNone(taxes[..|taxes| - 1], category);
    }
  }

  /** A template with no row of a category contributes no rate to it. */
  lemma {:induction false} RateSumWithoutCategory(taxes: seq<ItemTaxRow>, category: string)
    requires forall j :: 0 <= j < |taxes| ==> taxes[j].category != category
    ensures RateSum(taxes, category) == 0.0
  {
    if |taxes| > 0 {
      RateSumWithoutCategory(taxes[..|taxes| - 1], category);
    }
  }

  // ---------------------------------------------------------------------
  // The calculation modes

  /** The manual-override field the calculation was triggered by. */
  datatype Override = NoOverride | OverrideSt | OverrideStRate | OverrideFtRate

  /** What one calculator call does: leave the row alone, or write its tax
      fields (and, in the normal flow, cache the fetched template under the
      row's item code). A written row is followed by a summary rebuild. */
  datatype LineEffect = Untouched | Written(taxes: LineTaxes, cached: Option<ItemTaxTemplate>)

  /** The signed share of a percentage rate on a base amount. */
  function Share(m: real, rate: real, base: real): real
  {
    m * (rate * 0.01 * base)
  }

  /** The Sales Tax rate a manual amount implies: `st / (m × base) × 100`,
      or 0 for a zero base. */
  function DerivedRate(st: real, m: real, base: real): real
    requires m == 1.0 || m == -1.0
  {
    if base != 0.0 then st / (m * base) * 100.0 else 0.0
  }

  /** All tax fields zero; the total is the signed base amount. */
  function ZeroTaxes(total: real): LineTaxes
  {
    LineTaxes(0.0, 0.0, 0.0, 0.0, 0.0, total)
  }

  /** Normal, template-driven flow: Sales Tax rates are summed; Further Tax
      only under `FurtherTaxApplies`, with the rate of its last row. */
  function NormalTaxes(h: FormHeader, taxes: seq<ItemTaxRow>, m: real, base: real): LineTaxes
  {
    var stRate := RateSum(taxes, SALES_TAX);
    var st := Share(m, stRate, base);
    var ft := if FurtherTaxApplies(h) then Share(m, RateSum(taxes, FURTHER_SALES_TAX), base) else 0.0;
    var ftRate := if FurtherTaxApplies(h) then LastRate(taxes, FURTHER_SALES_TAX) else 0.0;
    LineTaxes(stRate, st, ftRate, ft, 0.0, m * base + st + ft)
  }

  /** The further tax recomputed by the two Sales Tax overrides: summed over
      the Further Sales Tax rows of the resolved template, under the same
      gating; zero with no template or a failed fetch. */
  function OverrideFurtherTax(h: FormHeader, row: LineInput, m: real, base: real, db: Db): real
  {
    match ResolveTemplate(row, db)
    case None => 0.0
    case Some(name) =>
      if name in db.itemTaxTemplates && FurtherTaxApplies(h)
      then Share(m, RateSum(db.itemTaxTemplates[name].taxes, FURTHER_SALES_TAX), base)
      else 0.0
  }

  /** The result of the 3rd-Schedule calculation, before it is written. */
  datatype ThirdScheduleResult = ThirdScheduleResult(
    st: real,
    stRate: real,
    furtherTax: real,
    ftRate: real,
    exSalesTaxValue: real,
    totalInclTax: real)

  /** 3rd-Schedule goods are taxed on the larger of the notified value and
      the retail price; the row total keeps the ordinary `qty * rate` base.
      `qty` is the absolute quantity. */
  function ThirdScheduleTaxes(h: FormHeader, rate: real, item: Item, template: ItemTaxTemplate, m: real, qty: real): ThirdScheduleResult
  {
    var taxableBase := Max(item.fixedNotifiedValue, item.retailPrice);
    if taxableBase <= 0.0 then ThirdScheduleResult(0.0, 0.0, 0.0, 0.0, 0.0, m * qty * rate)
    else
      var taxable := qty * taxableBase;
      var stRate := LastRate(template.taxes, SALES_TAX);
      var st := if stRate > 0.0 then m * (taxable * stRate / 100.0) else 0.0;
      var ftRate := if FurtherTaxApplies(h) then LastRate(template.taxes, FURTHER_SALES_TAX) else 0.0;
      var ft := if FurtherTaxApplies(h) then m * (taxable * ftRate / 100.0) else 0.0;
      ThirdScheduleResult(st, stRate, ft, ftRate, m * (qty * taxableBase), m * qty * rate + st + ft)
  }

  /** `apply_third_schedule_taxes_to_row`: the row fields a 3rd-Schedule
      result is written to (advance tax is always 0). */
  function ThirdScheduleRowTaxes(r: ThirdScheduleResult): LineTaxes
  {
    LineTaxes(r.stRate, r.st, r.ftRate, r.furtherTax, 0.0, r.totalInclTax)
  }

  /** `handle_third_schedule_item_calculation`: the Item and the template
      must both be fetched; a missing Item or a failed template fetch leaves
      the row alone, no template gives zero taxes. */
  function ThirdScheduleLine(h: FormHeader, row: LineInput, db: Db): LineEffect
  {
    var qty := Abs(row.qty);
    var m := Multiplier(h.isReturn, row.qty);
    if row.itemCode !in db.items then Untouched
    else
      match ResolveTemplate(row, db)
      case None => Written(ZeroTaxes(m * qty * row.rate), None)
      case Some(name) =>
        if name !in db.itemTaxTemplates then Untouched
        else Written(ThirdScheduleRowTaxes(
          ThirdScheduleTaxes(h, row.rate, db.items[row.itemCode], db.itemTaxTemplates[name], m, qty)), None)
  }

  /** Manual Sales Tax amount: the amount is kept and the rate derived from
      it (0 on a zero base). */
  function OverrideStLine(h: FormHeader, row: LineInput, cur: LineTaxes, db: Db): LineEffect
  {
    var m := Multiplier(h.isReturn, row.qty);
    var base := BaseAmount(row);
    var st := cur.st;
    var stRate := DerivedRate(st, m, base);
    var ft := OverrideFurtherTax(h, row, m, base, db);
    Written(LineTaxes(stRate, st, cur.ftRate, ft, 0.0, m * base + st + ft), None)
  }

  /** Manual Sales Tax rate: the rate is kept and the amount derived. */
  function OverrideStRateLine(h: FormHeader, row: LineInput, cur: LineTaxes, db: Db): LineEffect
  {
    var m := Multiplier(h.isReturn, row.qty);
    var base := BaseAmount(row);
    var stRate := cur.stRate;
    var st := Share(m, stRate, base);
    var ft := OverrideFurtherTax(h, row, m, base, db);
    Written(LineTaxes(stRate, st, cur.ftRate, ft, 0.0, m * base + st + ft), None)
  }

  /** Manual Further Tax rate: the further tax is derived from it, with no
      template and no gating; the Sales Tax fields are kept. */
  function OverrideFtRateLine(h: FormHeader, row: LineInput, cur: LineTaxes): LineEffect
  {
    var m := Multiplier(h.isReturn, row.qty);
    var base := BaseAmount(row);
    var ft := Share(m, cur.ftRate, base);
    Written(LineTaxes(cur.stRate, cur.st, cur.ftRate, ft, 0.0, m * base + cur.st + ft), None)
  }

  /** No override: taxes from the resolved template, which is cached; a row
      with no template gets zero taxes, a failed template fetch leaves the
      row alone. */
  function NormalLine(h: FormHeader, row: LineInput, db: Db): LineEffect
  {
    var m := Multiplier(h.isReturn, row.qty);
    var base := BaseAmount(row);
    match ResolveTemplate(row, db)
    case None => Written(ZeroTaxes(m * base), None)
    case Some(name) =>
      if name !in db.itemTaxTemplates then Untouched
      else
        var template := db.itemTaxTemplates[name];
        Written(NormalTaxes(h, template.taxes, m, base), Some(template))
  }

  /** `calculate_taxes`: what one call does to a row whose current tax
      fields are `cur`, for the given override mode. */
  function CalculateLine(h: FormHeader, row: LineInput, cur: LineTaxes, mode: Override, db: Db): LineEffect
  {
    if h.purchaseInvoiceType == IMPORT then Untouched
    else if h.supplierStStatus == UNREGISTERED || h.salesTaxInvoice == 0 then
      Written(ZeroTaxes(Multiplier(h.isReturn, row.qty) * BaseAmount(row)), None)
    else if row.taxClassification == THIRD_SCHEDULE_GOODS then ThirdScheduleLine(h, row, db)
    else match mode
      case OverrideSt => OverrideStLine(h, row, cur, db)
      case OverrideStRate => OverrideStRateLine(h, row, cur, db)
      case OverrideFtRate => OverrideFtRateLine(h, row, cur)
      case NoOverride => NormalLine(h, row, db)
  }

  // ---------------------------------------------------------------------
  // Properties of the calculator

  /** Import leaves the row untouched; an Unregistered supplier or an
      invoice that is not a sales-tax invoice zeroes every tax field and
      keeps only the signed base amount as the total. */
  lemma EarlyExits(h: FormHeader, row: LineInput, cur: LineTaxes, mode: Override, db: Db)
    ensures h.purchaseInvoiceType == IMPORT ==> CalculateLine(h, row, cur, mode, db) == Untouched
    ensures h.purchaseInvoiceType != IMPORT && (h.supplierStStatus == UNREGISTERED || h.salesTaxInvoice == 0) ==>
      CalculateLine(h, row, cur, mode, db)
        == Written(ZeroTaxes(Multiplier(h.isReturn, row.qty) * BaseAmount(row)), None)
  {
  }

  /** The row identity of a written row: the total is the signed base
      amount plus sales tax plus further tax, and advance tax is 0. */
  predicate RowIdentity(e: LineEffect, signedBase: real)
  {
    e.Written? ==> e.taxes.totalInclTax == signedBase + e.taxes.st + e.taxes.furtherTax && e.taxes.at == 0.0
  }

  lemma ThirdScheduleLineIdentity(h: FormHeader, row: LineInput, db: Db)
    ensures RowIdentity(ThirdScheduleLine(h, row, db), Multiplier(h.isReturn, row.qty) * BaseAmount(row))
  {
    var m := Multiplier(h.isReturn, row.qty);
    var qty := Abs(row.qty);
    MulAssoc(m, qty, row.rate);
    if row.itemCode in db.items {
      var item := db.items[row.itemCode];
      match ResolveTemplate(row, db)
      case None =>
      case Some(name) =>
        if name in db.itemTaxTemplates {
          var r := ThirdScheduleTaxes(h, row.rate, item, db.itemTaxTemplates[name], m, qty);
          assert r.totalInclTax == m * qty * row.rate + r.st + r.furtherTax;
          assert ThirdScheduleLine(h, row, db) == Written(ThirdScheduleRowTaxes(r), None);
        }
    }
  }

  lemma MulAssoc(a: real, b: real, c: real)
    ensures a * b * c == a * (b * c)
  {
  }

  /** Every written row satisfies the row identity, in every mode. */
  lemma TotalInclTaxIdentity(h: FormHeader, row: LineInput, cur: LineTaxes, mode: Override, db: Db)
    ensures RowIdentity(CalculateLine(h, row, cur, mode, db), Multiplier(h.isReturn, row.qty) * BaseAmount(row))
  {
    if h.purchaseInvoiceType != IMPORT && h.supplierStStatus != UNREGISTERED && h.salesTaxInvoice != 0
       && row.taxClassification == THIRD_SCHEDULE_GOODS {
      ThirdScheduleLineIdentity(h, row, db);
    }
  }

  /** Further tax is zero unless the invoice is a Sales Invoice to an
      Unregistered customer; only a manual Further Tax rate bypasses this. */
  lemma FurtherTaxGating(h: FormHeader, row: LineInput, cur: LineTaxes, mode: Override, db: Db)
    requires !FurtherTaxApplies(h) && mode != OverrideFtRate
    ensures match CalculateLine(h, row, cur, mode, db)
      case Untouched => true
      case Written(t, _) => t.furtherTax == 0.0
  {
  }

  /** The normal flow: the Sales Tax rate is the sum of the template's Sales
      Tax rates, the amount is that rate on the signed base, and the fetched
      template is cached. With no template every tax is 0. */
  lemma NormalFlow(h: FormHeader, row: LineInput, cur: LineTaxes, db: Db)
    requires h.purchaseInvoiceType != IMPORT && h.supplierStStatus != UNREGISTERED && h.salesTaxInvoice != 0
    requires row.taxClassification != THIRD_SCHEDULE_GOODS
    ensures var m := Multiplier(h.isReturn, row.qty);
      match ResolveTemplate(row, db)
      case None => CalculateLine(h, row, cur, NoOverride, db) == Written(ZeroTaxes(m * BaseAmount(row)), None)
      case Some(name) =>
        name in db.itemTaxTemplates ==>
          var taxes := db.itemTaxTemplates[name].taxes;
          && CalculateLine(h, row, cur, NoOverride, db).Written?
          && CalculateLine(h, row, cur, NoOverride, db).cached == Some(db.itemTaxTemplates[name])
          && var t := CalculateLine(h, row, cur, NoOverride, db).taxes;
          && t.stRate == RateSum(taxes, SALES_TAX)
          && t.st == Share(m, RateSum(taxes, SALES_TAX), BaseAmount(row))
          && (t.furtherTax != 0.0 ==> FurtherTaxApplies(h))
          && t.totalInclTax == m * BaseAmount(row) + t.st + t.furtherTax
  {
  }

  /** Overriding the Sales Tax amount with `a` and then overriding the rate
      with the rate so derived gives `a` back (for a non-zero base). */
  lemma OverrideAmountThenRate(h: FormHeader, row: LineInput, cur: LineTaxes, db: Db)
    requires h.purchaseInvoiceType != IMPORT && h.supplierStStatus != UNREGISTERED && h.salesTaxInvoice != 0
    requires row.taxClassification != THIRD_SCHEDULE_GOODS
    requires BaseAmount(row) != 0.0
    ensures CalculateLine(h, row, cur, OverrideSt, db).Written?
    ensures var t := CalculateLine(h, row, cur, OverrideSt, db).taxes;
      && CalculateLine(h, row, t, OverrideStRate, db).Written?
      && CalculateLine(h, row, t, OverrideStRate, db).taxes == t
  {
    var m := Multiplier(h.isReturn, row.qty);
    var base := BaseAmount(row);
    var a := cur.st;
    assert m * m == 1.0;
    calc {
      Share(m, a / (m * base) * 100.0, base);
      == (m * base) * (a / (m * base));
      == a;
    }
  }

  /** Overriding the rate with `r` and then overriding the amount with the
      amount so derived gives `r` back (for a non-zero base). */
  lemma OverrideRateThenAmount(h: FormHeader, row: LineInput, cur: LineTaxes, db: Db)
    requires h.purchaseInvoiceType != IMPORT && h.supplierStStatus != UNREGISTERED && h.salesTaxInvoice != 0
    requires row.taxClassification != THIRD_SCHEDULE_GOODS
    requires BaseAmount(row) != 0.0
    ensures CalculateLine(h, row, cur, OverrideStRate, db).Written?
    ensures var t := CalculateLine(h, row, cur, OverrideStRate, db).taxes;
      && CalculateLine(h, row, t, OverrideSt, db).Written?
      && CalculateLine(h, row, t, OverrideSt, db).taxes == t
  {
    var m := Multiplier(h.isReturn, row.qty);
    var base := BaseAmount(row);
    var r := cur.stRate;
    assert m * m == 1.0;
    calc {
      Share(m, r, base) / (m * base) * 100.0;
      == ((m * base) * (r * 0.01)) / (m * base) * 100.0;
      == r;
    }
  }

  /** With a zero base, overriding the amount sets the rate to 0. */
  lemma OverrideAmountWithZeroBase(h: FormHeader, row: LineInput, cur: LineTaxes, db: Db)
    requires h.purchaseInvoiceType != IMPORT && h.supplierStStatus != UNREGISTERED && h.salesTaxInvoice != 0
    requires row.taxClassification != THIRD_SCHEDULE_GOODS
    requires BaseAmount(row) == 0.0
    ensures CalculateLine(h, row, cur, OverrideSt, db).Written?
    ensures CalculateLine(h, row, cur, OverrideSt, db).taxes.stRate == 0.0
    ensures CalculateLine(h, row, cur, OverrideSt, db).taxes.st == cur.st
  {
  }

  /** A return invoice's sales tax is the negative of the same line's on an
      ordinary invoice (positive quantity). */
  lemma ReturnNegatesSalesTax(h: FormHeader, row: LineInput, cur: LineTaxes, db: Db)
    requires h.purchaseInvoiceType != IMPORT && h.supplierStStatus != UNREGISTERED && h.salesTaxInvoice != 0
    requires row.taxClassification != THIRD_SCHEDULE_GOODS && row.qty > 0.0
    requires h.isReturn == 0
    ensures var ret := h.(isReturn := 1);
      && CalculateLine(h, row, cur, NoOverride, db).Written? == CalculateLine(ret, row, cur, NoOverride, db).Written?
      && (CalculateLine(h, row, cur, NoOverride, db).Written? ==>
           && CalculateLine(ret, row, cur, NoOverride, db).taxes.st == -CalculateLine(h, row, cur, NoOverride, db).taxes.st
           && CalculateLine(ret, row, cur, NoOverride, db).taxes.stRate == CalculateLine(h, row, cur, NoOverride, db).taxes.stRate)
  {
  }

  /** The 3rd-Schedule rules: a non-positive taxable base gives zero taxes
      and the plain total; otherwise the sales tax is the last Sales Tax
      rate on `qty * max(notified, retail)` (when that rate is positive),
      and the total keeps the ordinary base. */
  lemma ThirdScheduleRules(h: FormHeader, rate: real, item: Item, template: ItemTaxTemplate, m: real, qty: real)
    ensures var r := ThirdScheduleTaxes(h, rate, item, template, m, qty);
      var taxableBase := Max(item.fixedNotifiedValue, item.retailPrice);
      && (taxableBase <= 0.0 ==>
            r == ThirdScheduleResult(0.0, 0.0, 0.0, 0.0, 0.0, m * qty * rate))
      && (taxableBase > 0.0 ==>
            && r.stRate == LastRate(template.taxes, SALES_TAX)
            && r.st == (if r.stRate > 0.0 then m * qty * taxableBase * r.stRate / 100.0 else 0.0)
            && (r.furtherTax != 0.0 ==> FurtherTaxApplies(h))
            && r.exSalesTaxValue == m * qty * taxableBase
            && r.totalInclTax == m * qty * rate + r.st + r.furtherTax)
  {
  }

  /** The worked example: notified value 100, retail price 150, quantity 2,
      rate 120, an 18% Sales Tax row, no further tax (Purchase Invoice). */
  lemma ThirdScheduleExample()
    ensures var h := FormHeader(PURCHASE_INVOICE, 0, "", "", 1, "", "");
      var item := Item([], THIRD_SCHEDULE_GOODS, 100.0, 150.0);
      var template := ItemTaxTemplate([ItemTaxRow(SALES_TAX, 18.0, "", "", "")]);
      var r := ThirdScheduleTaxes(h, 120.0, item, template, 1.0, 2.0);
      r.st == 54.0 && r.exSalesTaxValue == 300.0 && r.totalInclTax == 294.0
  {
    var template := ItemTaxTemplate([ItemTaxRow(SALES_TAX, 18.0, "", "", "")]);
    assert template.taxes[..0] == [];
    assert LastRate(template.taxes, SALES_TAX) == 18.0;
  }

  // ---------------------------------------------------------------------
  // The loops of the calculator

  /** Adding one row's share of tax to the running amount is the share of
      the summed rate. */
  lemma AddShare(m: real, rates: real, rate: real, base: real)
    ensures Share(m, rates, base) + Share(m, rate, base) == Share(m, rates + rate, base)
  {
  }

  /** One iteration of the normal flow's `forEach`: a Sales Tax row adds its
      rate and its share; a Further Sales Tax row, when further tax applies,
      adds its share and becomes the further-tax rate. */
  method NormalFlowStep(row: ItemTaxRow, m: real, base: real, ftApplies: bool,
                        stRate: real, st: real, ftRate: real, ft: real)
    returns (stRate': real, st': real, ftRate': real, ft': real)
    ensures stRate' == stRate + (if row.category == SALES_TAX then row.taxRate else 0.0)
    ensures st' == st + (if row.category == SALES_TAX then Share(m, row.taxRate, base) else 0.0)
    ensures row.category == FURTHER_SALES_TAX && ftApplies ==>
      ftRate' == row.taxRate && ft' == ft + Share(m, row.taxRate, base)
    ensures !(row.category == FURTHER_SALES_TAX && ftApplies) ==> ftRate' == ftRate && ft' == ft
  {
    stRate', st', ftRate', ft' := stRate, st, ftRate, ft;
    if row.category == SALES_TAX {
      st' := st + Share(m, row.taxRate, base);
      stRate' := stRate + row.taxRate;
    }
    if row.category == FURTHER_SALES_TAX && ftApplies {
      ft' := ft + Share(m, row.taxRate, base);
      ftRate' := row.taxRate;
    }
  }

  /** Extending a prefix of the rows by one row. */
  lemma PrefixStep(taxes: seq<ItemTaxRow>, i: nat, category: string)
    requires i < |taxes|
    ensures RateSum(taxes[..i + 1], category)
      == RateSum(taxes[..i], category) + (if taxes[i].category == category then taxes[i].taxRate else 0.0)
    ensures LastRate(taxes[..i + 1], category)
      == (if taxes[i].category == category then taxes[i].taxRate else LastRate(taxes[..i], category))
  {
    assert taxes[..i + 1][..i] == taxes[..i];
  }

  /** The `forEach` of the normal flow over the template's rows. */
  method NormalFlowRates(taxes: seq<ItemTaxRow>, m: real, base: real, ftApplies: bool)
    returns (stRate: real, st: real, ftRate: real, ft: real)
    ensures stRate == RateSum(taxes, SALES_TAX)
    ensures st == Share(m, stRate, base)
    ensures ft == (if ftApplies then Share(m, RateSum(taxes, FURTHER_SALES_TAX), base) else 0.0)
    ensures ftRate == (if ftApplies then LastRate(taxes, FURTHER_SALES_TAX) else 0.0)
  {
    stRate, st, ftRate, ft := 0.0, 0.0, 0.0, 0.0;
    var i := 0;
    while i < |taxes|
      invariant 0 <= i <= |taxes|
      invariant stRate == RateSum(taxes[..i], SALES_TAX)
      invariant st == Share(m, stRate, base)
      invariant ftApplies ==> ft == Share(m, RateSum(taxes[..i], FURTHER_SALES_TAX), base)
      invariant !ftApplies ==> ft == 0.0 && ftRate == 0.0
      invariant ftApplies ==> ftRate == LastRate(taxes[..i], FURTHER_SALES_TAX)
    {
      PrefixStep(taxes, i, SALES_TAX);
      PrefixStep(taxes, i, FURTHER_SALES_TAX);
      AddShare(m, stRate, taxes[i].taxRate, base);
      AddShare(m, RateSum(taxes[..i], FURTHER_SALES_TAX), taxes[i].taxRate, base);
      stRate, st, ftRate, ft := NormalFlowStep(taxes[i], m, base, ftApplies, stRate, st, ftRate, ft);
      i := i + 1;
    }
    assert taxes[..i] == taxes;
  }

  /** The `forEach` of the two Sales Tax overrides that sums further tax. */
  method FurtherTaxOnBase(taxes: seq<ItemTaxRow>, m: real, base: real, ftApplies: bool) returns (ft: real)
    ensures ft == (if ftApplies then Share(m, RateSum(taxes, FURTHER_SALES_TAX), base) else 0.0)
  {
    ft := 0.0;
    var i := 0;
    while i < |taxes|
      invariant 0 <= i <= |taxes|
      invariant ft == (if ftApplies then Share(m, RateSum(taxes[..i], FURTHER_SALES_TAX), base) else 0.0)
    {
      assert taxes[..i + 1][..i] == taxes[..i];
      AddShare(m, RateSum(taxes[..i], FURTHER_SALES_TAX), taxes[i].taxRate, base);
      if taxes[i].category == FURTHER_SALES_TAX && ftApplies {
        ft := ft + Share(m, taxes[i].taxRate, base);
      }
      i := i + 1;
    }
    assert taxes[..i] == taxes;
  }

  /** The first `forEach` of `calculate_third_schedule_taxes`: the rate of
      the last Sales Tax row. */
  method LastSalesTaxRate(taxes: seq<ItemTaxRow>) returns (stRate: real)
    ensures stRate == LastRate(taxes, SALES_TAX)
  {
    stRate := 0.0;
    var i := 0;
    while i < |taxes|
      invariant 0 <= i <= |taxes|
      invariant stRate == LastRate(taxes[..i], SALES_TAX)
    {
      assert taxes[..i + 1][..i] == taxes[..i];
      if taxes[i].category == SALES_TAX {
        stRate := taxes[i].taxRate;
      }
      i := i + 1;
    }
    assert taxes[..i] == taxes;
  }

  /** The second `forEach`: the further tax of the last Further Sales Tax
      row on the taxable amount, when further tax applies. */
  method ThirdScheduleFurtherTax(taxes: seq<ItemTaxRow>, applies: bool, m: real, taxable: real)
    returns (ftRate: real, ft: real)
    ensures ftRate == (if applies then LastRate(taxes, FURTHER_SALES_TAX) else 0.0)
    ensures ft == (if applies then m * (taxable * ftRate / 100.0) else 0.0)
  {
    ft, ftRate := 0.0, 0.0;
    var i := 0;
    while i < |taxes|
      invariant 0 <= i <= |taxes|
      invariant applies ==> ftRate == LastRate(taxes[..i], FURTHER_SALES_TAX)
      invariant applies ==> ft == m * (taxable * ftRate / 100.0)
      invariant !applies ==> ftRate == 0.0 && ft == 0.0
    {
      assert taxes[..i + 1][..i] == taxes[..i];
      if taxes[i].category == FURTHER_SALES_TAX && applies {
        ftRate := taxes[i].taxRate;
        ft := m * (taxable * ftRate / 100.0);
      }
      i := i + 1;
    }
    assert taxes[..i] == taxes;
  }

  /** `calculate_third_schedule_taxes`. */
  method CalculateThirdScheduleTaxes(h: FormHeader, rate: real, item: Item, template: ItemTaxTemplate, m: real, qty: real)
    returns (r: ThirdScheduleResult)
    ensures r == ThirdScheduleTaxes(h, rate, item, template, m, qty)
  {
    var taxableBase := Max(item.fixedNotifiedValue, item.retailPrice);
    if taxableBase <= 0.0 {
      return ThirdScheduleResult(0.0, 0.0, 0.0, 0.0, 0.0, m * qty * rate);
    }
    var taxable := qty * taxableBase;
    var stRate := LastSalesTaxRate(template.taxes);
    var salesTax := 0.0;
    if stRate > 0.0 {
      salesTax := m * (taxable * stRate / 100.0);
    }
    var ftRate, ft := ThirdScheduleFurtherTax(template.taxes, FurtherTaxApplies(h), m, taxable);
    var baseAmount := m * qty * rate;
    r := ThirdScheduleResult(salesTax, stRate, ft, ftRate, m * (qty * taxableBase), baseAmount + salesTax + ft);
  }

  /** `apply_third_schedule_taxes_to_row`. */
  method ApplyThirdScheduleTaxesToRow(row: ItemRow, r: ThirdScheduleResult)
    modifies row
    ensures row.Taxes() == ThirdScheduleRowTaxes(r) && row.Input() == old(row.Input())
  {
    row.stRate := r.stRate;
    row.st := r.st;
    row.ftRate := r.ftRate;
    row.furtherTax := r.furtherTax;
    row.at := 0.0;
    row.totalInclTax := r.totalInclTax;
  }

  /** `handle_third_schedule_item_calculation`. */
  method HandleThirdScheduleItem(h: FormHeader, row: ItemRow, db: Db) returns (written: bool)
    modifies row
    ensures row.Input() == old(row.Input())
    ensures match ThirdScheduleLine(h, old(row.Input()), db)
      case Untouched => !written && row.Taxes() == old(row.Taxes())
      case Written(t, _) => written && row.Taxes() == t
  {
    var qty := Abs(row.qty);
    var m := Multiplier(h.isReturn, row.qty);
    var item := Lookup(db.items, row.itemCode);
    if item.None? {
      return false;
    }
    var name := FetchItemTaxTemplate(row.Input(), db);
    if name.None? {
      ApplyThirdScheduleTaxesToRow(row, ThirdScheduleResult(0.0, 0.0, 0.0, 0.0, 0.0, m * qty * row.rate));
      return true;
    }
    var template := Lookup(db.itemTaxTemplates, name.value);
    if template.None? {
      return false;
    }
    var r := CalculateThirdScheduleTaxes(h, row.rate, item.value, template.value, m, qty);
    ApplyThirdScheduleTaxesToRow(row, r);
    return true;
  }

  // ---------------------------------------------------------------------
  // The template cache

  function CacheKey(itemCode: string): string
  {
    "template_" + itemCode
  }

  /** The global cache of fetched Item Tax Templates, keyed by
      `template_<item code>`; entries are overwritten, never cleared. */
  class TemplateCache {
    var entries: map<string, ItemTaxTemplate>

    constructor ()
      ensures entries == map[]
    {
      entries := map[];
    }

    /** `cache_tax_template` */
    method Put(name: string, template: ItemTaxTemplate)
      modifies this
      ensures entries == old(entries)[name := template]
    {
      entries := entries[name := template];
    }

    /** `get_cached_tax_template`: the cached template, or none. */
    function Get(name: string): (r: Option<ItemTaxTemplate>)
      reads this
      ensures r.Some? <==> name in entries
      ensures r.Some? ==> r.value == entries[name]
    {
      Lookup(entries, name)
    }
  }

  // ---------------------------------------------------------------------
  // The calculator, writing the row in place

  /** Zeroes every tax field and sets the total. */
  method ClearRow(row: ItemRow, total: real)
    modifies row
    ensures row.Taxes() == ZeroTaxes(total) && row.Input() == old(row.Input())
  {
    row.stRate, row.ftRate, row.st, row.furtherTax, row.at := 0.0, 0.0, 0.0, 0.0, 0.0;
    row.totalInclTax := total;
  }

  /** The further tax of the two Sales Tax overrides: the template is
      fetched again and its Further Sales Tax rows summed. */
  method FetchOverrideFurtherTax(h: FormHeader, row: LineInput, m: real, base: real, db: Db) returns (ft: real)
    ensures ft == OverrideFurtherTax(h, row, m, base, db)
  {
    ft := 0.0;
    var name := FetchItemTaxTemplate(row, db);
    if name.Some? {
      var template := Lookup(db.itemTaxTemplates, name.value);
      if template.Some? {
        ft := FurtherTaxOnBase(template.value.taxes, m, base, FurtherTaxApplies(h));
      }
    }
  }

  /** The `custom_st` override: the rate is derived from the amount. */
  method OverrideSalesTax(h: FormHeader, row: ItemRow, db: Db)
    modifies row
    ensures row.Input() == old(row.Input())
    ensures Written(row.Taxes(), None) == OverrideStLine(h, old(row.Input()), old(row.Taxes()), db)
  {
    var m := Multiplier(h.isReturn, row.qty);
    var base := Abs(row.qty) * row.rate;
    var salesTax := row.st;
    var salesTaxRate := DerivedRate(salesTax, m, base);
    var further := FetchOverrideFurtherTax(h, row.Input(), m, base, db);
    row.stRate, row.st, row.furtherTax, row.at, row.totalInclTax
      := salesTaxRate, salesTax, further, 0.0, m * base + salesTax + further;
  }

  /** The `custom_st_rate` override: the amount is derived from the rate. */
  method OverrideSalesTaxRate(h: FormHeader, row: ItemRow, db: Db)
    modifies row
    ensures row.Input() == old(row.Input())
    ensures Written(row.Taxes(), None) == OverrideStRateLine(h, old(row.Input()), old(row.Taxes()), db)
  {
    var m := Multiplier(h.isReturn, row.qty);
    var base := Abs(row.qty) * row.rate;
    var salesTaxRate := row.stRate;
    var salesTax := Share(m, salesTaxRate, base);
    row.stRate := salesTaxRate;
    row.st := salesTax;
    var further := FetchOverrideFurtherTax(h, row.Input(), m, base, db);
    row.furtherTax, row.at, row.totalInclTax := further, 0.0, m * base + salesTax + further;
  }

  /** The `custom_ft_rate` override: the further tax is derived from the rate. */
  method OverrideFurtherTaxRate(h: FormHeader, row: ItemRow)
    modifies row
    ensures row.Input() == old(row.Input())
    ensures Written(row.Taxes(), None) == OverrideFtRateLine(h, old(row.Input()), old(row.Taxes()))
  {
    var input := row.Input();
    var m := Multiplier(h.isReturn, row.qty);
    var base := Abs(row.qty) * row.rate;
    assert base == BaseAmount(input);
    var furtherRate := row.ftRate;
    var further := Share(m, furtherRate, base);
    var t := LineTaxes(row.stRate, row.st, furtherRate, further, 0.0, m * base + row.st + further);
    assert Written(t, None) == OverrideFtRateLine(h, input, row.Taxes());
    row.SetTaxes(t);
  }

  /** The normal flow: taxes from the resolved template, which is cached. */
  method NormalCalculation(h: FormHeader, row: ItemRow, db: Db, cache: TemplateCache) returns (written: bool)
    modifies row, cache
    ensures row.Input() == old(row.Input())
    ensures match NormalLine(h, old(row.Input()), db)
      case Untouched =>
        !written && row.Taxes() == old(row.Taxes()) && cache.entries == old(cache.entries)
      case Written(t, c) =>
        && written && row.Taxes() == t
        && cache.entries == (if c.Some? then old(cache.entries)[CacheKey(row.itemCode) := c.value] else old(cache.entries))
  {
    var m := Multiplier(h.isReturn, row.qty);
    var base := Abs(row.qty) * row.rate;
    var input := row.Input();
    assert base == BaseAmount(input);
    var name := FetchItemTaxTemplate(input, db);
    if name.None? {
      ClearRow(row, m * base);
      return true;
    }
    var template := Lookup(db.itemTaxTemplates, name.value);
    if template.None? {
      return false;
    }
    assert NormalLine(h, input, db) == Written(NormalTaxes(h, template.value.taxes, m, base), template);
    cache.Put(CacheKey(row.itemCode), template.value);
    var stRate, st, ftRate, ft := NormalFlowRates(template.value.taxes, m, base, FurtherTaxApplies(h));
    var t := LineTaxes(stRate, st, ftRate, ft, 0.0, m * base + st + ft);
    assert t == NormalTaxes(h, template.value.taxes, m, base);
    row.SetTaxes(t);
    return true;
  }

  /** `calculate_taxes(frm, row, manual_override_field)`: writes the row as
      `CalculateLine` says and returns whether it did (a written row is
      followed by a summary rebuild). */
  method CalculateTaxes(form: Form, row: ItemRow, mode: Override, db: Db, cache: TemplateCache) returns (written: bool)
    modifies row, cache
    ensures row.Input() == old(row.Input())
    ensures match CalculateLine(form.header, old(row.Input()), old(row.Taxes()), mode, db)
      case Untouched =>
        !written && row.Taxes() == old(row.Taxes()) && cache.entries == old(cache.entries)
      case Written(t, c) =>
        && written && row.Taxes() == t
        && cache.entries == (if c.Some? then old(cache.entries)[CacheKey(row.itemCode) := c.value] else old(cache.entries))
  {
    var h := form.header;
    if h.purchaseInvoiceType == IMPORT {
      return false;
    }
    // An Unregistered supplier and a non-sales-tax invoice clear the row alike.
    if h.supplierStStatus == UNREGISTERED || h.salesTaxInvoice == 0 {
      ClearRow(row, Multiplier(h.isReturn, row.qty) * (Abs(row.qty) * row.rate));
      return true;
    }
    if row.taxClassification == THIRD_SCHEDULE_GOODS {
      written := HandleThirdScheduleItem(h, row, db);
      return;
    }
    match mode
    case OverrideSt =>
      OverrideSalesTax(h, row, db);
      written := true;
    case OverrideStRate =>
      OverrideSalesTaxRate(h, row, db);
      written := true;
    case OverrideFtRate =>
      OverrideFurtherTaxRate(h, row);
      written := true;
    case NoOverride =>
      written := NormalCalculation(h, row, db, cache);
  }
}
