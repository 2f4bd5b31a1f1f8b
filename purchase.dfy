/** The Purchase Invoice Item form script: on a change of item, quantity,
    rate or discount it recomputes the row's sales tax from the Item Tax
    Template (resolved through the row or its Item Group) and its further
    tax from the invoice's Purchase Taxes and Charges Template.

    The script applies no sign multiplier and no summary rebuild. Its
    functions share their names with the shared form script's; which
    definition a page ends up with depends on the load order, which is not
    part of this model. */
module PurchaseInvoiceScript {
  import opened Base
  import opened Records
  import Taxation

  /** `getMultiplier(frm)`: -1 on a return invoice, 1 otherwise; the
      script defines it but never calls it. */
  function ReturnMultiplier(isReturn: int): (m: real)
    ensures m == 1.0 || m == -1.0
    ensures m == -1.0 <==> isReturn == 1
  {
    if isReturn == 1 then -1.0 else 1.0
  }

  /** `fetch_item_tax_template`: the row's own template, else the template
      of the first entry of the Item Group's taxes table (only the first
      entry is looked at). */
  function GroupTemplate(row: LineInput, db: Db): (r: Option<string>)
    ensures r.Some? ==> r.value != ""
    ensures row.itemTaxTemplate != "" ==> r == Some(row.itemTaxTemplate)
    ensures row.itemTaxTemplate == "" && r.Some? ==>
      && row.itemGroup in db.itemGroups
      && |db.itemGroups[row.itemGroup].taxes| > 0
      && r.value == db.itemGroups[row.itemGroup].taxes[0].itemTaxTemplate
  {
    if row.itemTaxTemplate != "" then Some(row.itemTaxTemplate)
    else if row.itemGroup !in db.itemGroups then None
    else
      var taxes := db.itemGroups[row.itemGroup].taxes;
      if |taxes| > 0 && taxes[0].itemTaxTemplate != "" then Some(taxes[0].itemTaxTemplate) else None
  }

  /** `row.qty > 0 ? row.qty : 1`: the quantity the taxes are computed on. */
  function TaxQty(qty: real): (q: real)
    ensures q > 0.0
    ensures qty > 0.0 ==> q == qty
    ensures qty <= 0.0 ==> q == 1.0
  {
    if qty > 0.0 then qty else 1.0
  }

  /** The amount the script taxes: the clamped quantity times the rate. */
  function TaxBase(row: LineInput): real
  {
    TaxQty(row.qty) * row.rate
  }

  /** The sum of the Sales Tax rows' shares of `qty * rate`. */
  function SalesTaxSum(taxes: seq<ItemTaxRow>, base: real): real
  {
    if |taxes| == 0 then 0.0
    else
      var last := taxes[|taxes| - 1];
      SalesTaxSum(taxes[..|taxes| - 1], base) + (if last.category == SALES_TAX then Percent(last.taxRate, base) else 0.0)
  }

  /** The sum of the Further Sales Tax rows' shares of `qty * rate`, over a
      Purchase Taxes and Charges Template. */
  function FurtherTaxSum(taxes: seq<ChargeTemplateRow>, base: real): real
  {
    if |taxes| == 0 then 0.0
    else
      var last := taxes[|taxes| - 1];
      FurtherTaxSum(taxes[..|taxes| - 1], base) + (if last.category == FURTHER_SALES_TAX then Percent(last.rate, base) else 0.0)
  }

  /** The sum of the Further Sales Tax rates of a charge template. */
  function FurtherRateSum(taxes: seq<ChargeTemplateRow>): real
  {
    if |taxes| == 0 then 0.0
    else
      var last := taxes[|taxes| - 1];
      FurtherRateSum(taxes[..|taxes| - 1]) + (if last.category == FURTHER_SALES_TAX then last.rate else 0.0)
  }

  lemma Distribute(a: real, b: real, base: real)
    ensures Percent(a, base) + Percent(b, base) == Percent(a + b, base)
  {
  }

  /** The sales tax is the summed Sales Tax rate applied to the base. */
  lemma {:induction false} SalesTaxIsSummedRate(taxes: seq<ItemTaxRow>, base: real)
    ensures SalesTaxSum(taxes, base) == Percent(Taxation.RateSum(taxes, SALES_TAX), base)
  {
    if |taxes| > 0 {
      var init := taxes[..|taxes| - 1];
      SalesTaxIsSummedRate(init, base);
      var last := taxes[|taxes| - 1];
      Distribute(Taxation.RateSum(init, SALES_TAX), if last.category == SALES_TAX then last.taxRate else 0.0, base);
    }
  }

  /** The further tax is the summed Further Sales Tax rate applied to the
      base. */
  lemma {:induction false} FurtherTaxIsSummedRate(taxes: seq<ChargeTemplateRow>, base: real)
    ensures FurtherTaxSum(taxes, base) == Percent(FurtherRateSum(taxes), base)
  {
    if |taxes| > 0 {
      var init := taxes[..|taxes| - 1];
      FurtherTaxIsSummedRate(init, base);
      var last := taxes[|taxes| - 1];
      Distribute(FurtherRateSum(init), if last.category == FURTHER_SALES_TAX then last.rate else 0.0, base);
    }
  }

  /** The fields `calculate_additional_taxes` writes (`custom_ft_rate` is
      not among them). */
  datatype PurchaseRowTaxes = PurchaseRowTaxes(stRate: real, st: real, furtherTax: real, at: real, totalInclTax: real)

  /** `calculate_additional_taxes`: with no Purchase Taxes and Charges
      Template on the invoice, or when it cannot be fetched, nothing is
      written; otherwise the further tax of its Further Sales Tax rows is
      added, advance tax is 0, and the total uses the raw quantity. */
  function AdditionalTaxes(h: FormHeader, row: LineInput, st: real, stRate: real, db: Db): Option<PurchaseRowTaxes>
  {
    if h.taxesAndCharges == "" || h.taxesAndCharges !in db.purchaseTemplates then None
    else
      var ft := FurtherTaxSum(db.purchaseTemplates[h.taxesAndCharges].taxes, TaxBase(row));
      Some(PurchaseRowTaxes(stRate, st, ft, 0.0, row.qty * row.rate + st + ft))
  }

  /** `calculate_taxes(frm, row)` of this script: Import invoices are left
      alone; a failed Item Tax Template fetch writes nothing; no template
      means no sales tax. */
  function PurchaseRow(h: FormHeader, row: LineInput, db: Db): Option<PurchaseRowTaxes>
  {
    if h.purchaseInvoiceType == IMPORT then None
    else
      match GroupTemplate(row, db)
      case None => AdditionalTaxes(h, row, 0.0, 0.0, db)
      case Some(name) =>
        if name !in db.itemTaxTemplates then None
        else
          var taxes := db.itemTaxTemplates[name].taxes;
          AdditionalTaxes(h, row, SalesTaxSum(taxes, TaxBase(row)), Taxation.RateSum(taxes, SALES_TAX), db)
  }

  // ---------------------------------------------------------------------
  // Properties

  /** When the row is written: the sales tax rate is the summed Sales Tax
      rate of the template (0 without one), the sales and further tax are
      the summed rates on the quantity clamped to be positive, advance tax
      is 0, and the total is the raw `qty * rate` plus both taxes. */
  lemma PurchaseRowTaxesMeaning(h: FormHeader, row: LineInput, db: Db)
    ensures match PurchaseRow(h, row, db)
      case None => true
      case Some(u) =>
        var base := TaxBase(row);
        var template := GroupTemplate(row, db);
        var stRate := if template.None? then 0.0 else Taxation.RateSum(db.itemTaxTemplates[template.value].taxes, SALES_TAX);
        && u.stRate == stRate
        && u.st == Percent(stRate, base)
        && u.furtherTax == Percent(FurtherRateSum(db.purchaseTemplates[h.taxesAndCharges].taxes), base)
        && u.at == 0.0
        && u.totalInclTax == row.qty * row.rate + u.st + u.furtherTax
  {
    var base := TaxBase(row);
    if PurchaseRow(h, row, db).Some? {
      var charges := db.purchaseTemplates[h.taxesAndCharges].taxes;
      FurtherTaxIsSummedRate(charges, base);
      var template := GroupTemplate(row, db);
      if template.Some? {
        var taxes := db.itemTaxTemplates[template.value].taxes;
        SalesTaxIsSummedRate(taxes, base);
        var st := SalesTaxSum(taxes, base);
        assert PurchaseRow(h, row, db) == AdditionalTaxes(h, row, st, Taxation.RateSum(taxes, SALES_TAX), db);
      } else {
        assert PurchaseRow(h, row, db) == AdditionalTaxes(h, row, 0.0, 0.0, db);
      }
    }
  }

  /** The row is written exactly when the invoice is not an Import, the
      invoice names a fetchable Purchase Taxes and Charges Template, and a
      resolved Item Tax Template can be fetched. */
  lemma PurchaseRowWrittenWhen(h: FormHeader, row: LineInput, db: Db)
    ensures PurchaseRow(h, row, db).Some? <==>
      && h.purchaseInvoiceType != IMPORT
      && h.taxesAndCharges != "" && h.taxesAndCharges in db.purchaseTemplates
      && (GroupTemplate(row, db).None? || GroupTemplate(row, db).value in db.itemTaxTemplates)
  {
  }

  /** The script ignores `is_return`: a return invoice gets the same
      (unsigned) taxes as the original. */
  lemma ReturnIgnored(h: FormHeader, row: LineInput, db: Db, isReturn: int)
    ensures PurchaseRow(h.(isReturn := isReturn), row, db) == PurchaseRow(h, row, db)
  {
  }

  /** A non-positive quantity has its taxes computed on one unit while its
      total keeps the raw quantity. */
  lemma NonPositiveQtyTaxedAsOne(h: FormHeader, row: LineInput, db: Db)
    requires row.qty <= 0.0
    ensures PurchaseRow(h, row, db).Some? <==> PurchaseRow(h, row.(qty := 1.0), db).Some?
    ensures PurchaseRow(h, row, db).Some? ==>
      var u, one := PurchaseRow(h, row, db).value, PurchaseRow(h, row.(qty := 1.0), db).value;
      && u.st == one.st && u.furtherTax == one.furtherTax
      && u.totalInclTax == row.qty * row.rate + u.st + u.furtherTax
  {
    assert TaxBase(row) == TaxBase(row.(qty := 1.0));
    assert GroupTemplate(row, db) == GroupTemplate(row.(qty := 1.0), db);
  }

  // ---------------------------------------------------------------------
  // The script, writing the row in place

  /** The `forEach` over the Item Tax Template's rows. */
  method SalesTaxFromTemplate(taxes: seq<ItemTaxRow>, base: real) returns (st: real, stRate: real)
    ensures st == SalesTaxSum(taxes, base)
    ensures stRate == Taxation.RateSum(taxes, SALES_TAX)
  {
    st, stRate := 0.0, 0.0;
    var i := 0;
    while i < |taxes|
      invariant 0 <= i <= |taxes|
      invariant st == SalesTaxSum(taxes[..i], base)
      invariant stRate == Taxation.RateSum(taxes[..i], SALES_TAX)
    {
      assert taxes[..i + 1][..i] == taxes[..i];
      if taxes[i].category == SALES_TAX {
        st := st + taxes[i].taxRate * 0.01 * base;
        assert taxes[i].taxRate * 0.01 * base == Percent(taxes[i].taxRate, base);
        stRate := stRate + taxes[i].taxRate;
      }
      i := i + 1;
    }
    assert taxes[..i] == taxes;
  }

  /** The `forEach` over the Purchase Taxes and Charges Template's rows. */
  method FurtherTaxFromTemplate(taxes: seq<ChargeTemplateRow>, base: real) returns (ft: real)
    ensures ft == FurtherTaxSum(taxes, base)
  {
    ft := 0.0;
    var i := 0;
    while i < |taxes|
      invariant 0 <= i <= |taxes|
      invariant ft == FurtherTaxSum(taxes[..i], base)
    {
      assert taxes[..i + 1][..i] == taxes[..i];
      if taxes[i].category == FURTHER_SALES_TAX {
        ft := ft + taxes[i].rate * 0.01 * base;
        assert taxes[i].rate * 0.01 * base == Percent(taxes[i].rate, base);
      }
      i := i + 1;
    }
    assert taxes[..i] == taxes;
  }

  /** `fetch_item_tax_template` of this script. */
  method FetchGroupTemplate(row: LineInput, db: Db) returns (r: Option<string>)
    ensures r == GroupTemplate(row, db)
  {
    if row.itemTaxTemplate != "" {
      return Some(row.itemTaxTemplate);
    }
    var group := Lookup(db.itemGroups, row.itemGroup);
    if group.None? {
      return None;
    }
    var taxes := group.value.taxes;
    if |taxes| > 0 {
      var entry := taxes[0];
      if entry.itemTaxTemplate != "" {
        return Some(entry.itemTaxTemplate);
      }
    }
    return None;
  }

  /** `calculate_additional_taxes(frm, row, sales_tax, sales_tax_rate)`. */
  method CalculateAdditionalTaxes(h: FormHeader, row: ItemRow, st: real, stRate: real, db: Db)
    modifies row
    ensures row.Input() == old(row.Input()) && row.ftRate == old(row.ftRate)
    ensures match AdditionalTaxes(h, old(row.Input()), st, stRate, db)
      case None => row.Taxes() == old(row.Taxes())
      case Some(u) =>
        && row.stRate == u.stRate && row.st == u.st && row.furtherTax == u.furtherTax
        && row.at == u.at && row.totalInclTax == u.totalInclTax
  {
    var qty := 1.0;
    if row.qty > 0.0 {
      qty := row.qty;
    }
    var base := qty * row.rate;
    assert base == TaxBase(row.Input());
    if h.taxesAndCharges == "" {
      return;
    }
    var template := Lookup(db.purchaseTemplates, h.taxesAndCharges);
    if template.None? {
      return;
    }
    var further := FurtherTaxFromTemplate(template.value.taxes, base);
    var input := row.Input();
    assert further == FurtherTaxSum(db.purchaseTemplates[h.taxesAndCharges].taxes, TaxBase(input));
    assert !(h.taxesAndCharges == "" || h.taxesAndCharges !in db.purchaseTemplates);
    assert AdditionalTaxes(h, input, st, stRate, db).Some?;
    assert AdditionalTaxes(h, input, st, stRate, db).value.furtherTax == further;
    assert AdditionalTaxes(h, input, st, stRate, db).value.totalInclTax == input.qty * input.rate + st + further;
    row.stRate := stRate;
    row.st := st;
    row.furtherTax := further;
    row.at := 0.0;
    row.totalInclTax := row.qty * row.rate + st + further;
  }

  /** `calculate_taxes(frm, row)` of this script. */
  method CalculateTaxes(h: FormHeader, row: ItemRow, db: Db)
    modifies row
    ensures row.Input() == old(row.Input()) && row.ftRate == old(row.ftRate)
    ensures match PurchaseRow(h, old(row.Input()), db)
      case None => row.Taxes() == old(row.Taxes())
      case Some(u) =>
        && row.stRate == u.stRate && row.st == u.st && row.furtherTax == u.furtherTax
        && row.at == u.at && row.totalInclTax == u.totalInclTax
  {
    if h.purchaseInvoiceType == IMPORT {
      return;
    }
    var name := FetchGroupTemplate(row.Input(), db);
    var qty := if row.qty > 0.0 then row.qty else 1.0;
    if name.None? {
      CalculateAdditionalTaxes(h, row, 0.0, 0.0, db);
      return;
    }
    var template := Lookup(db.itemTaxTemplates, name.value);
    if template.None? {
      return;
    }
    var base := qty * row.rate;
    assert base == TaxBase(row.Input());
    var st, stRate := SalesTaxFromTemplate(template.value.taxes, base);
    assert PurchaseRow(h, row.Input(), db) == AdditionalTaxes(h, row.Input(), st, stRate, db);
    CalculateAdditionalTaxes(h, row, st, stRate, db);
  }
}
