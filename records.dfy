/** The records the tax engine reads and writes: master data fetched from
    the host (items, item groups, tax templates, FBR transaction types), the
    invoice header and its item rows as the form scripts see them, and the
    tax-charge rows of an invoice's `taxes` table. */
module Records {
  import opened Base

  // Tax categories, as stored in `custom_tax_category` / `tax_category`.
  const SALES_TAX := "Sales Tax"
  const FURTHER_SALES_TAX := "Further Sales Tax"
  const ADVANCE_236G := "236G"

  // Document types and the header values the rules test.
  const SALES_INVOICE := "Sales Invoice"
  const PURCHASE_INVOICE := "Purchase Invoice"
  const UNREGISTERED := "Unregistered"
  const IMPORT := "Import"
  const THIRD_SCHEDULE_GOODS := "3rd Schedule Goods"

  /** A row of an Item Tax Template. The ledger account is `tax_type`;
      `account_head` and `tax_account` are read by some helpers as well and
      are empty when the row has no such field. */
  datatype ItemTaxRow = ItemTaxRow(
    category: string,
    taxRate: real,
    taxType: string,
    accountHead: string,
    taxAccount: string)

  datatype ItemTaxTemplate = ItemTaxTemplate(taxes: seq<ItemTaxRow>)

  /** A row of a Sales or Purchase Taxes and Charges Template. */
  datatype ChargeTemplateRow = ChargeTemplateRow(category: string, rate: real, accountHead: string)

  datatype ChargeTemplate = ChargeTemplate(taxes: seq<ChargeTemplateRow>)

  /** A row of the `taxes` table of an Item or an Item Group. */
  datatype ItemTaxEntry = ItemTaxEntry(taxCategory: string, itemTaxTemplate: string)

  datatype Item = Item(
    taxes: seq<ItemTaxEntry>,
    taxClassification: string,
    fixedNotifiedValue: real,
    retailPrice: real)

  datatype ItemGroup = ItemGroup(taxes: seq<ItemTaxEntry>)

  datatype FbrTransactionType = FbrTransactionType(taxTemplate: string)

  /** What the remote record fetches of the form scripts can see. A name
      that is not a key stands for a fetch that failed or found nothing. */
  datatype Db = Db(
    items: map<string, Item>,
    itemGroups: map<string, ItemGroup>,
    itemTaxTemplates: map<string, ItemTaxTemplate>,
    fbrTypes: map<string, FbrTransactionType>,
    salesTemplates: map<string, ChargeTemplate>,
    purchaseTemplates: map<string, ChargeTemplate>)

  /** The invoice header fields the form scripts read. */
  datatype FormHeader = FormHeader(
    doctype: string,
    isReturn: int,
    purchaseInvoiceType: string,
    supplierStStatus: string,
    salesTaxInvoice: int,
    salesTaxStatus: string,
    taxesAndCharges: string)

  /** The input fields of an item row. */
  datatype LineInput = LineInput(
    itemCode: string,
    itemGroup: string,
    qty: real,
    rate: real,
    itemTaxTemplate: string,
    taxClassification: string)

  /** The computed tax fields of an item row: `custom_st_rate`, `custom_st`,
      `custom_ft_rate`, `custom_further_tax`, `custom_at` and
      `custom_total_incl_tax`. */
  datatype LineTaxes = LineTaxes(
    stRate: real,
    st: real,
    ftRate: real,
    furtherTax: real,
    at: real,
    totalInclTax: real)

  /** A row of an invoice's (or payment entry's) `taxes` table. A field the
      code does not set is empty (or 0.0) and takes the host's default. */
  datatype ChargeRow = ChargeRow(
    chargeType: string,
    accountHead: string,
    description: string,
    taxAmount: real,
    customTaxCategory: string,
    taxCategory: string,
    costCenter: string,
    rate: real,
    category: string,
    addDeductTax: string)

  /** An invoice item row of the form, whose tax fields the form scripts
      overwrite in place. */
  class ItemRow {
    const itemCode: string
    const itemGroup: string
    var qty: real
    var rate: real
    var itemTaxTemplate: string
    var taxClassification: string
    var stRate: real
    var st: real
    var ftRate: real
    var furtherTax: real
    var at: real
    var totalInclTax: real

    constructor (input: LineInput, taxes: LineTaxes)
      ensures Input() == input && Taxes() == taxes
    {
      itemCode, itemGroup := input.itemCode, input.itemGroup;
      qty, rate := input.qty, input.rate;
      itemTaxTemplate, taxClassification := input.itemTaxTemplate, input.taxClassification;
      stRate, st, ftRate := taxes.stRate, taxes.st, taxes.ftRate;
      furtherTax, at, totalInclTax := taxes.furtherTax, taxes.at, taxes.totalInclTax;
    }

    function Input(): LineInput
      reads this
    {
      LineInput(itemCode, itemGroup, qty, rate, itemTaxTemplate, taxClassification)
    }

    function Taxes(): LineTaxes
      reads this
    {
      LineTaxes(stRate, st, ftRate, furtherTax, at, totalInclTax)
    }

    /** Overwrites the computed tax fields. */
    method SetTaxes(t: LineTaxes)
      modifies this
      ensures Taxes() == t && Input() == old(Input())
    {
      stRate, st, ftRate := t.stRate, t.st, t.ftRate;
      furtherTax, at, totalInclTax := t.furtherTax, t.at, t.totalInclTax;
    }
  }

  /** The invoice form: its header, its item rows (the list itself is not
      changed by the engine, the rows are) and the two fields the summary
      rewrites. */
  class Form {
    const header: FormHeader
    const items: seq<ItemRow>
    var taxes: seq<ChargeRow>
    var totalTaxesAndCharges: real

    constructor (header: FormHeader, items: seq<ItemRow>, taxes: seq<ChargeRow>, total: real)
      ensures this.header == header && this.items == items
      ensures this.taxes == taxes && totalTaxesAndCharges == total
    {
      this.header, this.items := header, items;
      this.taxes, totalTaxesAndCharges := taxes, total;
    }
  }
}
