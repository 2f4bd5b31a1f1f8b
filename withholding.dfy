/** Withholding tax on a Payment Entry: missing sections of Purchase
    Invoice references are filled from the supplier's default WHT template,
    each invoice reference with a known section and a non-zero rate for the
    party's FBR status gets its WHT amount, the amounts are summed per
    section, and the entry's `taxes` table is rebuilt with one Deduct row per
    section. */
module Withholding {
  import opened Base
  import opened Records

  const SUPPLIER := "Supplier"
  const CUSTOMER := "Customer"
  const PAY := "Pay"
  const ACTIVE := "Active"
  const INACTIVE := "InActive"

  datatype Supplier = Supplier(defaultWhtTemplate: string)

  /** A WHT Sections record. */
  datatype WhtSection = WhtSection(
    accountHead: string,
    receivableAccountHead: string,
    activeRate: real,
    inactiveRate: real)

  /** The fields of a payment reference that decide its withholding. */
  datatype RefData = RefData(doctype: string, allocatedAmount: real, section: string)

  /** The rate and amount withheld on one reference. */
  datatype Wht = Wht(rate: real, amount: real)

  predicate IsInvoiceRef(doctype: string)
  {
    doctype == PURCHASE_INVOICE || doctype == SALES_INVOICE
  }

  /** The supplier's default template fills the section of a Purchase
      Invoice reference that has none. */
  function FillSection(r: RefData, default: string): (f: RefData)
    ensures f.doctype == r.doctype && f.allocatedAmount == r.allocatedAmount
    ensures f.section == (if r.doctype == PURCHASE_INVOICE && r.section == "" && default != "" then default else r.section)
  {
    if r.doctype == PURCHASE_INVOICE && r.section == "" && default != "" then r.(section := default) else r
  }

  function FillSections(refs: seq<RefData>, default: string): (f: seq<RefData>)
    ensures |f| == |refs|
    ensures forall i :: 0 <= i < |refs| ==> f[i] == FillSection(refs[i], default)
  {
    if |refs| == 0 then [] else [FillSection(refs[0], default)] + FillSections(refs[1..], default)
  }

  /** The section names on invoice references. */
  function SectionNames(refs: seq<RefData>): set<string>
  {
    set r | r in refs && r.section != "" && IsInvoiceRef(r.doctype) :: r.section
  }

  /** `get_wht_sections_map`: the WHT Sections records named on invoice
      references. */
  function SectionsMap(refs: seq<RefData>, db: map<string, WhtSection>): (m: map<string, WhtSection>)
    ensures m.Keys <= SectionNames(refs)
    ensures forall n :: n in m <==> n in SectionNames(refs) && n in db
    ensures forall n :: n in m ==> m[n] == db[n]
    ensures SectionNames(refs) == {} ==> m == map[]
  {
    if SectionNames(refs) == {} then map[]
    else map n | n in SectionNames(refs) && n in db :: db[n]
  }

  /** `get_applicable_rate`. */
  function ApplicableRate(section: WhtSection, status: string): (rate: real)
    ensures status == ACTIVE ==> rate == section.activeRate
    ensures status == INACTIVE ==> rate == section.inactiveRate
    ensures status != ACTIVE && status != INACTIVE ==> rate == 0.0
  {
    if status == ACTIVE then section.activeRate
    else if status == INACTIVE then section.inactiveRate
    else 0.0
  }

  /** The withholding of one reference, when it has one. */
  function RefWht(r: RefData, sections: map<string, WhtSection>, status: string): (w: Option<Wht>)
    ensures w.Some? <==> IsInvoiceRef(r.doctype) && r.section != "" && r.section in sections
                         && ApplicableRate(sections[r.section], status) != 0.0
    ensures w.Some? ==> w.value.rate == ApplicableRate(sections[r.section], status)
                        && w.value.amount == r.allocatedAmount * (w.value.rate / 100.0)
  {
    if !IsInvoiceRef(r.doctype) || r.section == "" || r.section !in sections then None
    else
      var rate := ApplicableRate(sections[r.section], status);
      if rate == 0.0 then None else Some(Wht(rate, r.allocatedAmount * (rate / 100.0)))
  }

  // ---------------------------------------------------------------------
  // The per-section summary, an insertion-ordered dictionary

  /** The value of a key of the dictionary; 0 when absent, as for a
      `defaultdict(float)`. */
  function ValueOf(s: seq<(string, real)>, name: string): real
  {
    if |s| == 0 then 0.0
    else if s[0].0 == name then s[0].1
    else ValueOf(s[1..], name)
  }

  function KeysOf(s: seq<(string, real)>): set<string>
  {
    set k | 0 <= k < |s| :: s[k].0
  }

  predicate DistinctKeys(s: seq<(string, real)>)
  {
    forall k, l :: 0 <= k < l < |s| ==> s[k].0 != s[l].0
  }

  lemma KeysOfCons(x: (string, real), t: seq<(string, real)>)
    ensures KeysOf([x] + t) == {x.0} + KeysOf(t)
  {
    var c := [x] + t;
    assert c[0] == x;
    forall y | y in KeysOf(t) ensures y in KeysOf(c) {
      var k :| 0 <= k < |t| && t[k].0 == y;
      assert c[k + 1] == t[k];
    }
    forall y | y in KeysOf(c) ensures y in {x.0} + KeysOf(t) {
      var k :| 0 <= k < |c| && c[k].0 == y;
      if k > 0 {
        assert t[k - 1] == c[k];
      }
    }
  }

  lemma DistinctCons(x: (string, real), t: seq<(string, real)>)
    ensures DistinctKeys([x] + t) <==> x.0 !in KeysOf(t) && DistinctKeys(t)
  {
    var c := [x] + t;
    assert forall k :: 0 <= k < |t| ==> c[k + 1] == t[k];
    if DistinctKeys(c) {
      forall k | 0 <= k < |t| ensures t[k].0 != x.0 {
        assert c[0].0 != c[k + 1].0;
      }
      assert DistinctKeys(t) by {
        forall k, l | 0 <= k < l < |t| ensures t[k].0 != t[l].0 {
          assert c[k + 1].0 != c[l + 1].0;
        }
      }
    }
    if x.0 !in KeysOf(t) && DistinctKeys(t) {
      forall k, l | 0 <= k < l < |c| ensures c[k].0 != c[l].0 {
        assert c[l] == t[l - 1];
        if k == 0 {
          assert t[l - 1].0 in KeysOf(t);
        } else {
          assert c[k] == t[k - 1];
        }
      }
    }
  }

  /** `summary[name] += amount`. */
  function Accumulate(s: seq<(string, real)>, name: string, amount: real): seq<(string, real)>
  {
    if |s| == 0 then [(name, amount)]
    else if s[0].0 == name then [(name, s[0].1 + amount)] + s[1..]
    else [s[0]] + Accumulate(s[1..], name, amount)
  }

  /** Accumulating adds the key when it is new, last, and otherwise keeps
      every key in its place; the keys stay distinct. */
  lemma {:induction false} AccumulateKeys(s: seq<(string, real)>, name: string, amount: real)
    ensures KeysOf(Accumulate(s, name, amount)) == KeysOf(s) + {name}
    ensures DistinctKeys(s) ==> DistinctKeys(Accumulate(s, name, amount))
    ensures name !in KeysOf(s) ==> Accumulate(s, name, amount) == s + [(name, amount)]
  {
    if |s| == 0 {
      assert [(name, amount)] == [(name, amount)] + s;
      KeysOfCons((name, amount), s);
      DistinctCons((name, amount), s);
    } else {
      assert s == [s[0]] + s[1..];
      KeysOfCons(s[0], s[1..]);
      DistinctCons(s[0], s[1..]);
      if s[0].0 == name {
        KeysOfCons((name, s[0].1 + amount), s[1..]);
        DistinctCons((name, s[0].1 + amount), s[1..]);
      } else {
        var tail := Accumulate(s[1..], name, amount);
        AccumulateKeys(s[1..], name, amount);
        KeysOfCons(s[0], tail);
        DistinctCons(s[0], tail);
        if name !in KeysOf(s) {
          assert [s[0]] + (s[1..] + [(name, amount)]) == s + [(name, amount)];
        }
      }
    }
  }

  /** Accumulating never moves a key: every entry keeps its key in its
      place, and the dictionary grows by one entry exactly when the key is
      new. */
  lemma {:induction false} AccumulateInPlace(s: seq<(string, real)>, name: string, amount: real)
    ensures |Accumulate(s, name, amount)| == (if name in KeysOf(s) then |s| else |s| + 1)
    ensures forall k :: 0 <= k < |s| ==> Accumulate(s, name, amount)[k].0 == s[k].0
  {
    if |s| > 0 {
      assert s == [s[0]] + s[1..];
      KeysOfCons(s[0], s[1..]);
      if s[0].0 != name {
        AccumulateInPlace(s[1..], name, amount);
        var acc := Accumulate(s, name, amount);
        forall k | 0 <= k < |s| ensures acc[k].0 == s[k].0 {
          if k > 0 {
            assert acc[k] == Accumulate(s[1..], name, amount)[k - 1];
          }
        }
      }
    }
  }

  /** A dictionary with no keys is empty. */
  lemma NoKeys(s: seq<(string, real)>)
    ensures KeysOf(s) == {} <==> |s| == 0
  {
    if |s| > 0 {
      assert s[0].0 in KeysOf(s);
    }
  }

  /** Accumulating adds the amount to its key's value and leaves the others
      alone. */
  lemma {:induction false} AccumulateValue(s: seq<(string, real)>, name: string, amount: real, key: string)
    ensures ValueOf(Accumulate(s, name, amount), key) == ValueOf(s, key) + (if key == name then amount else 0.0)
  {
    if |s| > 0 && s[0].0 != name {
      AccumulateValue(s[1..], name, amount, key);
      assert Accumulate(s, name, amount)[1..] == Accumulate(s[1..], name, amount);
    } else if |s| > 0 {
      assert Accumulate(s, name, amount)[1..] == s[1..];
    }
  }

  /** A key absent from the dictionary has value 0. */
  lemma {:induction false} ValueOfAbsent(s: seq<(string, real)>, name: string)
    requires name !in KeysOf(s)
    ensures ValueOf(s, name) == 0.0
  {
    if |s| > 0 {
      assert s[0].0 in KeysOf(s);
      assert KeysOf(s[1..]) <= KeysOf(s) by {
        forall x | x in KeysOf(s[1..]) ensures x in KeysOf(s) {
          var k :| 0 <= k < |s[1..]| && s[1..][k].0 == x;
          assert s[k + 1].0 == x;
        }
      }
      ValueOfAbsent(s[1..], name);
    }
  }

  /** With distinct keys the stored entry is the key's value. */
  lemma {:induction false} ValueOfEntry(s: seq<(string, real)>, k: int)
    requires DistinctKeys(s) && 0 <= k < |s|
    ensures ValueOf(s, s[k].0) == s[k].1
  {
    if k > 0 {
      assert s[0].0 != s[k].0;
      assert s[1..][k - 1] == s[k];
      ValueOfEntry(s[1..], k - 1);
    }
  }

  /** The loop over the references filling the per-section summary. */
  function Summary(refs: seq<RefData>, sections: map<string, WhtSection>, status: string): seq<(string, real)>
  {
    if |refs| == 0 then []
    else
      var s := Summary(refs[..|refs| - 1], sections, status);
      var last := refs[|refs| - 1];
      match RefWht(last, sections, status)
      case None => s
      case Some(w) => Accumulate(s, last.section, w.amount)
  }

  /** The WHT withheld on the references of one section, as an independent
      sum over the references. */
  function SectionTotal(refs: seq<RefData>, sections: map<string, WhtSection>, status: string, name: string): real
  {
    if |refs| == 0 then 0.0
    else
      var last := refs[|refs| - 1];
      var w := RefWht(last, sections, status);
      SectionTotal(refs[..|refs| - 1], sections, status, name) + (if w.Some? && last.section == name then w.value.amount else 0.0)
  }

  /** The sections of the references that withhold something. */
  function Withheld(refs: seq<RefData>, sections: map<string, WhtSection>, status: string): set<string>
  {
    set i | 0 <= i < |refs| && RefWht(refs[i], sections, status).Some? :: refs[i].section
  }

  /** The summary has one entry per section some reference withholds in,
      each once, and each section's value is the sum of its references'
      WHT (the order of the entries is SummaryFirstOccurrence). */
  lemma {:induction false} SummaryMeaning(refs: seq<RefData>, sections: map<string, WhtSection>, status: string)
    ensures DistinctKeys(Summary(refs, sections, status))
    ensures KeysOf(Summary(refs, sections, status)) == Withheld(refs, sections, status)
    ensures forall name :: ValueOf(Summary(refs, sections, status), name) == SectionTotal(refs, sections, status, name)
  {
    if |refs| > 0 {
      var init := refs[..|refs| - 1];
      var last := refs[|refs| - 1];
      SummaryMeaning(init, sections, status);
      var s := Summary(init, sections, status);
      var w := RefWht(last, sections, status);
      if w.Some? {
        AccumulateKeys(s, last.section, w.value.amount);
      }
      assert Withheld(refs, sections, status) == Withheld(init, sections, status) + (if w.Some? then {last.section} else {}) by {
        forall x | x in Withheld(init, sections, status) ensures x in Withheld(refs, sections, status) {
          var i :| 0 <= i < |init| && RefWht(init[i], sections, status).Some? && init[i].section == x;
          assert refs[i] == init[i];
        }
        forall x | x in Withheld(refs, sections, status)
          ensures x in Withheld(init, sections, status) || (w.Some? && x == last.section)
        {
          var i :| 0 <= i < |refs| && RefWht(refs[i], sections, status).Some? && refs[i].section == x;
          if i < |init| {
            assert init[i] == refs[i];
          }
        }
        if w.Some? {
          assert refs[|refs| - 1] == last;
        }
      }
      if w.Some? {
        forall name ensures ValueOf(Summary(refs, sections, status), name) == SectionTotal(refs, sections, status, name) {
          AccumulateValue(s, last.section, w.value.amount, name);
        }
      }
    }
  }

  /** The keys of a dictionary, in insertion order. */
  function KeyList(s: seq<(string, real)>): (r: seq<string>)
    ensures |r| == |s| && forall k :: 0 <= k < |s| ==> r[k] == s[k].0
  {
    seq(|s|, k requires 0 <= k < |s| => s[k].0)
  }

  /** The distinct names of a list, each where it first occurs. */
  function FirstOccurrences(names: seq<string>): seq<string>
  {
    if |names| == 0 then []
    else
      var d := FirstOccurrences(names[..|names| - 1]);
      if names[|names| - 1] in d then d else d + [names[|names| - 1]]
  }

  /** The section of every reference that withholds something, in order,
      repeats included. */
  function WithheldSections(refs: seq<RefData>, sections: map<string, WhtSection>, status: string): seq<string>
  {
    if |refs| == 0 then []
    else
      var last := refs[|refs| - 1];
      WithheldSections(refs[..|refs| - 1], sections, status) + (if RefWht(last, sections, status).Some? then [last.section] else [])
  }

  /** The summary's keys are the withholding sections in the order they
      first occur among the references. */
  lemma {:induction false} SummaryFirstOccurrence(refs: seq<RefData>, sections: map<string, WhtSection>, status: string)
    ensures KeyList(Summary(refs, sections, status)) == FirstOccurrences(WithheldSections(refs, sections, status))
  {
    if |refs| > 0 {
      var init := refs[..|refs| - 1];
      var last := refs[|refs| - 1];
      SummaryFirstOccurrence(init, sections, status);
      var s := Summary(init, sections, status);
      var w := RefWht(last, sections, status);
      if w.Some? {
        var names := WithheldSections(refs, sections, status);
        assert names == WithheldSections(init, sections, status) + [last.section];
        assert names[..|names| - 1] == WithheldSections(init, sections, status);
        assert names[|names| - 1] == last.section;
        var acc := Accumulate(s, last.section, w.value.amount);
        assert Summary(refs, sections, status) == acc;
        AccumulateKeys(s, last.section, w.value.amount);
        AccumulateInPlace(s, last.section, w.value.amount);
        assert last.section in KeysOf(s) <==> last.section in KeyList(s) by {
          if last.section in KeysOf(s) {
            var k :| 0 <= k < |s| && s[k].0 == last.section;
            assert KeyList(s)[k] == last.section;
          }
        }
        var d := FirstOccurrences(WithheldSections(init, sections, status));
        assert FirstOccurrences(names) == if last.section in d then d else d + [last.section];
        if last.section in KeysOf(s) {
          assert KeyList(acc) == KeyList(s);
        } else {
          assert KeyList(acc) == KeyList(s) + [last.section];
        }
      } else {
        assert WithheldSections(refs, sections, status) == WithheldSections(init, sections, status) + [];
        assert WithheldSections(init, sections, status) + [] == WithheldSections(init, sections, status);
        assert Summary(refs, sections, status) == s;
      }
    }
  }

  // ---------------------------------------------------------------------
  // The rebuilt table

  /** A Deduct row for one section; a payment (Pay) credits the section's
      receivable account, a receipt its account head. */
  function WhtRow(name: string, total: real, section: WhtSection, paymentType: string): ChargeRow
  {
    ChargeRow("Actual", if paymentType == PAY then section.receivableAccountHead else section.accountHead,
              name, Trunc(total) as real, "", "", "", 0.0, "", "Deduct")
  }

  /** `update_advance_taxes_and_charges`: one row per summarised section,
      in the summary's order. */
  function WhtRows(summary: seq<(string, real)>, sections: map<string, WhtSection>, paymentType: string): seq<ChargeRow>
  {
    if |summary| == 0 then []
    else
      var rows := WhtRows(summary[..|summary| - 1], sections, paymentType);
      var last := summary[|summary| - 1];
      if last.0 in sections then rows + [WhtRow(last.0, last.1, sections[last.0], paymentType)] else rows
  }

  /** With every section known, the table has exactly one row per summary
      entry, in order. */
  lemma {:induction false} WhtRowsComplete(summary: seq<(string, real)>, sections: map<string, WhtSection>, paymentType: string)
    requires KeysOf(summary) <= sections.Keys
    ensures |WhtRows(summary, sections, paymentType)| == |summary|
    ensures forall k :: 0 <= k < |summary| ==>
      WhtRows(summary, sections, paymentType)[k] == WhtRow(summary[k].0, summary[k].1, sections[summary[k].0], paymentType)
  {
    if |summary| > 0 {
      var init := summary[..|summary| - 1];
      assert KeysOf(init) <= KeysOf(summary) by {
        forall x | x in KeysOf(init) ensures x in KeysOf(summary) {
          var k :| 0 <= k < |init| && init[k].0 == x;
          assert summary[k].0 == x;
        }
      }
      assert summary[|summary| - 1].0 in KeysOf(summary);
      WhtRowsComplete(init, sections, paymentType);
    }
  }

  /** One Deduct row per section a reference withholds in, and only those:
      its description is the section, its amount the integer part of the
      section's total WHT. */
  lemma OneRowPerSection(refs: seq<RefData>, sections: map<string, WhtSection>, status: string, paymentType: string)
    ensures var summary := Summary(refs, sections, status);
      var rows := WhtRows(summary, sections, paymentType);
      && |rows| == |summary|
      && (forall k, l :: 0 <= k < l < |rows| ==> rows[k].description != rows[l].description)
      && (set k | 0 <= k < |rows| :: rows[k].description) == Withheld(refs, sections, status)
      && forall k :: 0 <= k < |rows| ==>
           && rows[k].description in sections
           && rows[k].chargeType == "Actual" && rows[k].addDeductTax == "Deduct"
           && rows[k].taxAmount == Trunc(SectionTotal(refs, sections, status, rows[k].description)) as real
           && rows[k].accountHead == (if paymentType == PAY then sections[rows[k].description].receivableAccountHead
                                      else sections[rows[k].description].accountHead)
  {
    var summary := Summary(refs, sections, status);
    SummaryMeaning(refs, sections, status);
    assert Withheld(refs, sections, status) <= sections.Keys;
    WhtRowsComplete(summary, sections, paymentType);
    var rows := WhtRows(summary, sections, paymentType);
    forall k | 0 <= k < |rows|
      ensures rows[k].taxAmount == Trunc(SectionTotal(refs, sections, status, rows[k].description)) as real
    {
      ValueOfEntry(summary, k);
    }
    assert (set k | 0 <= k < |rows| :: rows[k].description) == KeysOf(summary) by {
      assert forall k :: 0 <= k < |rows| ==> rows[k].description == summary[k].0;
    }
  }

  // ---------------------------------------------------------------------
  // The hook as a whole

  /** What `calculate_withholding_tax` does to a payment entry. */
  datatype WhtOutcome =
    | Skipped
    | Failed(missing: MissingRecord)
    | Applied(refs: seq<RefData>, sections: map<string, WhtSection>, taxes: seq<ChargeRow>)

  /** The default template of the paying supplier; a customer has none. */
  function DefaultTemplate(partyType: string, party: string, suppliers: map<string, Supplier>): Result<string>
  {
    if partyType != SUPPLIER then Ok("")
    else if party !in suppliers then Err(MissingRecord("Supplier", party))
    else Ok(suppliers[party].defaultWhtTemplate)
  }

  function WithholdingTax(partyType: string, party: string, status: string, paymentType: string,
                          refs: seq<RefData>, suppliers: map<string, Supplier>, db: map<string, WhtSection>): WhtOutcome
  {
    if partyType != SUPPLIER && partyType != CUSTOMER then Skipped
    else
      match DefaultTemplate(partyType, party, suppliers)
      case Err(missing) => Failed(missing)
      case Ok(default) =>
        var filled := FillSections(refs, default);
        var sections := SectionsMap(filled, db);
        Applied(filled, sections, WhtRows(Summary(filled, sections, status), sections, paymentType))
  }

  /** Only supplier and customer payments are touched. */
  lemma PartyFilter(partyType: string, party: string, status: string, paymentType: string,
                    refs: seq<RefData>, suppliers: map<string, Supplier>, db: map<string, WhtSection>)
    ensures WithholdingTax(partyType, party, status, paymentType, refs, suppliers, db).Skipped?
      <==> partyType != SUPPLIER && partyType != CUSTOMER
  {
  }

  /** A party whose FBR status is neither Active nor InActive withholds
      nothing: the table ends up empty. */
  lemma NothingWithheld(partyType: string, party: string, status: string, paymentType: string,
                        refs: seq<RefData>, suppliers: map<string, Supplier>, db: map<string, WhtSection>)
    requires status != ACTIVE && status != INACTIVE
    ensures match WithholdingTax(partyType, party, status, paymentType, refs, suppliers, db)
      case Applied(_, _, taxes) => taxes == []
      case _ => true
  {
    match DefaultTemplate(partyType, party, suppliers)
    case Err(_) =>
    case Ok(default) =>
      var filled := FillSections(refs, default);
      var sections := SectionsMap(filled, db);
      SummaryMeaning(filled, sections, status);
      assert Withheld(filled, sections, status) == {};
      NoKeys(Summary(filled, sections, status));
  }

  // ---------------------------------------------------------------------
  // The payment entry, updated in place

  /** A row of the payment entry's references table. */
  class Reference {
    const doctype: string
    const allocatedAmount: real
    var section: string
    var whtAmount: real
    var whtRate: real

    constructor (doctype: string, allocatedAmount: real, section: string)
      ensures this.doctype == doctype && this.allocatedAmount == allocatedAmount && this.section == section
      ensures whtAmount == 0.0 && whtRate == 0.0
    {
      this.doctype, this.allocatedAmount, this.section := doctype, allocatedAmount, section;
      whtAmount, whtRate := 0.0, 0.0;
    }

    function Data(): RefData
      reads this
    {
      RefData(doctype, allocatedAmount, section)
    }
  }

  function DataOf(refs: seq<Reference>): (r: seq<RefData>)
    reads set x | x in refs
    ensures |r| == |refs|
    ensures forall i :: 0 <= i < |refs| ==> r[i] == refs[i].Data()
  {
    if |refs| == 0 then [] else [refs[0].Data()] + DataOf(refs[1..])
  }

  /** The recorded WHT amounts and rates of the references. */
  ghost function AmountsOf(refs: seq<Reference>): (r: seq<real>)
    reads set x | x in refs
    ensures |r| == |refs|
    ensures forall i :: 0 <= i < |refs| ==> r[i] == refs[i].whtAmount
  {
    if |refs| == 0 then [] else [refs[0].whtAmount] + AmountsOf(refs[1..])
  }

  ghost function RatesOf(refs: seq<Reference>): (r: seq<real>)
    reads set x | x in refs
    ensures |r| == |refs|
    ensures forall i :: 0 <= i < |refs| ==> r[i] == refs[i].whtRate
  {
    if |refs| == 0 then [] else [refs[0].whtRate] + RatesOf(refs[1..])
  }

  /** A child table lists each row object once. */
  predicate Distinct(refs: seq<Reference>)
  {
    forall i, j :: 0 <= i < j < |refs| ==> refs[i] != refs[j]
  }

  class PaymentEntry {
    const partyType: string
    const party: string
    const paymentType: string
    const fbrStatus: string
    const references: seq<Reference>
    var taxes: seq<ChargeRow>

    constructor (partyType: string, party: string, paymentType: string, fbrStatus: string,
                 references: seq<Reference>, taxes: seq<ChargeRow>)
      ensures this.partyType == partyType && this.party == party && this.paymentType == paymentType
      ensures this.fbrStatus == fbrStatus && this.references == references && this.taxes == taxes
    {
      this.partyType, this.party, this.paymentType := partyType, party, paymentType;
      this.fbrStatus, this.references, this.taxes := fbrStatus, references, taxes;
    }
  }

  /** The first loop: default sections for Purchase Invoice references. */
  method FillDefaultSections(refs: seq<Reference>, default: string)
    requires Distinct(refs)
    modifies set x | x in refs
    ensures forall i :: 0 <= i < |refs| ==> refs[i].Data() == FillSection(old(refs[i].Data()), default)
    ensures forall i :: 0 <= i < |refs| ==> refs[i].whtAmount == old(refs[i].whtAmount) && refs[i].whtRate == old(refs[i].whtRate)
  {
    for i := 0 to |refs|
      invariant forall k :: 0 <= k < i ==> refs[k].Data() == FillSection(old(refs[k].Data()), default)
      invariant forall k :: i <= k < |refs| ==> refs[k].section == old(refs[k].section)
      invariant forall k :: 0 <= k < |refs| ==> refs[k].whtAmount == old(refs[k].whtAmount) && refs[k].whtRate == old(refs[k].whtRate)
    {
      var r := refs[i];
      if r.doctype == PURCHASE_INVOICE && r.section == "" && default != "" {
        r.section := default;
      }
    }
  }

  /** The second loop's body for one reference. */
  method ReferenceWht(r: Reference, sections: map<string, WhtSection>, status: string, summary: seq<(string, real)>)
    returns (next: seq<(string, real)>)
    modifies r
    ensures r.section == old(r.section)
    ensures RefWht(r.Data(), sections, status).None? ==>
      next == summary && r.whtAmount == old(r.whtAmount) && r.whtRate == old(r.whtRate)
    ensures RefWht(r.Data(), sections, status).Some? ==>
      && next == Accumulate(summary, r.section, RefWht(r.Data(), sections, status).value.amount)
      && r.whtAmount == RefWht(r.Data(), sections, status).value.amount
      && r.whtRate == RefWht(r.Data(), sections, status).value.rate
  {
    next := summary;
    ghost var d := r.Data();
    if !IsInvoiceRef(r.doctype) || r.section == "" || r.section !in sections {
      return;
    }
    var rate := ApplicableRate(sections[r.section], status);
    if rate == 0.0 {
      return;
    }
    var amount := r.allocatedAmount * (rate / 100.0);
    r.whtAmount := amount;
    r.whtRate := rate;
    next := Accumulate(summary, r.section, amount);
    assert r.Data() == d;
    assert RefWht(d, sections, status).value == Wht(rate, amount);
  }

  /** A reference after the second loop: its WHT fields hold its
      withholding when it has one and are as before otherwise. */
  predicate WhtRecorded(r: Reference, d: RefData, sections: map<string, WhtSection>, status: string,
                        amount0: real, rate0: real)
    reads r
  {
    match RefWht(d, sections, status)
    case None => r.whtAmount == amount0 && r.whtRate == rate0
    case Some(w) => r.whtAmount == w.amount && r.whtRate == w.rate
  }

  /** A reference's state during the second loop: its data as it was, and
      its WHT recorded once the loop has passed it, untouched before. */
  ghost predicate RefProgress(r: Reference, d: RefData, sections: map<string, WhtSection>, status: string,
                              amount0: real, rate0: real, done: bool)
    reads r
  {
    && r.Data() == d
    && if done then WhtRecorded(r, d, sections, status, amount0, rate0)
       else r.whtAmount == amount0 && r.whtRate == rate0
  }

  /** The second loop: each reference's WHT, and the per-section summary. */
  method ComputeReferenceWht(refs: seq<Reference>, sections: map<string, WhtSection>, status: string)
    returns (summary: seq<(string, real)>)
    requires Distinct(refs)
    modifies set x | x in refs
    ensures summary == Summary(old(DataOf(refs)), sections, status)
    ensures forall i :: 0 <= i < |refs| ==> refs[i].section == old(refs[i].section)
    ensures forall i :: 0 <= i < |refs| ==>
      WhtRecorded(refs[i], old(refs[i].Data()), sections, status, old(refs[i].whtAmount), old(refs[i].whtRate))
  {
    ghost var data := DataOf(refs);
    ghost var amounts, rates := AmountsOf(refs), RatesOf(refs);
    summary := RecordAll(refs, sections, status, data, amounts, rates);
  }

  /** The loop itself, over the references' starting data and WHT. */
  method RecordAll(refs: seq<Reference>, sections: map<string, WhtSection>, status: string,
                   ghost data: seq<RefData>, ghost amounts: seq<real>, ghost rates: seq<real>)
    returns (summary: seq<(string, real)>)
    requires Distinct(refs) && |data| == |amounts| == |rates| == |refs|
    requires forall k :: 0 <= k < |refs| ==> RefProgress(refs[k], data[k], sections, status, amounts[k], rates[k], false)
    modifies set x | x in refs
    ensures summary == Summary(data, sections, status)
    ensures forall k :: 0 <= k < |refs| ==> RefProgress(refs[k], data[k], sections, status, amounts[k], rates[k], true)
  {
    summary := [];
    for i := 0 to |refs|
      invariant summary == Summary(data[..i], sections, status)
      invariant forall k :: 0 <= k < |refs| ==> RefProgress(refs[k], data[k], sections, status, amounts[k], rates[k], k < i)
    {
      SummaryStep(data, i, sections, status);
      summary := ReferenceWht(refs[i], sections, status, summary);
    }
    assert data[..|refs|] == data;
  }

  /** One more reference extends the summary by its own WHT, if any. */
  lemma SummaryStep(data: seq<RefData>, i: int, sections: map<string, WhtSection>, status: string)
    requires 0 <= i < |data|
    ensures Summary(data[..i + 1], sections, status)
      == match RefWht(data[i], sections, status)
         case None => Summary(data[..i], sections, status)
         case Some(w) => Accumulate(Summary(data[..i], sections, status), data[i].section, w.amount)
  {
    assert data[..i + 1][..i] == data[..i];
    assert data[..i + 1][i] == data[i];
  }

  /** The last step: the table cleared, then one row appended per summary
      entry whose section is known. */
  method UpdateTaxes(pe: PaymentEntry, summary: seq<(string, real)>, sections: map<string, WhtSection>)
    modifies pe
    ensures pe.taxes == WhtRows(summary, sections, pe.paymentType)
  {
    pe.taxes := [];
    for i := 0 to |summary|
      invariant pe.taxes == WhtRows(summary[..i], sections, pe.paymentType)
    {
      assert summary[..i + 1][..i] == summary[..i];
      var name, total := summary[i].0, summary[i].1;
      if name !in sections {
        continue;
      }
      var section := sections[name];
      var account := if pe.paymentType == PAY then section.receivableAccountHead else section.accountHead;
      pe.taxes := pe.taxes + [ChargeRow("Actual", account, name, Trunc(total) as real, "", "", "", 0.0, "", "Deduct")];
    }
    assert summary[..|summary|] == summary;
  }

  /** The hook once the default template is known. */
  method ApplyWithholding(pe: PaymentEntry, default: string, db: map<string, WhtSection>)
    requires Distinct(pe.references)
    modifies pe, set x | x in pe.references
    ensures pe.taxes == WhtRows(Summary(FillSections(old(DataOf(pe.references)), default),
                                        SectionsMap(FillSections(old(DataOf(pe.references)), default), db), pe.fbrStatus),
                                SectionsMap(FillSections(old(DataOf(pe.references)), default), db), pe.paymentType)
    ensures forall i :: 0 <= i < |pe.references| ==>
      pe.references[i].Data() == FillSections(old(DataOf(pe.references)), default)[i]
    ensures forall i :: 0 <= i < |pe.references| ==>
      WhtRecorded(pe.references[i], FillSections(old(DataOf(pe.references)), default)[i],
                  SectionsMap(FillSections(old(DataOf(pe.references)), default), db), pe.fbrStatus,
                  old(pe.references[i].whtAmount), old(pe.references[i].whtRate))
  {
    var refs := pe.references;
    ghost var data := DataOf(refs);
    FillDefaultSections(refs, default);
    var filled := DataOf(refs);
    assert filled == FillSections(data, default);
    var sections := SectionsMap(filled, db);
    var summary := ComputeReferenceWht(refs, sections, pe.fbrStatus);
    UpdateTaxes(pe, summary, sections);
  }

  /** `calculate_withholding_tax(payment_entry)`. */
  method CalculateWithholdingTax(pe: PaymentEntry, suppliers: map<string, Supplier>, db: map<string, WhtSection>)
    returns (failed: Option<MissingRecord>)
    requires Distinct(pe.references)
    modifies pe, set x | x in pe.references
    ensures match WithholdingTax(pe.partyType, pe.party, pe.fbrStatus, pe.paymentType, old(DataOf(pe.references)), suppliers, db)
      case Skipped =>
        && failed.None? && pe.taxes == old(pe.taxes)
        && forall i :: 0 <= i < |pe.references| ==>
             && pe.references[i].Data() == old(pe.references[i].Data())
             && pe.references[i].whtAmount == old(pe.references[i].whtAmount)
             && pe.references[i].whtRate == old(pe.references[i].whtRate)
      case Failed(missing) =>
        && failed == Some(missing) && pe.taxes == old(pe.taxes)
        && forall i :: 0 <= i < |pe.references| ==>
             && pe.references[i].Data() == old(pe.references[i].Data())
             && pe.references[i].whtAmount == old(pe.references[i].whtAmount)
             && pe.references[i].whtRate == old(pe.references[i].whtRate)
      case Applied(filled, sections, taxes) =>
        && failed.None? && pe.taxes == taxes
        && (forall i :: 0 <= i < |pe.references| ==> pe.references[i].Data() == filled[i])
        && forall i :: 0 <= i < |pe.references| ==>
             WhtRecorded(pe.references[i], filled[i], sections, pe.fbrStatus,
                         old(pe.references[i].whtAmount), old(pe.references[i].whtRate))
  {
    if pe.partyType != SUPPLIER && pe.partyType != CUSTOMER {
      return None;
    }
    var default := "";
    if pe.partyType == SUPPLIER {
      var supplier := Lookup(suppliers, pe.party);
      if supplier.None? {
        return Some(MissingRecord("Supplier", pe.party));
      }
      default := supplier.value.defaultWhtTemplate;
    }
    assert DefaultTemplate(pe.partyType, pe.party, suppliers) == Ok(default);
    ApplyWithholding(pe, default, db);
    failed := None;
  }
}
