/** The Sales Invoice form script: the item-row and header event handlers
    and the page-level flag that keeps a manual sales-tax override from
    being undone by the recalculations its own field writes trigger.

    The 50 ms timer that clears the flag is the explicit `Settled` event. */
module SalesInvoiceScript {
  import opened Base
  import opened Records
  import opened Taxation
  import opened TaxSummary

  /** The handled field changes, and the timer that ends an override. */
  datatype Event =
    | ItemCodeChanged
    | QtyChanged
    | RateChanged
    | DiscountChanged
    | StRateEdited
    | StEdited
    | TaxTemplateChanged
    | Settled

  /** What a handler does: nothing, `calculate_taxes(frm, row, mode)`, or
      `apply_tax_summary(frm)`. */
  datatype Dispatch = Ignored | Recalculate(mode: Override) | Summarize

  /** The handlers that return early while an override is in progress. */
  predicate Guarded(e: Event)
  {
    e.ItemCodeChanged? || e.QtyChanged? || e.RateChanged? || e.DiscountChanged?
  }

  /** The handlers that start an override. */
  predicate IsOverride(e: Event)
  {
    e.StRateEdited? || e.StEdited?
  }

  /** The events that concern one item row. */
  predicate IsRowEvent(e: Event)
  {
    Guarded(e) || IsOverride(e)
  }

  /** One event: the new value of the flag and what the handler runs. */
  function Step(flag: bool, e: Event): (r: (bool, Dispatch))
    ensures r.0 <==> IsOverride(e) || (flag && !e.Settled?)
    ensures Guarded(e) ==> (r.1 == Ignored <==> flag)
    ensures Guarded(e) && !flag ==> r.1 == Recalculate(NoOverride)
    ensures e.StRateEdited? ==> r.1 == Recalculate(OverrideStRate)
    ensures e.StEdited? ==> r.1 == Recalculate(OverrideSt)
    ensures e.TaxTemplateChanged? ==> r.1 == Summarize
    ensures r.1.Recalculate? ==> IsRowEvent(e)
  {
    match e
    case StRateEdited => (true, Recalculate(OverrideStRate))
    case StEdited => (true, Recalculate(OverrideSt))
    case TaxTemplateChanged => (flag, Summarize)
    case Settled => (false, Ignored)
    case _ => (flag, if flag then Ignored else Recalculate(NoOverride))
  }

  /** A sequence of events from a given flag: the final flag and the
      dispatches, one per event. */
  function Run(flag: bool, events: seq<Event>): (r: (bool, seq<Dispatch>))
    ensures |r.1| == |events|
  {
    if |events| == 0 then (flag, [])
    else
      var p := Run(flag, events[..|events| - 1]);
      var s := Step(p.0, events[|events| - 1]);
      (s.0, p.1 + [s.1])
  }

  /** Running two sequences one after the other is running their
      concatenation. */
  lemma {:induction false} RunAppend(flag: bool, a: seq<Event>, b: seq<Event>)
    ensures var ra := Run(flag, a); var rb := Run(ra.0, b);
      Run(flag, a + b) == (rb.0, ra.1 + rb.1)
  {
    if |b| > 0 {
      var init := b[..|b| - 1];
      assert (a + b)[..|a + b| - 1] == a + init;
      RunAppend(flag, a, init);
      var ra := Run(flag, a);
      var ri := Run(ra.0, init);
      var s := Step(ri.0, b[|b| - 1]);
      assert (a + b)[|a + b| - 1] == b[|b| - 1];
      assert ra.1 + (ri.1 + [s.1]) == (ra.1 + ri.1) + [s.1];
    } else {
      assert a + b == a;
      assert Run(flag, a).1 + [] == Run(flag, a).1;
    }
  }

  /** While the flag is set and no timer fires, the flag stays set and
      every guarded handler does nothing. */
  lemma {:induction false} SuppressedWhileFlagSet(events: seq<Event>)
    requires forall i :: 0 <= i < |events| ==> !events[i].Settled?
    ensures Run(true, events).0
    ensures forall i :: 0 <= i < |events| && Guarded(events[i]) ==> Run(true, events).1[i] == Ignored
  {
    if |events| > 0 {
      var init := events[..|events| - 1];
      SuppressedWhileFlagSet(init);
      var p := Run(true, init);
      assert Run(true, events).1 == p.1 + [Step(p.0, events[|events| - 1]).1];
    }
  }

  /** With the flag clear, a run of guarded edits recalculates the row with
      no override each time, and the flag stays clear. */
  lemma {:induction false} IdleRecalculates(events: seq<Event>)
    requires forall i :: 0 <= i < |events| ==> Guarded(events[i])
    ensures !Run(false, events).0
    ensures forall i :: 0 <= i < |events| ==> Run(false, events).1[i] == Recalculate(NoOverride)
  {
    if |events| > 0 {
      var init := events[..|events| - 1];
      IdleRecalculates(init);
      var p := Run(false, init);
      assert Run(false, events).1 == p.1 + [Step(p.0, events[|events| - 1]).1];
    }
  }

  /** After a manual `custom_st` or `custom_st_rate` edit, whatever the flag
      was before, no item, quantity, rate or discount change recalculates
      the row until the timer fires. */
  lemma OverrideSuppressesUntilSettled(flag: bool, before: seq<Event>, e: Event, after: seq<Event>)
    requires IsOverride(e)
    requires forall i :: 0 <= i < |after| ==> !after[i].Settled?
    ensures var r := Run(flag, before + [e] + after);
      && r.0
      && forall i :: 0 <= i < |after| && Guarded(after[i]) ==> r.1[|before| + 1 + i] == Ignored
  {
    RunAppend(flag, before, [e]);
    RunAppend(flag, before + [e], after);
    assert Run(Run(flag, before).0, [e]).0;
    SuppressedWhileFlagSet(after);
  }

  /** The timer always clears the flag, so the next guarded edit
      recalculates the row again. */
  lemma SettleRestoresRecalculation(flag: bool, events: seq<Event>, e: Event)
    requires Guarded(e)
    ensures Run(flag, events + [Settled, e]).1[|events| + 1] == Recalculate(NoOverride)
  {
    RunAppend(flag, events, [Settled, e]);
    var p := Run(flag, events);
    assert [Settled, e][..1] == [Settled];
  }

  /** The page-level `manual_override_in_progress_sales` flag. */
  class OverrideGuard {
    var inProgress: bool

    constructor ()
      ensures !inProgress
    {
      inProgress := false;
    }

    /** The handler of one event on the given form and row. */
    method Handle(e: Event, form: Form, row: ItemRow, db: Db, cache: TemplateCache)
      requires IsRowEvent(e) ==> row in form.items
      modifies this, row, cache, form
      ensures inProgress == Step(old(inProgress), e).0
      ensures row.Input() == old(row.Input())
      ensures match Step(old(inProgress), e).1
        case Ignored =>
          && row.Taxes() == old(row.Taxes()) && cache.entries == old(cache.entries)
          && form.taxes == old(form.taxes) && form.totalTaxesAndCharges == old(form.totalTaxesAndCharges)
        case Recalculate(mode) =>
          var effect := CalculateLine(form.header, old(row.Input()), old(row.Taxes()), mode, db);
          && (effect.Written? ==> row.Taxes() == effect.taxes)
          && cache.entries == (if effect.Written? && effect.cached.Some?
                               then old(cache.entries)[CacheKey(row.itemCode) := effect.cached.value]
                               else old(cache.entries))
          && (effect.Untouched? ==>
                && row.Taxes() == old(row.Taxes()) && form.taxes == old(form.taxes)
                && form.totalTaxesAndCharges == old(form.totalTaxesAndCharges))
          && (effect.Written? ==>
                match TaxSummary.TaxSummary(form.header.doctype, LinesOf(form.items), old(form.taxes), cache.entries, db)
                case NoChange => false
                case ClearedOnly => form.taxes == [] && form.totalTaxesAndCharges == old(form.totalTaxesAndCharges)
                case Rebuilt(t, total) => form.taxes == t && form.totalTaxesAndCharges == total)
        case Summarize =>
          && row.Taxes() == old(row.Taxes()) && cache.entries == old(cache.entries)
          && match TaxSummary.TaxSummary(form.header.doctype, old(LinesOf(form.items)), old(form.taxes), old(cache.entries), db)
             case NoChange => form.taxes == old(form.taxes) && form.totalTaxesAndCharges == old(form.totalTaxesAndCharges)
             case ClearedOnly => form.taxes == [] && form.totalTaxesAndCharges == old(form.totalTaxesAndCharges)
             case Rebuilt(t, total) => form.taxes == t && form.totalTaxesAndCharges == total
    {
      var next := Step(inProgress, e);
      inProgress := next.0;
      match next.1 {
        case Ignored =>
        case Recalculate(mode) =>
          var _ := RecalculateRow(form, row, mode, db, cache);
        case Summarize =>
          ApplyTaxSummary(form, cache, db);
      }
    }
  }
}
