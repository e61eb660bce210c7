/** The invoice calculation: jurisdiction, per-item tax and its CGST/SGST/IGST split,
    and the invoice totals, recomputed from the current items on every change. */
module TaxEngine {
  import opened FormValues
  import opened LineItems
  import opened Sums

  /** Seller or buyer as the form holds them; only `state` enters the calculation. */
  datatype Party = Party(name: string, gstin: string, address: string, state: string)

  /** An item as the invoice shows it: every original field, plus the computed amounts. */
  datatype ProcessedItem = ProcessedItem(
    item: Item,
    taxableValue: real,
    cgst: real,
    sgst: real,
    igst: real,
    total: real)

  /** The calculation result the invoice views read. */
  datatype Calculations = Calculations(
    items: seq<ProcessedItem>,
    totalTaxable: real,
    totalCGST: real,
    totalSGST: real,
    totalIGST: real,
    totalTax: real,
    grandTotal: real)

  /** The example seller the page starts with. */
  function InitialSeller(): Party
  {
    Party("Acme Corp Technologies", "27AADCB2230M1Z2",
          "123 Tech Park, Andheri East, Mumbai, 400069", "Maharashtra")
  }

  /** The example buyer the page starts with. */
  function InitialBuyer(): Party
  {
    Party("Globex Corporation", "29ABCDE1234F2Z5",
          "456 Business Road, Koramangala, Bengaluru, 560034", "Karnataka")
  }

  /** An invoice is inter-state exactly when the two state strings differ; two unset
      (empty) states are equal, so such an invoice is intra-state. */
  function IsInterState(seller: Party, buyer: Party): (r: bool)
    ensures r <==> seller.state != buyer.state
    ensures seller.state == "" && buyer.state == "" ==> !r
  {
    seller.state != buyer.state
  }

  /** Quantity times unit price, each coerced to 0 when not a number. */
  function TaxableValue(item: Item): real
  {
    Coerce(item.qty) * Coerce(item.price)
  }

  /** The item's whole GST at its (coerced) percentage rate. */
  function TaxAmount(item: Item): real
  {
    TaxableValue(item) * Coerce(item.gstRate) / 100.0
  }

  /** One item through the engine: its tax goes wholly to IGST between states and in two
      equal halves to CGST and SGST within a state; the item total is value plus tax. */
  function ProcessItem(item: Item, interState: bool): (p: ProcessedItem)
    ensures p.item == item
    ensures p.taxableValue == Coerce(item.qty) * Coerce(item.price)
    ensures p.cgst + p.sgst + p.igst == p.taxableValue * Coerce(item.gstRate) / 100.0
    ensures interState ==> p.igst == TaxAmount(item) && p.cgst == 0.0 && p.sgst == 0.0
    ensures !interState ==> p.cgst == p.sgst == TaxAmount(item) / 2.0 && p.igst == 0.0
    ensures p.total == p.taxableValue + p.cgst + p.sgst + p.igst
  {
    var taxableValue := TaxableValue(item);
    var taxAmount := TaxAmount(item);
    var cgst := if interState then 0.0 else taxAmount / 2.0;
    var sgst := if interState then 0.0 else taxAmount / 2.0;
    var igst := if interState then taxAmount else 0.0;
    ProcessedItem(item, taxableValue, cgst, sgst, igst, taxableValue + taxAmount)
  }

  /** Every item processed, in order. */
  function ProcessAll(items: seq<Item>, interState: bool): seq<ProcessedItem>
  {
    seq(|items|, i requires 0 <= i < |items| => ProcessItem(items[i], interState))
  }

  function TaxableOf(p: ProcessedItem): real { p.taxableValue }
  function CgstOf(p: ProcessedItem): real { p.cgst }
  function SgstOf(p: ProcessedItem): real { p.sgst }
  function IgstOf(p: ProcessedItem): real { p.igst }
  function TotalOf(p: ProcessedItem): real { p.total }

  /** What the calculation yields for the given items and jurisdiction: the processed items
      and, as sums over them, the four accumulators, the total tax and the grand total. */
  function Calculate(items: seq<Item>, interState: bool): (c: Calculations)
    ensures |c.items| == |items|
    ensures forall i :: 0 <= i < |items| ==> c.items[i].item == items[i]
    ensures c.grandTotal == c.totalTaxable + c.totalTax
  {
    var processed := ProcessAll(items, interState);
    var totalTaxable := Sum(processed, TaxableOf);
    var totalCGST := Sum(processed, CgstOf);
    var totalSGST := Sum(processed, SgstOf);
    var totalIGST := Sum(processed, IgstOf);
    Calculations(processed, totalTaxable, totalCGST, totalSGST, totalIGST,
                 totalCGST + totalSGST + totalIGST,
                 totalTaxable + totalCGST + totalSGST + totalIGST)
  }

  lemma ProcessAllAppend(items: seq<Item>, x: Item, interState: bool)
    ensures ProcessAll(items + [x], interState) == ProcessAll(items, interState) + [ProcessItem(x, interState)]
  {
  }

  /** The body of the memoised calculation: one pass over the items that builds the
      processed list and advances the accumulators, IGST between states, CGST and SGST
      within a state. */
  method ComputeCalculations(items: seq<Item>, interState: bool) returns (c: Calculations)
    ensures c == Calculate(items, interState)
  {
    var totalTaxable, totalCGST, totalSGST, totalIGST := 0.0, 0.0, 0.0, 0.0;
    var processed: seq<ProcessedItem> := [];
    var i := 0;
    while i < |items|
      invariant 0 <= i <= |items|
      invariant processed == ProcessAll(items[..i], interState)
      invariant totalTaxable == Sum(processed, TaxableOf)
      invariant totalCGST == Sum(processed, CgstOf)
      invariant totalSGST == Sum(processed, SgstOf)
      invariant totalIGST == Sum(processed, IgstOf)
    {
      var p := ProcessItem(items[i], interState);
      if interState {
        totalIGST := totalIGST + p.igst;
      } else {
        totalCGST := totalCGST + p.cgst;
        totalSGST := totalSGST + p.sgst;
      }
      totalTaxable := totalTaxable + p.taxableValue;
      SumAppend(processed, p, TaxableOf);
      SumAppend(processed, p, CgstOf);
      SumAppend(processed, p, SgstOf);
      SumAppend(processed, p, IgstOf);
      ProcessAllAppend(items[..i], items[i], interState);
      assert items[..i + 1] == items[..i] + [items[i]];
      processed := processed + [p];
      i := i + 1;
    }
    assert items[..i] == items;
    var grandTotal := totalTaxable + totalCGST + totalSGST + totalIGST;
    c := Calculations(processed, totalTaxable, totalCGST, totalSGST, totalIGST,
                      totalCGST + totalSGST + totalIGST, grandTotal);
  }

  /** Inter-state invoices carry no CGST or SGST; intra-state invoices carry no IGST
      and equal CGST and SGST. */
  lemma JurisdictionTotals(items: seq<Item>, interState: bool)
    ensures var c := Calculate(items, interState);
      if interState then c.totalCGST == 0.0 && c.totalSGST == 0.0 && c.totalIGST == c.totalTax
      else c.totalIGST == 0.0 && c.totalCGST == c.totalSGST && c.totalCGST + c.totalSGST == c.totalTax
  {
    var ps := ProcessAll(items, interState);
    if interState {
      SumZero(ps, CgstOf);
      SumZero(ps, SgstOf);
    } else {
      SumZero(ps, IgstOf);
      SumPointwise(ps, CgstOf, ps, SgstOf);
    }
  }

  /** Totals straight from the items, whatever the jurisdiction: the taxable total is the sum
      of quantity times price, the total tax the sum of the per-item taxes, and the grand
      total the sum of the item totals shown on the invoice. */
  lemma TotalsFromItems(items: seq<Item>, interState: bool)
    ensures var c := Calculate(items, interState);
      && c.totalTaxable == Sum(items, TaxableValue)
      && c.totalTax == Sum(items, TaxAmount)
      && c.grandTotal == Sum(c.items, TotalOf)
  {
    var ps := ProcessAll(items, interState);
    SumPointwise(ps, TaxableOf, items, TaxableValue);
    var cs := (p: ProcessedItem) => p.cgst + p.sgst;
    var split := (p: ProcessedItem) => p.cgst + p.sgst + p.igst;
    SumAdd(ps, CgstOf, SgstOf, cs);
    SumAdd(ps, cs, IgstOf, split);
    SumPointwise(ps, split, items, TaxAmount);
    SumAdd(ps, TaxableOf, split, TotalOf);
  }

  /** The jurisdiction only moves tax between the three kinds: the taxable total, the total tax
      and the grand total are the same whichever split applies. */
  lemma GrandTotalIndependentOfJurisdiction(items: seq<Item>)
    ensures Calculate(items, true).totalTaxable == Calculate(items, false).totalTaxable
    ensures Calculate(items, true).totalTax == Calculate(items, false).totalTax
    ensures Calculate(items, true).grandTotal == Calculate(items, false).grandTotal
  {
    TotalsFromItems(items, true);
    TotalsFromItems(items, false);
  }

  /** With non-negative quantities, prices and rates every computed amount is non-negative,
      and the grand total is at least the taxable total. */
  lemma NonNegativeAmounts(items: seq<Item>, interState: bool)
    requires forall i :: 0 <= i < |items| ==>
      Coerce(items[i].qty) >= 0.0 && Coerce(items[i].price) >= 0.0 && Coerce(items[i].gstRate) >= 0.0
    ensures var c := Calculate(items, interState);
      && (forall i :: 0 <= i < |c.items| ==>
            c.items[i].taxableValue >= 0.0 && c.items[i].cgst >= 0.0 && c.items[i].sgst >= 0.0
            && c.items[i].igst >= 0.0 && c.items[i].total >= c.items[i].taxableValue)
      && c.totalTaxable >= 0.0 && c.totalCGST >= 0.0 && c.totalSGST >= 0.0 && c.totalIGST >= 0.0
      && c.totalTax >= 0.0 && c.grandTotal >= c.totalTaxable
  {
    var ps := ProcessAll(items, interState);
    forall i | 0 <= i < |items|
      ensures TaxableValue(items[i]) >= 0.0 && TaxAmount(items[i]) >= 0.0
    {
      var q, pr, r := Coerce(items[i].qty), Coerce(items[i].price), Coerce(items[i].gstRate);
      assert TaxableValue(items[i]) == q * pr;
      assert q * pr >= 0.0;
      assert q * pr * r >= 0.0;
    }
    SumNonNegative(ps, TaxableOf);
    SumNonNegative(ps, CgstOf);
    SumNonNegative(ps, SgstOf);
    SumNonNegative(ps, IgstOf);
  }

  /** Appending the blank item (quantity 1, price 0) leaves every total as it was. */
  lemma AddItemKeepsTotals(items: seq<Item>, freshId: int, interState: bool)
    ensures var before, after := Calculate(items, interState), Calculate(items + [NewItem(freshId)], interState);
      && |after.items| == |before.items| + 1
      && after.items[..|before.items|] == before.items
      && after.totalTaxable == before.totalTaxable
      && after.totalCGST == before.totalCGST
      && after.totalSGST == before.totalSGST
      && after.totalIGST == before.totalIGST
      && after.grandTotal == before.grandTotal
  {
    var ps := ProcessAll(items, interState);
    var p := ProcessItem(NewItem(freshId), interState);
    ProcessAllAppend(items, NewItem(freshId), interState);
    SumAppend(ps, p, TaxableOf);
    SumAppend(ps, p, CgstOf);
    SumAppend(ps, p, SgstOf);
    SumAppend(ps, p, IgstOf);
  }

  /** A text edit leaves one processed item as it was apart from the item itself. */
  lemma TextEditKeepsItemAmounts(item: Item, edit: FieldEdit, interState: bool)
    requires edit.SetDescription? || edit.SetHsn?
    ensures ProcessItem(ApplyEdit(item, edit), interState)
      == ProcessItem(item, interState).(item := ApplyEdit(item, edit))
  {
  }

  /** Editing a description or an HSN code changes no amount anywhere on the invoice. */
  lemma TextEditKeepsTotals(items: seq<Item>, id: int, edit: FieldEdit, interState: bool)
    requires edit.SetDescription? || edit.SetHsn?
    ensures var before, after := Calculate(items, interState), Calculate(UpdateItems(items, id, edit), interState);
      && |after.items| == |before.items|
      && (forall i :: 0 <= i < |items| ==>
            after.items[i] == before.items[i].(item := after.items[i].item))
      && after.totalTaxable == before.totalTaxable
      && after.totalCGST == before.totalCGST
      && after.totalSGST == before.totalSGST
      && after.totalIGST == before.totalIGST
      && after.grandTotal == before.grandTotal
  {
    var ps := ProcessAll(items, interState);
    var edited := UpdateItems(items, id, edit);
    var qs := ProcessAll(edited, interState);
    forall i | 0 <= i < |items|
      ensures qs[i] == ps[i].(item := qs[i].item)
    {
      if items[i].id == id {
        TextEditKeepsItemAmounts(items[i], edit, interState);
      }
    }
    SumPointwise(qs, TaxableOf, ps, TaxableOf);
    SumPointwise(qs, CgstOf, ps, CgstOf);
    SumPointwise(qs, SgstOf, ps, SgstOf);
    SumPointwise(qs, IgstOf, ps, IgstOf);
  }

  /** The page as first shown: Maharashtra to Karnataka is inter-state, so the two example
      items (50000 and 15000 at 18%) carry 11700 of IGST on a taxable 65000. */
  lemma InitialInvoice()
    ensures IsInterState(InitialSeller(), InitialBuyer())
    ensures var c := Calculate(InitialItems(), true);
      && c.totalTaxable == 65000.0 && c.totalIGST == 11700.0
      && c.totalCGST == 0.0 && c.totalSGST == 0.0
      && c.totalTax == 11700.0 && c.grandTotal == 76700.0
  {
    var items := InitialItems();
    var ps := ProcessAll(items, true);
    assert ps == [ProcessItem(items[0], true), ProcessItem(items[1], true)];
    SumPair(ps[0], ps[1], TaxableOf);
    SumPair(ps[0], ps[1], CgstOf);
    SumPair(ps[0], ps[1], SgstOf);
    SumPair(ps[0], ps[1], IgstOf);
  }

  /** Within one state (both Jharkhand) 10 at 7 and 6 at 130, at 18% and 5%, split
      6.3 + 6.3 and 19.5 + 19.5, for a grand total of 901.6. */
  lemma IntraStateExample()
    ensures var items := [ Item(1, "", "", Numeric(10.0), Numeric(7.0), Numeric(18.0)),
                           Item(2, "", "", Numeric(6.0), Numeric(130.0), Numeric(5.0)) ];
      var c := Calculate(items, IsInterState(Party("", "", "", "Jharkhand"), Party("", "", "", "Jharkhand")));
      && c.items[0].cgst == 6.3 && c.items[0].sgst == 6.3
      && c.items[1].cgst == 19.5 && c.items[1].sgst == 19.5
      && c.totalTaxable == 850.0 && c.totalCGST == 25.8 && c.totalSGST == 25.8
      && c.totalIGST == 0.0 && c.totalTax == 51.6 && c.grandTotal == 901.6
  {
    var items := [ Item(1, "", "", Numeric(10.0), Numeric(7.0), Numeric(18.0)),
                   Item(2, "", "", Numeric(6.0), Numeric(130.0), Numeric(5.0)) ];
    var ps := ProcessAll(items, false);
    assert ps == [ProcessItem(items[0], false), ProcessItem(items[1], false)];
    SumPair(ps[0], ps[1], TaxableOf);
    SumPair(ps[0], ps[1], CgstOf);
    SumPair(ps[0], ps[1], SgstOf);
    SumPair(ps[0], ps[1], IgstOf);
  }
}
