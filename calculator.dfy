/** The invoice totals engine (`InvoiceCalculator` in calculator.js). The form
    fields it reads are fields of the class; the five total displays are the
    strings the class writes with `formatCurrency` and reads back with
    `parseAmount`. */
module Calculator {
  import opened Text
  import opened Money

  /** Ontario HST, 13 %. */
  const TaxRate: real := 0.13

  /** The text every total display shows after a reset. */
  const ZeroText: string := "$0.00"

  const NothingToBill: string := "Please add at least one service or line item"
  const HoursNotPositive: string := "Hours worked must be greater than 0"
  const RateNotPositive: string := "Hourly rate must be greater than 0"

  /** The hourly-service inputs: the selected option's value and text, the
      description, hours and rate fields. */
  datatype HourlyForm = HourlyForm(serviceType: string, serviceLabel: string, description: string,
                                   hours: string, rate: string)

  /** One line-item row as typed: description, quantity and unit price. */
  datatype LineItemRow = LineItemRow(description: string, quantity: string, price: string)

  datatype HourlyService = HourlyService(serviceType: string, description: string,
                                         hours: real, rate: real, total: real)

  datatype LineItem = LineItem(description: string, quantity: real, price: real, total: real)

  datatype Totals = Totals(subtotal: real, taxAmount: real, taxRate: real, finalTotal: real)

  datatype PricingSummary = PricingSummary(hourlyService: Option<HourlyService>, lineItems: seq<LineItem>,
                                           totals: Totals, itemCount: nat)

  const EmptyForm: HourlyForm := HourlyForm("", "", "", "", "")

  /** hours × rate, each read as `parseFloat(...) || 0`. */
  function HourlyAmount(form: HourlyForm): real {
    Times(NumberOrZero(form.hours), NumberOrZero(form.rate))
  }

  /** quantity × price of one row, each read as `parseFloat(...) || 0`. */
  function RowAmount(row: LineItemRow): real {
    Times(NumberOrZero(row.quantity), NumberOrZero(row.price))
  }

  /** The sum `calculateLineItemsTotal` displays: every row, in order. */
  function RowsTotal(rows: seq<LineItemRow>): real {
    if rows == [] then 0.0 else RowsTotal(rows[..|rows| - 1]) + RowAmount(rows[|rows| - 1])
  }

  /** A row `getLineItemsData` keeps. */
  predicate IsBillable(row: LineItemRow) {
    Trim(row.description) != "" && NumberOrZero(row.quantity) > 0.0 && NumberOrZero(row.price) > 0.0
  }

  function ItemOf(row: LineItemRow): LineItem {
    LineItem(Trim(row.description), NumberOrZero(row.quantity), NumberOrZero(row.price), RowAmount(row))
  }

  /** The items `getLineItemsData` returns. */
  function KeptItems(rows: seq<LineItemRow>): seq<LineItem> {
    if rows == [] then []
    else
      var last := rows[|rows| - 1];
      KeptItems(rows[..|rows| - 1]) + (if IsBillable(last) then [ItemOf(last)] else [])
  }

  /** What every item `getLineItemsData` returns satisfies. */
  predicate IsCompleteItem(it: LineItem) {
    Trim(it.description) != "" && it.quantity > 0.0 && it.price > 0.0 && it.total == Times(it.quantity, it.price)
  }

  function ItemsTotal(items: seq<LineItem>): real {
    if items == [] then 0.0 else ItemsTotal(items[..|items| - 1]) + items[|items| - 1].total
  }

  /** `getHourlyServiceData`: nothing without a service type or with zero hours. */
  function HourlyServiceOf(form: HourlyForm): (h: Option<HourlyService>)
    ensures h.None? <==> form.serviceType == "" || NumberOrZero(form.hours) == 0.0
    ensures h.Some? ==> h.value.hours != 0.0 && h.value.total == HourlyAmount(form)
    ensures h.Some? && form.description != "" ==> h.value.description == form.description
    ensures h.Some? && form.description == "" ==> h.value.description == form.serviceLabel
  {
    if form.serviceType == "" || NumberOrZero(form.hours) == 0.0 then None
    else
      var description := if form.description != "" then form.description else form.serviceLabel;
      Some(HourlyService(form.serviceLabel, description, NumberOrZero(form.hours), NumberOrZero(form.rate),
                         HourlyAmount(form)))
  }

  /** The hourly total as displayed, in cents. */
  function HourlyCents(form: HourlyForm): int {
    RoundCents(HourlyAmount(form))
  }

  /** The line-items total as displayed, in cents. */
  function LineItemsCents(rows: seq<LineItemRow>): int {
    RoundCents(RowsTotal(rows))
  }

  /** The tax on a subtotal of `c` cents, rounded to the cent. */
  function TaxCents(c: int): (t: int)
    ensures c >= 0 ==> t >= 0
  {
    RoundCents(Times(c as real / 100.0, TaxRate))
  }

  /** Subtotal, tax and final total displays for a subtotal of `c` cents.
      Tax and final total are negative amounts exactly when the subtotal is,
      so they carry its sign even where they round to zero cents. */
  ghost predicate TotalsShown(subtotalText: string, taxAmountText: string, finalTotalText: string, c: int) {
    && subtotalText == FormatCents(c)
    && taxAmountText == SignedCents(c < 0, TaxCents(c))
    && finalTotalText == SignedCents(c < 0, c + TaxCents(c))
  }

  function ItemLabel(n: nat): string {
    "Line item " + NatToString(n) + ": "
  }

  /** The three checks on the item at 1-based position `n`. */
  function ItemChecks(item: LineItem, n: nat): seq<string> {
    (if Trim(item.description) == "" then [ItemLabel(n) + "Description is required"] else [])
    + (if item.quantity <= 0.0 then [ItemLabel(n) + "Quantity must be greater than 0"] else [])
    + (if item.price <= 0.0 then [ItemLabel(n) + "Price must be greater than 0"] else [])
  }

  function ItemErrors(items: seq<LineItem>): seq<string> {
    if items == [] then [] else ItemErrors(items[..|items| - 1]) + ItemChecks(items[|items| - 1], |items|)
  }

  function ServiceErrors(hourly: Option<HourlyService>, items: seq<LineItem>): seq<string> {
    (if hourly.None? && |items| == 0 then [NothingToBill] else [])
    + (if hourly.Some? && hourly.value.hours <= 0.0 then [HoursNotPositive] else [])
    + (if hourly.Some? && hourly.value.rate <= 0.0 then [RateNotPositive] else [])
  }

  /** The messages `validateInvoiceData` collects, in order. */
  function CalculatorErrors(hourly: Option<HourlyService>, items: seq<LineItem>): seq<string> {
    ServiceErrors(hourly, items) + ItemErrors(items)
  }

  /** The calculator's invariant over its field values: the hourly and
      line-item displays show the current inputs' totals formatted,
      the derived displays show their sum `shown`, the tax on it and sum plus
      tax, and choosing no service type always sets the rate to 0. */
  ghost predicate Consistent(form: HourlyForm, rows: seq<LineItemRow>, hourlyTotalText: string,
                             lineItemsTotalText: string, subtotalText: string, taxAmountText: string,
                             finalTotalText: string, shown: int) {
    && hourlyTotalText == FormatCurrency(HourlyAmount(form))
    && lineItemsTotalText == FormatCurrency(RowsTotal(rows))
    && (form.serviceType == "" ==> NumberOrZero(form.rate) == 0.0)
    && shown == HourlyCents(form) + LineItemsCents(rows)
    && TotalsShown(subtotalText, taxAmountText, finalTotalText, shown)
  }

  class InvoiceCalculator {
    var form: HourlyForm
    var rows: seq<LineItemRow>
    var hourlyTotalText: string
    var lineItemsTotalText: string
    var subtotalText: string
    var taxAmountText: string
    var finalTotalText: string
    /** The subtotal, in cents, that the three derived displays were computed from. */
    ghost var shownCents: int

    /** Every display shows what the current inputs give (see `Consistent`). */
    ghost predicate Valid()
      reads this
    {
      Consistent(form, rows, hourlyTotalText, lineItemsTotalText, subtotalText, taxAmountText, finalTotalText,
                 shownCents)
    }

    /** A calculator over an empty form with every total at "$0.00". */
    constructor()
      ensures Valid()
      ensures form == EmptyForm && rows == []
      ensures hourlyTotalText == ZeroText && lineItemsTotalText == ZeroText
      ensures subtotalText == ZeroText && taxAmountText == ZeroText && finalTotalText == ZeroText
    {
      form := EmptyForm;
      rows := [];
      hourlyTotalText := ZeroText;
      lineItemsTotalText := ZeroText;
      subtotalText := ZeroText;
      taxAmountText := ZeroText;
      finalTotalText := ZeroText;
      shownCents := 0;
      new;
      ZeroTotals();
    }

    /** `calculateHourlyTotal`. */
    method CalculateHourlyTotal()
      requires form.serviceType == "" ==> NumberOrZero(form.rate) == 0.0
      requires lineItemsTotalText == FormatCurrency(RowsTotal(rows))
      modifies this
      ensures Valid()
      ensures form == old(form) && rows == old(rows) && lineItemsTotalText == old(lineItemsTotalText)
    {
      var hours := NumberOrZero(form.hours);
      var rate := NumberOrZero(form.rate);
      var total := Times(hours, rate);
      hourlyTotalText := FormatCurrency(total);
      UpdateAllTotals(HourlyCents(form), HourlyAmount(form) < 0.0, LineItemsCents(rows), RowsTotal(rows) < 0.0);
    }

    /** `calculateLineItemsTotal`. */
    method CalculateLineItemsTotal()
      requires hourlyTotalText == FormatCurrency(HourlyAmount(form))
      requires form.serviceType == "" ==> NumberOrZero(form.rate) == 0.0
      modifies this
      ensures Valid()
      ensures form == old(form) && rows == old(rows) && hourlyTotalText == old(hourlyTotalText)
    {
      var total := SumRows(rows);
      lineItemsTotalText := FormatCurrency(total);
      UpdateAllTotals(HourlyCents(form), HourlyAmount(form) < 0.0, LineItemsCents(rows), RowsTotal(rows) < 0.0);
    }

    /** `updateAllTotals`: read the two component displays back and write
        subtotal, tax and final total. */
    method UpdateAllTotals(ghost hourlyCents: int, ghost hourlyNegative: bool, ghost lineItemsCents: int,
                           ghost lineItemsNegative: bool)
      requires hourlyTotalText == SignedCents(hourlyNegative, hourlyCents)
      requires lineItemsTotalText == SignedCents(lineItemsNegative, lineItemsCents)
      modifies this
      ensures shownCents == hourlyCents + lineItemsCents
      ensures TotalsShown(subtotalText, taxAmountText, finalTotalText, shownCents)
      ensures form == old(form) && rows == old(rows)
      ensures hourlyTotalText == old(hourlyTotalText) && lineItemsTotalText == old(lineItemsTotalText)
    {
      subtotalText, taxAmountText, finalTotalText := DeriveTotals(hourlyTotalText, lineItemsTotalText,
                                                                  hourlyCents, hourlyNegative,
                                                                  lineItemsCents, lineItemsNegative);
      shownCents := hourlyCents + lineItemsCents;
    }

    /** A change of the service type: `updateHourlyRate` copies the option's
        `data-rate` (or 0) into the rate field, then the hourly total is
        recomputed. */
    method ChangeServiceType(value: string, optionText: string, dataRate: string)
      requires Valid()
      modifies this
      ensures Valid()
      ensures form == old(form).(serviceType := value, serviceLabel := optionText,
                                 rate := if value != "" && dataRate != "" then dataRate else "0")
      ensures rows == old(rows)
    {
      var rate := if value != "" && dataRate != "" then dataRate else "0";
      ParseZero();
      form := form.(serviceType := value, serviceLabel := optionText, rate := rate);
      CalculateHourlyTotal();
    }

    /** Typing in the hours field. */
    method ChangeHours(hours: string)
      requires Valid()
      modifies this
      ensures Valid()
      ensures form == old(form).(hours := hours) && rows == old(rows)
    {
      form := form.(hours := hours);
      CalculateHourlyTotal();
    }

    /** Typing in the description field (no total depends on it). */
    method ChangeDescription(description: string)
      requires Valid()
      modifies this
      ensures Valid()
      ensures form == old(form).(description := description) && rows == old(rows)
      ensures hourlyTotalText == old(hourlyTotalText) && finalTotalText == old(finalTotalText)
    {
      form := form.(description := description);
    }

    /** `addLineItem`: a new row with quantity 1 and empty description and price. */
    method AddLineItem()
      requires Valid()
      modifies this
      ensures Valid()
      ensures rows == old(rows) + [LineItemRow("", "1", "")] && form == old(form)
    {
      rows := rows + [LineItemRow("", "1", "")];
      CalculateLineItemsTotal();
    }

    /** `removeLineItem` on the row at index `k`. */
    method RemoveLineItem(k: nat)
      requires Valid() && k < |rows|
      modifies this
      ensures Valid()
      ensures rows == old(rows[..k] + rows[k + 1..]) && form == old(form)
    {
      rows := rows[..k] + rows[k + 1..];
      CalculateLineItemsTotal();
    }

    /** Typing in one of the inputs of the row at index `k`. */
    method EditLineItem(k: nat, row: LineItemRow)
      requires Valid() && k < |rows|
      modifies this
      ensures Valid()
      ensures rows == old(rows)[k := row] && form == old(form)
    {
      rows := rows[k := row];
      CalculateLineItemsTotal();
    }

    /** `clearCalculations`. */
    method ClearCalculations()
      modifies this
      ensures Valid()
      ensures form == EmptyForm && rows == []
      ensures hourlyTotalText == ZeroText && lineItemsTotalText == ZeroText
      ensures subtotalText == ZeroText && taxAmountText == ZeroText && finalTotalText == ZeroText
    {
      form := EmptyForm;
      rows := [];
      hourlyTotalText := ZeroText;
      lineItemsTotalText := ZeroText;
      subtotalText := ZeroText;
      taxAmountText := ZeroText;
      finalTotalText := ZeroText;
      shownCents := 0;
      ZeroTotals();
    }

    /** `getHourlyServiceData`. */
    function GetHourlyServiceData(): Option<HourlyService>
      reads this
    {
      HourlyServiceOf(form)
    }

    /** `getInvoiceTotals`: the three derived displays read back. */
    function GetInvoiceTotals(): (t: Totals)
      reads this
      ensures t.taxRate == TaxRate
    {
      Totals(ParseAmount(subtotalText), ParseAmount(taxAmountText), TaxRate, ParseAmount(finalTotalText))
    }

    /** `getLineItemsData`. */
    method GetLineItemsData() returns (items: seq<LineItem>)
      ensures items == KeptItems(rows)
      ensures forall i :: 0 <= i < |items| ==> IsCompleteItem(items[i])
    {
      items := CollectItems(rows);
    }

    /** `validateInvoiceData`. */
    method ValidateInvoiceData() returns (errors: seq<string>)
      ensures errors == CalculatorErrors(GetHourlyServiceData(), KeptItems(rows))
      ensures NothingToBill in errors <==> GetHourlyServiceData().None? && KeptItems(rows) == []
    {
      var hourlyService := GetHourlyServiceData();
      var lineItems := GetLineItemsData();
      errors := CollectErrors(hourlyService, lineItems);
      NothingToBillIff(form, rows);
    }

    /** `getPricingSummary`. */
    method GetPricingSummary() returns (s: PricingSummary)
      ensures s.hourlyService == GetHourlyServiceData() && s.lineItems == KeptItems(rows)
      ensures s.totals == GetInvoiceTotals()
      ensures s.itemCount == (if s.hourlyService.Some? then 1 else 0) + |s.lineItems|
    {
      var hourlyService := GetHourlyServiceData();
      var lineItems := GetLineItemsData();
      var totals := GetInvoiceTotals();
      s := PricingSummary(hourlyService, lineItems, totals,
                          (if hourlyService.Some? then 1 else 0) + |lineItems|);
    }

    /** The totals read back add up exactly: subtotal is hourly plus
        line-item total (each rounded to the cent), the tax is 13 % of it
        rounded to the cent, and final total is subtotal plus that tax. */
    lemma {:induction false} TotalsAddUp()
      requires Valid()
      ensures var t := GetInvoiceTotals();
              && t.subtotal == (HourlyCents(form) + LineItemsCents(rows)) as real / 100.0
              && t.taxAmount == RoundCents(Times(t.subtotal, TaxRate)) as real / 100.0
              && t.finalTotal == t.subtotal + t.taxAmount
              && (t.subtotal >= 0.0 ==> t.finalTotal >= t.subtotal)
    {
      ShownTotalsReadBack(subtotalText, taxAmountText, finalTotalText, shownCents);
    }

    /** The hourly display shows the billed hourly service, rounded to the
        cent, and a zero when there is none. */
    lemma {:induction false} HourlyDisplayMatchesService()
      requires Valid()
      ensures ParseAmount(hourlyTotalText)
           == if GetHourlyServiceData().Some? then RoundCents(GetHourlyServiceData().value.total) as real / 100.0
              else 0.0
    {
      HourlyReadBack(form, hourlyTotalText);
    }
  }

  /** A display showing `c` cents, with either sign, reads back as `c` cents. */
  lemma {:induction false} ReadBack(text: string, c: int, negative: bool)
    requires text == SignedCents(negative, c)
    ensures ParseAmount(text) == c as real / 100.0
  {
    ParseSignedDisplay(negative, c);
  }

  /** Displays showing a subtotal of `c` cents read back as `c`, its tax
      rounded to the cent, and their sum. */
  lemma {:induction false} ShownTotalsReadBack(subtotalText: string, taxAmountText: string, finalTotalText: string, c: int)
    requires TotalsShown(subtotalText, taxAmountText, finalTotalText, c)
    ensures var subtotal, taxAmount := ParseAmount(subtotalText), ParseAmount(taxAmountText);
            && subtotal == c as real / 100.0
            && taxAmount == RoundCents(Times(subtotal, TaxRate)) as real / 100.0
            && ParseAmount(finalTotalText) == subtotal + taxAmount
            && (subtotal >= 0.0 ==> ParseAmount(finalTotalText) >= subtotal)
  {
    SubtotalReadBack(subtotalText, taxAmountText, finalTotalText, c);
    TaxReadBack(subtotalText, taxAmountText, finalTotalText, c);
    FinalReadBack(subtotalText, taxAmountText, finalTotalText, c);
    ShownTotalsArithmetic(c, ParseAmount(subtotalText), ParseAmount(taxAmountText), ParseAmount(finalTotalText));
  }

  lemma {:induction false} SubtotalReadBack(subtotalText: string, taxAmountText: string, finalTotalText: string, c: int)
    requires TotalsShown(subtotalText, taxAmountText, finalTotalText, c)
    ensures ParseAmount(subtotalText) == c as real / 100.0
  {
    ReadBack(subtotalText, c, false);
  }

  lemma {:induction false} TaxReadBack(subtotalText: string, taxAmountText: string, finalTotalText: string, c: int)
    requires TotalsShown(subtotalText, taxAmountText, finalTotalText, c)
    ensures ParseAmount(taxAmountText) == TaxCents(c) as real / 100.0
  {
    ReadBack(taxAmountText, TaxCents(c), c < 0);
  }

  lemma {:induction false} FinalReadBack(subtotalText: string, taxAmountText: string, finalTotalText: string, c: int)
    requires TotalsShown(subtotalText, taxAmountText, finalTotalText, c)
    ensures ParseAmount(finalTotalText) == (c + TaxCents(c)) as real / 100.0
  {
    ReadBack(finalTotalText, c + TaxCents(c), c < 0);
  }

  lemma {:induction false} ShownTotalsArithmetic(c: int, subtotal: real, taxAmount: real, finalTotal: real)
    requires subtotal == c as real / 100.0 && taxAmount == TaxCents(c) as real / 100.0
    requires finalTotal == (c + TaxCents(c)) as real / 100.0
    ensures taxAmount == RoundCents(Times(subtotal, TaxRate)) as real / 100.0
    ensures finalTotal == subtotal + taxAmount
    ensures subtotal >= 0.0 ==> finalTotal >= subtotal
  {
  }

  /** An hourly display that shows the form's hourly total reads back as the
      service's total to the cent, or zero when no service is billed. */
  lemma {:induction false} HourlyReadBack(form: HourlyForm, hourlyTotalText: string)
    requires hourlyTotalText == FormatCurrency(HourlyAmount(form))
    requires form.serviceType == "" ==> NumberOrZero(form.rate) == 0.0
    ensures ParseAmount(hourlyTotalText)
         == if HourlyServiceOf(form).Some? then RoundCents(HourlyServiceOf(form).value.total) as real / 100.0
            else 0.0
  {
    ParseFormatCurrency(HourlyAmount(form));
    if HourlyServiceOf(form).None? {
      HourlyCentsZero(form);
    }
  }

  /** No hours or no rate bills nothing. */
  lemma {:induction false} HourlyCentsZero(form: HourlyForm)
    requires NumberOrZero(form.hours) == 0.0 || NumberOrZero(form.rate) == 0.0
    ensures HourlyCents(form) == 0
  {
  }

  /** The arithmetic of `updateAllTotals`: read the hourly and line-item
      displays back, add them, take 13 % tax and format the three results. */
  method DeriveTotals(hourlyTotalText: string, lineItemsTotalText: string, ghost hourlyCents: int,
                      ghost hourlyNegative: bool, ghost lineItemsCents: int, ghost lineItemsNegative: bool)
      returns (subtotalText: string, taxAmountText: string, finalTotalText: string)
    requires hourlyTotalText == SignedCents(hourlyNegative, hourlyCents)
    requires lineItemsTotalText == SignedCents(lineItemsNegative, lineItemsCents)
    ensures TotalsShown(subtotalText, taxAmountText, finalTotalText, hourlyCents + lineItemsCents)
  {
    var hourlyTotal := ParseAmount(hourlyTotalText);
    var lineItemsTotal := ParseAmount(lineItemsTotalText);
    var subtotal := hourlyTotal + lineItemsTotal;
    var taxAmount := Times(subtotal, TaxRate);
    var finalTotal := subtotal + taxAmount;
    subtotalText := FormatCurrency(subtotal);
    taxAmountText := FormatCurrency(taxAmount);
    finalTotalText := FormatCurrency(finalTotal);
    ComponentsReadBack(hourlyTotalText, lineItemsTotalText, hourlyCents, hourlyNegative, lineItemsCents,
                       lineItemsNegative);
    DerivedDisplays(hourlyCents, lineItemsCents, hourlyTotal, lineItemsTotal, subtotal, taxAmount, finalTotal);
  }

  /** The three displays `updateAllTotals` writes from component amounts of
      `hourlyCents` and `lineItemsCents` cents: the subtotal in cents, and tax
      and final total signed as the subtotal is. */
  lemma {:induction false} DerivedDisplays(hourlyCents: int, lineItemsCents: int, hourlyTotal: real, lineItemsTotal: real,
                                           subtotal: real, taxAmount: real, finalTotal: real)
    requires hourlyTotal == hourlyCents as real / 100.0 && lineItemsTotal == lineItemsCents as real / 100.0
    requires subtotal == hourlyTotal + lineItemsTotal
    requires taxAmount == Times(subtotal, TaxRate) && finalTotal == subtotal + taxAmount
    ensures var c := hourlyCents + lineItemsCents;
            && FormatCurrency(subtotal) == FormatCents(c)
            && FormatCurrency(taxAmount) == SignedCents(c < 0, TaxCents(c))
            && FormatCurrency(finalTotal) == SignedCents(c < 0, c + TaxCents(c))
  {
    UpdateArithmetic(hourlyCents, lineItemsCents, hourlyTotal, lineItemsTotal, subtotal, taxAmount, finalTotal);
    var c := hourlyCents + lineItemsCents;
    FormatRounded(subtotal, c, c < 0);
    FormatRounded(taxAmount, TaxCents(c), c < 0);
    FormatRounded(finalTotal, c + TaxCents(c), c < 0);
  }

  /** The two component displays, whatever their signs, read back as their cents. */
  lemma {:induction false} ComponentsReadBack(hourlyTotalText: string, lineItemsTotalText: string,
                                              hourlyCents: int, hourlyNegative: bool,
                                              lineItemsCents: int, lineItemsNegative: bool)
    requires hourlyTotalText == SignedCents(hourlyNegative, hourlyCents)
    requires lineItemsTotalText == SignedCents(lineItemsNegative, lineItemsCents)
    ensures ParseAmount(hourlyTotalText) == hourlyCents as real / 100.0
    ensures ParseAmount(lineItemsTotalText) == lineItemsCents as real / 100.0
  {
    ReadBack(hourlyTotalText, hourlyCents, hourlyNegative);
    ReadBack(lineItemsTotalText, lineItemsCents, lineItemsNegative);
  }

  /** An amount that rounds to `c` cents displays as `c` cents with the
      amount's sign; for a subtotal that sign is the sign of `c`. */
  lemma {:induction false} FormatRounded(x: real, c: int, negative: bool)
    requires RoundCents(x) == c && (x < 0.0 <==> negative)
    ensures FormatCurrency(x) == SignedCents(negative, c)
    ensures negative == (c < 0) ==> FormatCurrency(x) == FormatCents(c)
  {
  }

  /** `calculateLineItemsTotal`'s running sum over every row. */
  method SumRows(rows: seq<LineItemRow>) returns (total: real)
    ensures total == RowsTotal(rows)
  {
    total := 0.0;
    var i := 0;
    while i < |rows|
      invariant 0 <= i <= |rows|
      invariant total == RowsTotal(rows[..i])
    {
      assert rows[..i + 1][..i] == rows[..i];
      var quantity := NumberOrZero(rows[i].quantity);
      var price := NumberOrZero(rows[i].price);
      total := total + Times(quantity, price);
      i := i + 1;
    }
    assert rows[..|rows|] == rows;
  }

  /** `getLineItemsData`'s loop: push every billable row. */
  method CollectItems(rows: seq<LineItemRow>) returns (items: seq<LineItem>)
    ensures items == KeptItems(rows)
    ensures forall i :: 0 <= i < |items| ==> IsCompleteItem(items[i])
  {
    items := [];
    var i := 0;
    while i < |rows|
      invariant 0 <= i <= |rows|
      invariant items == KeptItems(rows[..i])
    {
      assert rows[..i + 1][..i] == rows[..i];
      var description := Trim(rows[i].description);
      var quantity := NumberOrZero(rows[i].quantity);
      var price := NumberOrZero(rows[i].price);
      if description != "" && quantity > 0.0 && price > 0.0 {
        items := items + [LineItem(description, quantity, price, Times(quantity, price))];
      }
      i := i + 1;
    }
    assert rows[..|rows|] == rows;
    KeptItemsBillable(rows);
  }

  /** `validateInvoiceData`'s checks: the service checks, then three checks
      per item with its 1-based position. */
  method CollectErrors(hourlyService: Option<HourlyService>, lineItems: seq<LineItem>) returns (errors: seq<string>)
    ensures errors == CalculatorErrors(hourlyService, lineItems)
  {
    errors := CheckService(hourlyService, lineItems);
    errors := CheckItems(errors, lineItems);
  }

  /** The checks on the billed work as a whole. */
  method CheckService(hourlyService: Option<HourlyService>, lineItems: seq<LineItem>) returns (errors: seq<string>)
    ensures errors == ServiceErrors(hourlyService, lineItems)
  {
    errors := [];
    if hourlyService.None? && |lineItems| == 0 {
      errors := errors + [NothingToBill];
    }
    if hourlyService.Some? {
      if hourlyService.value.hours <= 0.0 {
        errors := errors + [HoursNotPositive];
      }
      if hourlyService.value.rate <= 0.0 {
        errors := errors + [RateNotPositive];
      }
    }
  }

  /** The `forEach` over the items, appending each one's messages. */
  method CheckItems(found: seq<string>, lineItems: seq<LineItem>) returns (errors: seq<string>)
    ensures errors == found + ItemErrors(lineItems)
  {
    errors := found;
    var i := 0;
    while i < |lineItems|
      invariant 0 <= i <= |lineItems|
      invariant errors == found + ItemErrors(lineItems[..i])
    {
      ItemErrorsStep(lineItems, i);
      errors := errors + ItemChecks(lineItems[i], i + 1);
      i := i + 1;
    }
    assert lineItems[..|lineItems|] == lineItems;
  }

  lemma {:induction false} ItemErrorsStep(items: seq<LineItem>, i: nat)
    requires i < |items|
    ensures ItemErrors(items[..i + 1]) == ItemErrors(items[..i]) + ItemChecks(items[i], i + 1)
  {
    assert items[..i + 1][..i] == items[..i];
  }

  /** "$0.00" is the display of zero cents, and all five totals of an
      empty calculator show it. */
  lemma {:induction false} ZeroTotals()
    ensures FormatCents(0) == ZeroText && TotalsShown(ZeroText, ZeroText, ZeroText, 0)
    ensures HourlyCents(EmptyForm) == 0 && LineItemsCents([]) == 0 && NumberOrZero(EmptyForm.rate) == 0.0
    ensures FormatCurrency(HourlyAmount(EmptyForm)) == ZeroText && FormatCurrency(RowsTotal([])) == ZeroText
  {
    ZeroCentsText();
    EmptyAmountsZero();
    assert TaxCents(0) == 0;
    assert RoundCents(0.0) == 0;
  }

  lemma {:induction false} EmptyAmountsZero()
    ensures NumberOrZero("") == 0.0 && HourlyAmount(EmptyForm) == 0.0 && RowsTotal([]) == 0.0
  {
    assert SkipSpaces("", 0) == 0;
  }

  lemma {:induction false} ZeroCentsText()
    ensures FormatCents(0) == ZeroText
  {
    assert NatToString(0) == "0";
    assert Grouped(0) == "0";
    assert TwoDigits(0) == "00";
    assert FormatCents(0) == "" + "$" + "0" + "." + "00";
  }

  lemma {:induction false} ParseZero()
    ensures NumberOrZero("0") == 0.0
  {
    assert SkipSpaces("0", 0) == 0;
    assert DigitsEnd("0", 0) == 1;
  }

  /** The arithmetic of `updateAllTotals` on component displays that read
      back as `hourlyCents` and `lineItemsCents`: the subtotal rounds to their
      sum, the tax to the tax on it and the final total to the sum of both. */
  lemma {:induction false} UpdateArithmetic(hourlyCents: int, lineItemsCents: int, hourlyTotal: real, lineItemsTotal: real,
                         subtotal: real, taxAmount: real, finalTotal: real)
    requires hourlyTotal == hourlyCents as real / 100.0 && lineItemsTotal == lineItemsCents as real / 100.0
    requires subtotal == hourlyTotal + lineItemsTotal
    requires taxAmount == Times(subtotal, TaxRate) && finalTotal == subtotal + taxAmount
    ensures RoundCents(subtotal) == hourlyCents + lineItemsCents
    ensures RoundCents(taxAmount) == TaxCents(hourlyCents + lineItemsCents)
    ensures RoundCents(finalTotal) == hourlyCents + lineItemsCents + TaxCents(hourlyCents + lineItemsCents)
    ensures (subtotal < 0.0 <==> hourlyCents + lineItemsCents < 0)
    ensures (taxAmount < 0.0 <==> hourlyCents + lineItemsCents < 0)
    ensures (finalTotal < 0.0 <==> hourlyCents + lineItemsCents < 0)
  {
    var c := hourlyCents + lineItemsCents;
    assert subtotal == c as real / 100.0;
    RoundCentsOfCents(c);
    assert finalTotal == taxAmount + c as real / 100.0;
    RoundCentsShift(taxAmount, c);
  }

  lemma {:induction false} RowsTotalConcat(a: seq<LineItemRow>, b: seq<LineItemRow>)
    ensures RowsTotal(a + b) == RowsTotal(a) + RowsTotal(b)
    decreases |b|
  {
    if b == [] {
      assert a + b == a;
    } else {
      assert (a + b)[..|a + b| - 1] == a + b[..|b| - 1];
      RowsTotalConcat(a, b[..|b| - 1]);
    }
  }

  /** The line-item total counts every row in order, each as quantity × price. */
  lemma {:induction false} LineItemsTotalCountsEveryRow(before: seq<LineItemRow>, row: LineItemRow, after: seq<LineItemRow>)
    ensures RowsTotal(before + [row] + after)
         == RowsTotal(before) + Times(NumberOrZero(row.quantity), NumberOrZero(row.price)) + RowsTotal(after)
  {
    RowsTotalConcat(before + [row], after);
    RowsTotalConcat(before, [row]);
    assert RowsTotal([row]) == RowAmount(row) by { assert [row][..0] == []; }
  }

  lemma {:induction false} KeptItemsSnoc(rows: seq<LineItemRow>, row: LineItemRow)
    ensures KeptItems(rows + [row]) == KeptItems(rows) + (if IsBillable(row) then [ItemOf(row)] else [])
  {
    assert (rows + [row])[..|rows|] == rows;
  }

  lemma {:induction false} KeptItemsConcat(a: seq<LineItemRow>, b: seq<LineItemRow>)
    ensures KeptItems(a + b) == KeptItems(a) + KeptItems(b)
    decreases |b|
  {
    if b == [] {
      assert a + b == a;
    } else {
      assert (a + b)[..|a + b| - 1] == a + b[..|b| - 1];
      KeptItemsConcat(a, b[..|b| - 1]);
    }
  }

  /** `getLineItemsData` keeps a row, as `ItemOf(row)`, exactly when it is
      billable, and keeps the kept rows in their order: it distributes over
      concatenation of the row list. */
  lemma {:induction false} KeptItemsExactly(before: seq<LineItemRow>, row: LineItemRow, after: seq<LineItemRow>)
    ensures KeptItems(before + [row] + after)
         == KeptItems(before) + (if IsBillable(row) then [ItemOf(row)] else []) + KeptItems(after)
  {
    KeptItemsConcat(before + [row], after);
    KeptItemsConcat(before, [row]);
    assert [row][..0] == [];
  }

  /** The two views disagree: a row with a blank description and positive
      amounts is added to the displayed total but dropped from the items. */
  lemma {:induction false} BlankRowStillCounted(rows: seq<LineItemRow>, row: LineItemRow)
    requires IsBlank(row.description)
    ensures RowsTotal(rows + [row]) == RowsTotal(rows) + RowAmount(row)
    ensures KeptItems(rows + [row]) == KeptItems(rows)
  {
    TrimEmptyIffBlank(row.description);
    assert (rows + [row])[..|rows|] == rows;
  }

  /** With no negative amounts, the kept items never total more than the display. */
  lemma {:induction false} KeptWithinDisplayed(rows: seq<LineItemRow>)
    requires forall i :: 0 <= i < |rows| ==> NumberOrZero(rows[i].quantity) >= 0.0 && NumberOrZero(rows[i].price) >= 0.0
    ensures ItemsTotal(KeptItems(rows)) <= RowsTotal(rows)
  {
    if rows != [] {
      var init, last := rows[..|rows| - 1], rows[|rows| - 1];
      assert forall i :: 0 <= i < |init| ==> init[i] == rows[i];
      KeptWithinDisplayed(init);
      assert NumberOrZero(last.quantity) >= 0.0 && NumberOrZero(last.price) >= 0.0;
      TimesNonNegative(NumberOrZero(last.quantity), NumberOrZero(last.price));
      KeptItemsTotalStep(rows);
    }
  }

  lemma {:induction false} TimesNonNegative(x: real, y: real)
    requires x >= 0.0 && y >= 0.0
    ensures Times(x, y) >= 0.0
  {
  }

  /** The last row adds its amount to the kept total when it is billable. */
  lemma {:induction false} KeptItemsTotalStep(rows: seq<LineItemRow>)
    requires rows != []
    ensures var last := rows[|rows| - 1];
            && ItemsTotal(KeptItems(rows))
               == ItemsTotal(KeptItems(rows[..|rows| - 1])) + (if IsBillable(last) then RowAmount(last) else 0.0)
            && RowsTotal(rows) == RowsTotal(rows[..|rows| - 1]) + RowAmount(last)
  {
    var k, last := KeptItems(rows[..|rows| - 1]), rows[|rows| - 1];
    if IsBillable(last) {
      var ks := k + [ItemOf(last)];
      assert ks[..|ks| - 1] == k;
    } else {
      assert KeptItems(rows) == k;
    }
  }

  /** Every kept item has a non-blank trimmed description, positive quantity
      and price, and total = quantity × price. */
  lemma {:induction false} KeptItemsBillable(rows: seq<LineItemRow>)
    ensures forall i :: 0 <= i < |KeptItems(rows)| ==> IsCompleteItem(KeptItems(rows)[i])
  {
    if rows != [] {
      var init, last := rows[..|rows| - 1], rows[|rows| - 1];
      KeptItemsBillable(init);
      TrimIdempotent(last.description);
      var k := KeptItems(init);
      var ks := KeptItems(rows);
      assert ks == k + (if IsBillable(last) then [ItemOf(last)] else []);
      forall i | 0 <= i < |ks|
        ensures IsCompleteItem(ks[i])
      {
        if i < |k| {
          assert ks[i] == k[i];
        }
      }
    }
  }

  lemma {:induction false} ItemErrorsNone(items: seq<LineItem>)
    requires forall i :: 0 <= i < |items| ==> IsCompleteItem(items[i])
    ensures ItemErrors(items) == []
  {
    if items != [] {
      ItemErrorsNone(items[..|items| - 1]);
    }
  }

  /** Validation runs over the already-filtered items, so no "Line item N"
      message is ever produced. */
  lemma {:induction false} NoLineItemErrors(rows: seq<LineItemRow>)
    ensures ItemErrors(KeptItems(rows)) == []
  {
    KeptItemsBillable(rows);
    ItemErrorsNone(KeptItems(rows));
  }

  /** The complete outcome of `validateInvoiceData` in terms of the inputs:
      "nothing to bill" exactly when there is neither a service nor a kept
      item, then the hours and rate checks, independently of each other. */
  lemma {:induction false} ValidationOutcome(form: HourlyForm, rows: seq<LineItemRow>)
    ensures var hours, rate := NumberOrZero(form.hours), NumberOrZero(form.rate);
            var service := form.serviceType != "" && hours != 0.0;
            CalculatorErrors(HourlyServiceOf(form), KeptItems(rows))
            == (if !service && KeptItems(rows) == [] then [NothingToBill] else [])
               + (if service && hours < 0.0 then [HoursNotPositive] else [])
               + (if service && rate <= 0.0 then [RateNotPositive] else [])
  {
    NoLineItemErrors(rows);
  }

  lemma {:induction false} NothingToBillIff(form: HourlyForm, rows: seq<LineItemRow>)
    ensures NothingToBill in CalculatorErrors(HourlyServiceOf(form), KeptItems(rows))
            <==> HourlyServiceOf(form).None? && KeptItems(rows) == []
  {
    ValidationOutcome(form, rows);
    assert NothingToBill != HoursNotPositive && NothingToBill != RateNotPositive;
  }
}
