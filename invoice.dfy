/** The invoice generator (`InvoiceGenerator` in invoice.js): the invoice
    counter and number, validation, the preview/print/clear life cycle of
    the current invoice, and the log of printed invoices with its queries.
    Storage is a field; the clock, the year and the date are parameters. */
module Invoice {
  import opened Text
  import opened Lists
  import opened Sorting
  import opened Money
  import opened Calculator
  import Customers

  const Prefix: string := "TFS-"

  /** The printed-invoice log keeps at most this many records. */
  const MaxRecords: nat := 100

  /** `getRecentInvoices()` without an argument. */
  const DefaultRecentLimit: int := 10

  const NameRequired: string := "Customer name is required"
  const PhoneRequired: string := "Customer phone is required"
  const NumberRequired: string := "Invoice number is required"
  const DateRequired: string := "Invoice date is required"

  /** What `getInvoiceData` collects; `createdAt` is a time in milliseconds. */
  datatype InvoiceData = InvoiceData(number: string, date: string, customer: Customers.CustomerData,
                                     hourly: Option<HourlyService>, lineItems: seq<LineItem>,
                                     totals: Totals, createdAt: int)

  /** A logged invoice: the invoice plus the time it was printed. */
  datatype InvoiceRecord = InvoiceRecord(invoice: InvoiceData, printedAt: int)

  datatype InvoiceStats = InvoiceStats(totalInvoices: nat, thisYearInvoices: nat, thisMonthInvoices: nat,
                                       totalRevenue: real, yearRevenue: real, monthRevenue: real,
                                       averageInvoice: real)

  /** `n.toString()` for any integer. */
  function IntToString(n: int): (s: string)
    ensures n >= 0 ==> s == NatToString(n)
  {
    if n < 0 then "-" + NatToString(-n) else NatToString(n)
  }

  /** The counter after loading: the stored value, or 1 when nothing is stored. */
  function LoadedCounter(stored: Option<int>): (n: int)
    ensures stored.None? ==> n == 1
  {
    if stored.Some? then stored.value else 1
  }

  /** `TFS-${year}-${counter.toString().padStart(4, '0')}`. */
  function InvoiceNumber(year: nat, counter: int): string {
    Prefix + NatToString(year) + "-" + PadStart(IntToString(counter), 4, '0')
  }

  /** The part of an invoice number before the counter. */
  function NumberHead(year: nat): string {
    Prefix + NatToString(year) + "-"
  }

  /** The number is the head followed by the counter's digits, padded with
      zeros to four places and never cut short. */
  lemma {:induction false} InvoiceNumberShape(year: nat, counter: nat)
    ensures var n, h, d := InvoiceNumber(year, counter), NumberHead(year), NatToString(counter);
            && n[..|h|] == h
            && |n| == |h| + (if |d| >= 4 then |d| else 4)
            && n[|n| - |d|..] == d
            && forall i :: |h| <= i < |n| - |d| ==> n[i] == '0'
  {
    var h, p := NumberHead(year), PadStart(NatToString(counter), 4, '0');
    assert InvoiceNumber(year, counter) == h + p;
  }

  /** Zero padding does not change the value of a digit string. */
  lemma {:induction false} PadZerosValue(s: string, width: nat)
    ensures DigitsValue(PadStart(s, width, '0')) == DigitsValue(s)
  {
    if |s| < width {
      var z := width - |s|;
      assert PadStart(s, width, '0') == seq(z, _ => '0') + s;
      LeadingZerosValue(z, s);
    }
  }

  /** The digits after the head read back as the counter. */
  lemma {:induction false} InvoiceNumberReadBack(year: nat, counter: nat)
    ensures var n, h := InvoiceNumber(year, counter), NumberHead(year);
            |h| <= |n| && DigitsValue(n[|h|..]) == counter
  {
    var h, p := NumberHead(year), PadStart(NatToString(counter), 4, '0');
    assert InvoiceNumber(year, counter) == h + p;
    assert (h + p)[|h|..] == p;
    PadZerosValue(NatToString(counter), 4);
    NatToStringValue(counter);
  }

  /** Within a year, different counters give different invoice numbers. */
  lemma {:induction false} InvoiceNumberInjective(year: nat, a: nat, b: nat)
    requires InvoiceNumber(year, a) == InvoiceNumber(year, b)
    ensures a == b
  {
    InvoiceNumberReadBack(year, a);
    InvoiceNumberReadBack(year, b);
  }

  /** `getCustomerData`: the five customer inputs, trimmed. */
  function TrimmedCustomer(form: Customers.CustomerData): Customers.CustomerData {
    Customers.CustomerData(Trim(form.name), Trim(form.company), Trim(form.phone), Trim(form.email),
                           Trim(form.address))
  }

  /** The position of the invoice generator's own messages in its checks. */
  function MessageRank(m: string): int {
    if m == NameRequired then 0
    else if m == PhoneRequired then 1
    else if m == NumberRequired then 2
    else if m == DateRequired then 3
    else 4
  }

  /** The messages of the four form checks, in checking order. */
  function FormErrors(customer: Customers.CustomerData, number: string, date: string): (own: seq<string>)
    ensures |own| <= 4
    ensures own == [] <==> customer.name != "" && customer.phone != "" && number != "" && date != ""
  {
    (if customer.name == "" then [NameRequired] else [])
    + (if customer.phone == "" then [PhoneRequired] else [])
    + (if number == "" then [NumberRequired] else [])
    + (if date == "" then [DateRequired] else [])
  }

  /** Each form message appears exactly when its check fails. */
  lemma {:induction false} FormErrorsMeaning(customer: Customers.CustomerData, number: string, date: string)
    ensures var own := FormErrors(customer, number, date);
            && (NameRequired in own <==> customer.name == "")
            && (PhoneRequired in own <==> customer.phone == "")
            && (NumberRequired in own <==> number == "")
            && (DateRequired in own <==> date == "")
  {
    MessagesDistinct();
  }

  /** The form messages come in checking order: name, phone, number, date. */
  lemma {:induction false} FormErrorsOrdered(customer: Customers.CustomerData, number: string, date: string)
    ensures var own := FormErrors(customer, number, date);
            forall i, j :: 0 <= i < j < |own| ==> MessageRank(own[i]) < MessageRank(own[j])
  {
    MessagesDistinct();
  }

  lemma MessagesDistinct()
    ensures MessageRank(NameRequired) == 0 && MessageRank(PhoneRequired) == 1
    ensures MessageRank(NumberRequired) == 2 && MessageRank(DateRequired) == 3
  {
    assert NameRequired[9] == 'n' && PhoneRequired[9] == 'p' && NumberRequired[8] == 'n' && DateRequired[8] == 'd';
  }

  /** `validateInvoice`: the four form checks, then the calculator's errors. */
  function InvoiceErrors(customer: Customers.CustomerData, number: string, date: string,
                         calculatorErrors: seq<string>): (errors: seq<string>)
    ensures errors == [] <==> customer.name != "" && customer.phone != "" && number != "" && date != ""
                              && calculatorErrors == []
    ensures |calculatorErrors| <= |errors| <= |calculatorErrors| + 4
    ensures errors[..|errors| - |calculatorErrors|] == FormErrors(customer, number, date)
    ensures errors[|errors| - |calculatorErrors|..] == calculatorErrors
  {
    FormErrors(customer, number, date) + calculatorErrors
  }

  /** The name error is raised exactly when the typed name is all whitespace. */
  lemma {:induction false} NameErrorIffBlank(form: Customers.CustomerData, number: string, date: string)
    ensures NameRequired in FormErrors(TrimmedCustomer(form), number, date) <==> IsBlank(form.name)
    ensures PhoneRequired in FormErrors(TrimmedCustomer(form), number, date) <==> IsBlank(form.phone)
  {
    FormErrorsMeaning(TrimmedCustomer(form), number, date);
    TrimEmptyIffBlank(form.name);
    TrimEmptyIffBlank(form.phone);
  }

  /** The log after `saveInvoiceRecord`: the last `MaxRecords` of the old log
      with the new record appended. */
  function LogAppend(log: seq<InvoiceRecord>, rec: InvoiceRecord): (r: seq<InvoiceRecord>)
    ensures |r| == if |log| + 1 > MaxRecords then MaxRecords else |log| + 1
    ensures r[|r| - 1] == rec
    ensures r == (log + [rec])[|log| + 1 - |r|..]
  {
    var all := log + [rec];
    if |all| > MaxRecords then all[|all| - MaxRecords..] else all
  }

  /** With room left nothing is dropped; on a full log exactly the oldest
      record goes and the others keep their order. */
  lemma {:induction false} LogAppendDropsOldest(log: seq<InvoiceRecord>, rec: InvoiceRecord)
    ensures |log| < MaxRecords ==> LogAppend(log, rec) == log + [rec]
    ensures |log| == MaxRecords ==> LogAppend(log, rec) == log[1..] + [rec]
  {
    if |log| == MaxRecords {
      assert (log + [rec])[1..] == log[1..] + [rec];
    }
  }

  /** The sum of the final totals (`reduce((sum, inv) => sum + inv.totals.finalTotal, 0)`). */
  function Revenue(rs: seq<InvoiceRecord>): real {
    if rs == [] then 0.0 else Revenue(rs[..|rs| - 1]) + rs[|rs| - 1].invoice.totals.finalTotal
  }

  predicate NoRefunds(rs: seq<InvoiceRecord>) {
    forall i :: 0 <= i < |rs| ==> rs[i].invoice.totals.finalTotal >= 0.0
  }

  /** Without negative totals, a narrower filter never has more revenue. */
  lemma {:induction false} RevenueMonotone(rs: seq<InvoiceRecord>, p: InvoiceRecord -> bool,
                                           q: InvoiceRecord -> bool)
    requires NoRefunds(rs)
    requires forall r :: p(r) ==> q(r)
    ensures Revenue(Filter(rs, p)) <= Revenue(Filter(rs, q))
  {
    if rs != [] {
      var init := rs[..|rs| - 1];
      assert NoRefunds(init) by {
        assert forall i :: 0 <= i < |init| ==> init[i] == rs[i];
      }
      var x := rs[|rs| - 1];
      RevenueMonotone(init, p, q);
      assert Filter(rs, p) == Filter(init, p) + (if p(x) then [x] else []);
      assert Filter(rs, q) == Filter(init, q) + (if q(x) then [x] else []);
      if p(x) {
        RevenueSnoc(Filter(init, p), x);
      } else {
        assert Filter(rs, p) == Filter(init, p);
      }
      if q(x) {
        RevenueSnoc(Filter(init, q), x);
        assert x.invoice.totals.finalTotal >= 0.0;
      } else {
        assert Filter(rs, q) == Filter(init, q);
      }
    }
  }

  lemma {:induction false} RevenueSnoc(rs: seq<InvoiceRecord>, r: InvoiceRecord)
    ensures Revenue(rs + [r]) == Revenue(rs) + r.invoice.totals.finalTotal
  {
    assert (rs + [r])[..|rs|] == rs;
  }

  /** `getInvoiceStats`; `yearOf` and `monthOf` stand for
      `new Date(date).getFullYear()` and `getMonth()`. */
  function InvoiceStatsOf(rs: seq<InvoiceRecord>, year: int, month: int, yearOf: string -> int,
                          monthOf: string -> int): (s: InvoiceStats)
    ensures s.totalInvoices == |rs|
    ensures s.thisMonthInvoices <= s.thisYearInvoices <= s.totalInvoices
    ensures s.totalRevenue == Revenue(rs)
    ensures s.averageInvoice == if rs == [] then 0.0 else s.totalRevenue / |rs| as real
  {
    var inYear := (r: InvoiceRecord) => yearOf(r.invoice.date) == year;
    var inMonth := (r: InvoiceRecord) => yearOf(r.invoice.date) == year && monthOf(r.invoice.date) == month;
    var thisYear := Filter(rs, inYear);
    var thisMonth := Filter(rs, inMonth);
    FilterMonotone(rs, inMonth, inYear);
    FilterAll(rs);
    InvoiceStats(|rs|, |thisYear|, |thisMonth|, Revenue(rs), Revenue(thisYear), Revenue(thisMonth),
                 if |rs| > 0 then Revenue(rs) / |rs| as real else 0.0)
  }

  /** A filter that keeps everything keeps the whole log. */
  lemma {:induction false} FilterAll(rs: seq<InvoiceRecord>)
    ensures Filter(rs, (r: InvoiceRecord) => true) == rs
  {
    if rs != [] {
      FilterAll(rs[..|rs| - 1]);
    }
  }

  /** Without negative totals: month revenue <= year revenue <= total revenue. */
  lemma {:induction false} StatsRevenueOrdered(rs: seq<InvoiceRecord>, year: int, month: int,
                                               yearOf: string -> int, monthOf: string -> int)
    requires NoRefunds(rs)
    ensures var s := InvoiceStatsOf(rs, year, month, yearOf, monthOf);
            s.monthRevenue <= s.yearRevenue <= s.totalRevenue
  {
    var inYear := (r: InvoiceRecord) => yearOf(r.invoice.date) == year;
    var inMonth := (r: InvoiceRecord) => yearOf(r.invoice.date) == year && monthOf(r.invoice.date) == month;
    var all := (r: InvoiceRecord) => true;
    RevenueMonotone(rs, inMonth, inYear);
    RevenueMonotone(rs, inYear, all);
    FilterAll(rs);
  }

  /** The `searchInvoices` test against a lower-cased search term. */
  predicate Matches(r: InvoiceRecord, term: string) {
    || Contains(ToLower(r.invoice.number), term)
    || Contains(ToLower(r.invoice.customer.name), term)
    || Contains(ToLower(r.invoice.customer.company), term)
    || Contains(r.invoice.customer.phone, term)
  }

  /** `searchInvoices(query)`. */
  function Search(rs: seq<InvoiceRecord>, query: string): seq<InvoiceRecord> {
    var term := ToLower(query);
    Filter(rs, (r: InvoiceRecord) => Matches(r, term))
  }

  /** The search finds exactly the matching records, and keeps log order. */
  lemma {:induction false} SearchFindsExactly(rs: seq<InvoiceRecord>, more: seq<InvoiceRecord>, query: string)
    ensures forall r :: r in Search(rs, query) <==> r in rs && Matches(r, ToLower(query))
    ensures Search(rs + more, query) == Search(rs, query) + Search(more, query)
  {
    var term := ToLower(query);
    FilterMembers(rs, (r: InvoiceRecord) => Matches(r, term));
    FilterConcat(rs, more, (r: InvoiceRecord) => Matches(r, term));
  }

  /** The search is case-insensitive: queries that differ only in the case of
      their letters find the same records, and so do records whose number,
      name and company differ only in case. */
  lemma {:induction false} SearchIgnoresCase(rs: seq<InvoiceRecord>, q1: string, q2: string)
    requires SameIgnoringCase(q1, q2)
    ensures Search(rs, q1) == Search(rs, q2)
  {
    ToLowerIgnoresCase(q1, q2);
  }

  lemma {:induction false} MatchesIgnoresRecordCase(r1: InvoiceRecord, r2: InvoiceRecord, query: string)
    requires SameIgnoringCase(r1.invoice.number, r2.invoice.number)
    requires SameIgnoringCase(r1.invoice.customer.name, r2.invoice.customer.name)
    requires SameIgnoringCase(r1.invoice.customer.company, r2.invoice.customer.company)
    requires r1.invoice.customer.phone == r2.invoice.customer.phone
    ensures Matches(r1, ToLower(query)) <==> Matches(r2, ToLower(query))
  {
    ToLowerIgnoresCase(r1.invoice.number, r2.invoice.number);
    ToLowerIgnoresCase(r1.invoice.customer.name, r2.invoice.customer.name);
    ToLowerIgnoresCase(r1.invoice.customer.company, r2.invoice.customer.company);
  }

  /** The comparator `new Date(b.createdAt) - new Date(a.createdAt)`: newer first. */
  predicate NewerFirst(a: InvoiceRecord, b: InvoiceRecord) {
    a.invoice.createdAt >= b.invoice.createdAt
  }

  lemma NewerFirstIsPreorder()
    ensures TotalPreorder(NewerFirst)
  {
  }

  /** `s.slice(0, end)`, with JavaScript's reading of a negative or too large end. */
  function SliceTo<T>(s: seq<T>, end: int): (r: seq<T>)
    ensures r <= s
    ensures |r| == if end < 0 then (if |s| + end < 0 then 0 else |s| + end)
                   else if end > |s| then |s| else end
  {
    if end < 0 then s[..if |s| + end < 0 then 0 else |s| + end]
    else if end > |s| then s
    else s[..end]
  }

  /** `getRecentInvoices(limit)`. */
  function Recent(rs: seq<InvoiceRecord>, limit: int): seq<InvoiceRecord> {
    SliceTo(SortBy(rs, NewerFirst), limit)
  }

  /** The recent list: at most `limit` records of the log, newest first, and
      none of the records left out is newer than one shown. */
  lemma {:induction false} RecentNewestFirst(rs: seq<InvoiceRecord>, limit: int)
    ensures var r := Recent(rs, limit);
            && (limit >= 0 ==> |r| == if limit < |rs| then limit else |rs|)
            && SortedBy(r, NewerFirst)
            && multiset(r) <= multiset(rs)
            && forall x, y :: x in multiset(rs) - multiset(r) && y in r ==> NewerFirst(y, x)
  {
    var s := SortBy(rs, NewerFirst);
    var r := Recent(rs, limit);
    NewerFirstIsPreorder();
    SortBySorted(rs, NewerFirst);
    SortByPermutes(rs, NewerFirst);
    SortedPrefixFirst(s, |r|, NewerFirst);
    assert s[..|r|] == r;
  }

  class InvoiceGenerator {
    /** `window.invoiceCalculator`. */
    const calculator: InvoiceCalculator
    /** The customer inputs as typed. */
    var customerForm: Customers.CustomerData
    /** The invoice-number and invoice-date inputs. */
    var numberField: string
    var dateField: string
    var invoiceCounter: int
    var currentInvoice: Option<InvoiceData>
    /** The stored log of printed invoices. */
    var records: seq<InvoiceRecord>

    /** The constructor with `initializeForm`: load the counter, no current
        invoice, today's date and a number for the loaded counter. */
    constructor(calculator: InvoiceCalculator, storedCounter: Option<int>, storedRecords: seq<InvoiceRecord>,
                year: nat, today: string)
      ensures this.calculator == calculator && records == storedRecords
      ensures invoiceCounter == LoadedCounter(storedCounter) && currentInvoice == None
      ensures dateField == today && numberField == InvoiceNumber(year, invoiceCounter)
      ensures customerForm == Customers.CustomerData("", "", "", "", "")
    {
      this.calculator := calculator;
      records := storedRecords;
      customerForm := Customers.CustomerData("", "", "", "", "");
      invoiceCounter := LoadedCounter(storedCounter);
      currentInvoice := None;
      dateField := today;
      numberField := InvoiceNumber(year, LoadedCounter(storedCounter));
    }

    /** `getCustomerData`. */
    function GetCustomerData(): Customers.CustomerData
      reads this
    {
      TrimmedCustomer(customerForm)
    }

    /** What `validateInvoice` returns for the current inputs. */
    function Errors(): seq<string>
      reads this, calculator
    {
      InvoiceErrors(GetCustomerData(), numberField, dateField,
                    CalculatorErrors(calculator.GetHourlyServiceData(), KeptItems(calculator.rows)))
    }

    /** What `getInvoiceData` collects at time `now`. */
    function Snapshot(now: int): InvoiceData
      reads this, calculator
    {
      InvoiceData(numberField, dateField, GetCustomerData(), calculator.GetHourlyServiceData(),
                  KeptItems(calculator.rows), calculator.GetInvoiceTotals(), now)
    }

    /** `generateInvoiceNumber`: write the number for the current counter. */
    method GenerateInvoiceNumber(year: nat) returns (number: string)
      modifies this
      ensures number == InvoiceNumber(year, invoiceCounter) && numberField == number
      ensures invoiceCounter == old(invoiceCounter) && currentInvoice == old(currentInvoice)
      ensures records == old(records) && customerForm == old(customerForm) && dateField == old(dateField)
    {
      number := Prefix + NatToString(year) + "-" + PadStart(IntToString(invoiceCounter), 4, '0');
      numberField := number;
    }

    /** `incrementInvoiceCounter`. */
    method IncrementInvoiceCounter()
      modifies this
      ensures invoiceCounter == old(invoiceCounter) + 1
      ensures numberField == old(numberField) && currentInvoice == old(currentInvoice)
      ensures records == old(records) && customerForm == old(customerForm) && dateField == old(dateField)
    {
      invoiceCounter := invoiceCounter + 1;
    }

    /** `validateInvoice`. */
    method ValidateInvoice() returns (errors: seq<string>)
      ensures errors == Errors()
    {
      var customer := GetCustomerData();
      errors := [];
      if customer.name == "" {
        errors := errors + [NameRequired];
      }
      if customer.phone == "" {
        errors := errors + [PhoneRequired];
      }
      if numberField == "" {
        errors := errors + [NumberRequired];
      }
      if dateField == "" {
        errors := errors + [DateRequired];
      }
      assert errors == FormErrors(customer, numberField, dateField);
      var calculatorErrors := calculator.ValidateInvoiceData();
      errors := errors + calculatorErrors;
    }

    /** `getInvoiceData`. */
    method GetInvoiceData(now: int) returns (data: InvoiceData)
      ensures data == Snapshot(now)
    {
      var hourly := calculator.GetHourlyServiceData();
      var lineItems := calculator.GetLineItemsData();
      var totals := calculator.GetInvoiceTotals();
      data := InvoiceData(numberField, dateField, GetCustomerData(), hourly, lineItems, totals, now);
    }

    /** `previewInvoice`: with no errors the invoice becomes current;
        otherwise nothing changes. The counter never moves. */
    method PreviewInvoice(now: int) returns (errors: seq<string>)
      modifies this
      ensures errors == Errors()
      ensures currentInvoice == if errors == [] then Some(Snapshot(now)) else old(currentInvoice)
      ensures invoiceCounter == old(invoiceCounter) && records == old(records)
      ensures numberField == old(numberField) && dateField == old(dateField) && customerForm == old(customerForm)
    {
      errors := ValidateInvoice();
      if |errors| > 0 {
        return;
      }
      var invoiceData := GetInvoiceData(now);
      currentInvoice := Some(invoiceData);
    }

    /** `saveInvoiceRecord`: push the record with its print time, then drop
        the oldest beyond `MaxRecords`. */
    method SaveInvoiceRecord(invoiceData: InvoiceData, printedAt: int)
      modifies this
      ensures records == LogAppend(old(records), InvoiceRecord(invoiceData, printedAt))
      ensures invoiceCounter == old(invoiceCounter) && currentInvoice == old(currentInvoice)
      ensures numberField == old(numberField) && dateField == old(dateField) && customerForm == old(customerForm)
    {
      var invoices := records + [InvoiceRecord(invoiceData, printedAt)];
      if |invoices| > MaxRecords {
        invoices := invoices[|invoices| - MaxRecords..];
      }
      records := invoices;
    }

    /** `printInvoice`: without a current invoice, preview first and give up
        if that fails; otherwise count the invoice, log it and show the next
        number. The printed invoice stays current. */
    method PrintInvoice(now: int, year: nat)
      modifies this
      ensures old(currentInvoice).None? && old(Errors()) != [] ==>
                && invoiceCounter == old(invoiceCounter) && records == old(records)
                && currentInvoice == old(currentInvoice) && numberField == old(numberField)
      ensures old(currentInvoice).Some? || old(Errors()) == [] ==>
                var printed := if old(currentInvoice).Some? then old(currentInvoice.value) else old(Snapshot(now));
                && currentInvoice == Some(printed)
                && invoiceCounter == old(invoiceCounter) + 1
                && records == LogAppend(old(records), InvoiceRecord(printed, now))
                && numberField == InvoiceNumber(year, invoiceCounter)
      ensures dateField == old(dateField) && customerForm == old(customerForm)
    {
      if currentInvoice.None? {
        var _ := PreviewInvoice(now);
        if currentInvoice.None? {
          return;
        }
      }
      IncrementInvoiceCounter();
      SaveInvoiceRecord(currentInvoice.value, now);
      var _ := GenerateInvoiceNumber(year);
    }

    /** `clearForm`: when confirmed, blank the customer inputs, clear the
        calculator, reset the date and number and drop the current invoice. */
    method ClearForm(confirmed: bool, year: nat, today: string)
      modifies this, calculator
      ensures !confirmed ==> unchanged(this) && unchanged(calculator)
      ensures confirmed ==>
                && customerForm == Customers.CustomerData("", "", "", "", "")
                && calculator.Valid() && calculator.form == EmptyForm && calculator.rows == []
                && calculator.subtotalText == ZeroText && calculator.finalTotalText == ZeroText
                && dateField == today && numberField == InvoiceNumber(year, invoiceCounter)
                && currentInvoice == None
      ensures invoiceCounter == old(invoiceCounter) && records == old(records)
    {
      if confirmed {
        customerForm := Customers.CustomerData("", "", "", "", "");
        calculator.ClearCalculations();
        ResetInvoiceDetails(year, today);
      }
    }

    /** The invoice-details part of `clearForm`: today's date, a fresh number
        for the current counter, and no current invoice. */
    method ResetInvoiceDetails(year: nat, today: string)
      modifies this
      ensures dateField == today && numberField == InvoiceNumber(year, invoiceCounter) && currentInvoice == None
      ensures invoiceCounter == old(invoiceCounter) && records == old(records) && customerForm == old(customerForm)
    {
      dateField := today;
      var _ := GenerateInvoiceNumber(year);
      currentInvoice := None;
    }

    /** `getInvoiceStats`. */
    function GetInvoiceStats(year: int, month: int, yearOf: string -> int, monthOf: string -> int): InvoiceStats
      reads this
    {
      InvoiceStatsOf(records, year, month, yearOf, monthOf)
    }

    /** `searchInvoices`. */
    function SearchInvoices(query: string): seq<InvoiceRecord>
      reads this
    {
      Search(records, query)
    }

    /** `getRecentInvoices`. */
    function GetRecentInvoices(limit: int): seq<InvoiceRecord>
      reads this
    {
      Recent(records, limit)
    }
  }
}
