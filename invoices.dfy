/**
 * The numbered invoices endpoint (app/api/invoices/route.ts with
 * models/Invoice.ts). POST keeps an invoice number given in the body and
 * otherwise generates `INV-<year>-<n>`, where `n` is one more than the number
 * of stored invoices, zero-padded to at least four digits; the first stored
 * user becomes `createdBy`. Anything the schema refuses, including a number
 * that is already taken (a unique index), is reported as 500. GET lists the
 * invoices newest first.
 *
 * The year is `new Date().getFullYear()`, a parameter here.
 */
module InvoicesApi {
  import opened Common
  import opened Decimal
  import opened Store
  import opened UserModel
  import opened Records

  /** The number part of a generated invoice number: `(count + 1).toString().padStart(4, '0')`. */
  function Serial(count: nat): (s: string)
    ensures AllDigits(s) && |s| >= 4
  {
    ZeroPadValue(NatToString(count + 1), 4);
    PadStart(NatToString(count + 1), 4, '0')
  }

  /** `INV-${year}-${serial}`. */
  function InvoiceNumber(year: int, count: nat): (s: string)
    ensures |s| == 5 + |IntToString(year)| + |Serial(count)|
    ensures s[..4] == "INV-" && s[4 + |IntToString(year)|] == '-'
    ensures s[5 + |IntToString(year)|..] == Serial(count)
  {
    var y, t := IntToString(year), Serial(count);
    var rest := y + "-" + t;
    assert rest[|y|] == '-' && rest[|y| + 1..] == t;
    var s := "INV-" + rest;
    assert s[..4] == "INV-" && s[4..] == rest;
    assert s[4 + |y|] == rest[|y|];
    assert s[5 + |y|..] == rest[|y| + 1..];
    s
  }

  /** The serial reads back as the number of stored invoices plus one. */
  lemma SerialValue(count: nat)
    ensures DigitsValue(Serial(count)) == count + 1
  {
    ZeroPadValue(NatToString(count + 1), 4);
    NatToStringRoundTrip(count + 1);
  }

  /** Padding never truncates: the serial ends with every digit of count + 1, and from 10000 on it has five or more. */
  lemma SerialNeverTruncated(count: nat)
    ensures Serial(count)[|Serial(count)| - |NatToString(count + 1)|..] == NatToString(count + 1)
    ensures |Serial(count)| == if |NatToString(count + 1)| < 4 then 4 else |NatToString(count + 1)|
    ensures count + 1 >= 10000 ==> |Serial(count)| >= 5
  {
    if count + 1 >= 10000 {
      assert Pow10(4) == 10000;
      DigitCount(count + 1, 4);
    }
  }

  /** Within one year, different store sizes give different invoice numbers. */
  lemma InvoiceNumberInjective(year: int, c1: nat, c2: nat)
    requires InvoiceNumber(year, c1) == InvoiceNumber(year, c2)
    ensures c1 == c2
  {
    var n := 5 + |IntToString(year)|;
    assert Serial(c1) == InvoiceNumber(year, c1)[n..] == InvoiceNumber(year, c2)[n..] == Serial(c2);
    SerialValue(c1);
    SerialValue(c2);
  }

  lemma YearText2025()
    ensures IntToString(2025) == "2025"
  {
    assert NatToString(2) == "2";
    assert NatToString(20) == "20";
    assert NatToString(202) == "202";
  }

  lemma SerialOfTen()
    ensures Serial(10) == "0011"
  {
    assert NatToString(1) == "1";
    assert NatToString(11) == "11";
    assert Repeat('0', 2) == "00";
  }

  /** The eleventh invoice of 2025. */
  lemma EleventhInvoice()
    ensures InvoiceNumber(2025, 10) == "INV-2025-0011"
  {
    YearText2025();
    SerialOfTen();
    assert "INV-" + "2025" + "-" + "0011" == "INV-2025-0011";
  }

  /** The request body: a missing string is "", a missing number or id None. */
  datatype InvoiceBody = InvoiceBody(
    invoiceNumber: string,
    client: Option<nat>,
    project: Option<nat>,
    items: seq<NumberedItem>,
    totalAmount: Option<int>,
    status: string,
    dueDate: string,
    issueDate: Option<int>)

  function ParseStatus(s: string): Option<NumberedInvoiceStatus>
  {
    if s == "draft" then Some(Draft)
    else if s == "sent" then Some(Sent)
    else if s == "paid" then Some(Settled)
    else if s == "overdue" then Some(Late)
    else None
  }

  /**
   * `Invoice.create({ ...body, createdBy })` up to the unique index: the
   * stored document, or None when a required field is missing (client,
   * total, due date, creator, an item's description) or the status is not in
   * the enum. The status defaults to draft and the issue date to now.
   */
  function Build(body: InvoiceBody, number: string, createdBy: Option<nat>, now: int): (r: Option<NumberedInvoice>)
    ensures r.Some? <==>
      && number != "" && body.client.Some? && body.totalAmount.Some? && body.dueDate != ""
      && createdBy.Some? && (body.status == "" || ParseStatus(body.status).Some?)
      && (forall k :: 0 <= k < |body.items| ==> body.items[k].description != "")
    ensures r.Some? ==>
      && r.value.invoiceNumber == number && r.value.client == body.client.value
      && r.value.project == body.project && r.value.items == body.items
      && r.value.totalAmount == body.totalAmount.value && r.value.dueDate == body.dueDate
      && r.value.createdBy == createdBy.value
      && r.value.status == (if body.status == "" then Draft else ParseStatus(body.status).value)
      && r.value.issueDate == (if body.issueDate.Some? then body.issueDate.value else now)
  {
    var status := if body.status == "" then Some(Draft) else ParseStatus(body.status);
    if number == "" || body.client.None? || body.totalAmount.None? || body.dueDate == ""
       || createdBy.None? || status.None?
       || exists k :: 0 <= k < |body.items| && body.items[k].description == ""
    then None
    else Some(NumberedInvoice(number, body.client.value, body.project, body.items, body.totalAmount.value,
                              status.value, body.dueDate,
                              if body.issueDate.Some? then body.issueDate.value else now, createdBy.value))
  }

  predicate NumberTaken(docs: seq<Doc<NumberedInvoice>>, number: string)
  {
    exists j :: 0 <= j < |docs| && docs[j].data.invoiceNumber == number
  }

  /** The unique index on `invoiceNumber`. */
  ghost predicate UniqueNumbers(docs: seq<Doc<NumberedInvoice>>)
  {
    forall i, j :: 0 <= i < j < |docs| ==> docs[i].data.invoiceNumber != docs[j].data.invoiceNumber
  }

  /** The number POST files the invoice under: the one given, else a generated one. */
  function ChosenNumber(body: InvoiceBody, year: int, count: nat): (n: string)
    ensures Truthy(body.invoiceNumber) ==> n == body.invoiceNumber
    ensures !Truthy(body.invoiceNumber) ==> n == InvoiceNumber(year, count)
    ensures n != ""
  {
    if Truthy(body.invoiceNumber) then body.invoiceNumber else InvoiceNumber(year, count)
  }

  /** POST. */
  method Post(invoices: Collection<NumberedInvoice>, users: Collection<User>, body: InvoiceBody,
              year: int, now: int) returns (r: Reply<Doc<NumberedInvoice>>)
    requires invoices.Valid() && UniqueNumbers(invoices.docs)
    modifies invoices
    ensures invoices.Valid() && UniqueNumbers(invoices.docs)
    ensures var number := ChosenNumber(body, year, |old(invoices.docs)|);
      var built := Build(body, number, users.FirstId(), now);
      r.Ok? <==> built.Some? && !NumberTaken(old(invoices.docs), number)
    ensures r.Err? ==> r == Err(500, "Failed to create invoice") && invoices.docs == old(invoices.docs)
    ensures r.Ok? ==>
      && r.status == 201
      && r.value.data == Build(body, ChosenNumber(body, year, |old(invoices.docs)|), users.FirstId(), now).value
      && r.value.id !in Ids(old(invoices.docs))
      && invoices.docs == old(invoices.docs) + [r.value]
  {
    var number := body.invoiceNumber;
    if !Truthy(number) {
      number := InvoiceNumber(year, |invoices.docs|);
    }
    var built := Build(body, number, users.FirstId(), now);
    if built.None? || NumberTaken(invoices.docs, number) {
      return Err(500, "Failed to create invoice");
    }
    var d := invoices.Create(built.value, now);
    r := Ok(201, d);
  }

  /**
   * A generated number is not always free: after an invoice was filed by
   * hand under the number the next generation yields, POST fails with 500.
   */
  lemma GeneratedNumberCanClash(year: int, docs: seq<Doc<NumberedInvoice>>)
    requires |docs| == 1 && docs[0].data.invoiceNumber == InvoiceNumber(year, 1)
    ensures NumberTaken(docs, ChosenNumber(InvoiceBody("", Some(0), None, [], Some(0), "", "2026-01-01", None), year, |docs|))
  {
  }
}
