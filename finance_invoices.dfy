/**
 * The finance invoices endpoint (app/api/finance/invoices/route.ts with the
 * invoice schema of models/Finance.ts). POST first checks by truthiness that
 * a project, an amount and a due date are given, so an amount of 0 is
 * refused; everything else the schema requires (a client, an issue date, a
 * description on every line, a status from the enum) is only checked when
 * the document is created, and a refusal there is reported as 500. GET lists
 * the invoices newest first.
 */
module FinanceInvoicesApi {
  import opened Common
  import opened Store
  import opened Records

  /** The request body: a missing string is "", a missing or non-numeric amount None. */
  datatype InvoiceBody = InvoiceBody(
    project: string,
    client: string,
    amount: Option<int>,
    status: string,
    issueDate: string,
    dueDate: string,
    items: seq<LineItem>,
    notes: string)

  function ParseStatus(s: string): Option<InvoiceStatus>
  {
    if s == "paid" then Some(Paid)
    else if s == "pending" then Some(Pending)
    else if s == "overdue" then Some(Overdue)
    else None
  }

  /** The handler's own check: `!body.project || !body.amount || !body.dueDate`. */
  predicate HasRequiredFields(body: InvoiceBody)
  {
    Truthy(body.project) && TruthyNumber(body.amount) && Truthy(body.dueDate)
  }

  /**
   * `Invoice.create(body)`: the stored invoice, or None when the schema
   * refuses the body. The status defaults to pending.
   */
  function Build(body: InvoiceBody): (r: Option<FinanceInvoice>)
    requires HasRequiredFields(body)
    ensures r.Some? <==>
      && body.client != "" && body.issueDate != ""
      && (body.status == "" || ParseStatus(body.status).Some?)
      && (forall k :: 0 <= k < |body.items| ==> body.items[k].description != "")
    ensures r.Some? ==>
      && r.value.project == body.project && r.value.client == body.client
      && r.value.amount == body.amount.value && r.value.amount != 0
      && r.value.issueDate == body.issueDate && r.value.dueDate == body.dueDate
      && r.value.items == body.items && r.value.notes == body.notes
      && r.value.status == (if body.status == "" then Pending else ParseStatus(body.status).value)
  {
    var status := if body.status == "" then Some(Pending) else ParseStatus(body.status);
    if body.client == "" || body.issueDate == "" || status.None?
       || exists k :: 0 <= k < |body.items| && body.items[k].description == ""
    then None
    else Some(FinanceInvoice(body.project, body.client, body.amount.value, status.value,
                             body.issueDate, body.dueDate, body.items, body.notes))
  }

  /** POST. */
  method Post(invoices: Collection<FinanceInvoice>, body: InvoiceBody, now: int) returns (r: Reply<Doc<FinanceInvoice>>)
    requires invoices.Valid()
    modifies invoices
    ensures invoices.Valid()
    ensures !HasRequiredFields(body) ==>
      r == Err(400, "Missing required fields") && invoices.docs == old(invoices.docs)
    ensures HasRequiredFields(body) && Build(body).None? ==>
      r == Err(500, "Failed to create invoice") && invoices.docs == old(invoices.docs)
    ensures HasRequiredFields(body) && Build(body).Some? ==>
      && r.Ok? && r.status == 201 && r.value.data == Build(body).value
      && r.value.id !in Ids(old(invoices.docs))
      && invoices.docs == old(invoices.docs) + [r.value]
  {
    if !Truthy(body.project) || !TruthyNumber(body.amount) || !Truthy(body.dueDate) {
      return Err(400, "Missing required fields");
    }
    var invoice := Build(body);
    if invoice.None? {
      return Err(500, "Failed to create invoice");
    }
    var d := invoices.Create(invoice.value, now);
    r := Ok(201, d);
  }

  /**
   * The truthiness check refuses an amount of 0 and a missing one alike, and
   * nothing else about the amount: every non-zero amount, negative ones
   * included, gets past it.
   */
  lemma AmountCheck(body: InvoiceBody)
    requires Truthy(body.project) && Truthy(body.dueDate)
    ensures HasRequiredFields(body) <==> body.amount.Some? && body.amount.value != 0
  {
  }

  /** Every stored invoice that POST created names a project and a client and has a non-zero amount. */
  lemma CreatedInvoiceIsComplete(body: InvoiceBody)
    requires HasRequiredFields(body) && Build(body).Some?
    ensures var inv := Build(body).value;
      inv.project != "" && inv.client != "" && inv.amount != 0 && inv.dueDate != "" && inv.issueDate != ""
  {
  }
}
