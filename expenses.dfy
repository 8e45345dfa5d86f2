/**
 * The expenses endpoint (app/api/finance/expenses/route.ts with the expense
 * schema of models/Finance.ts). POST checks by truthiness that a title, an
 * amount and a date are given, so an amount of 0 is refused; the category
 * defaults to `other`, and a category outside the enum is refused by the
 * schema, reported as 500. GET lists the expenses latest date first.
 */
module ExpensesApi {
  import opened Common
  import opened Sorting
  import opened Store
  import opened Records

  /** The request body: a missing string is "", a missing amount or date None. */
  datatype ExpenseBody = ExpenseBody(
    title: string,
    amount: Option<int>,
    category: string,
    date: Option<int>,
    description: string)

  /** `!body.title || !body.amount || !body.date`, negated. */
  predicate HasRequiredFields(body: ExpenseBody)
  {
    Truthy(body.title) && TruthyNumber(body.amount) && body.date.Some?
  }

  /** `Expense.create(body)`: the stored expense, or None when the category is not in the enum. */
  function Build(body: ExpenseBody): (r: Option<ExpenseRecord>)
    requires HasRequiredFields(body)
    ensures r.Some? <==> body.category == "" || ParseExpenseCategory(body.category).Some?
    ensures r.Some? ==>
      && r.value.title == body.title && r.value.amount == body.amount.value && r.value.amount != 0
      && r.value.date == body.date.value && r.value.description == body.description
      && r.value.category == (if body.category == "" then Other else ParseExpenseCategory(body.category).value)
  {
    var category := if body.category == "" then Some(Other) else ParseExpenseCategory(body.category);
    if category.None? then None
    else Some(ExpenseRecord(body.title, body.amount.value, category.value, body.date.value, body.description))
  }

  /** POST. */
  method Post(expenses: Collection<ExpenseRecord>, body: ExpenseBody, now: int) returns (r: Reply<Doc<ExpenseRecord>>)
    requires expenses.Valid()
    modifies expenses
    ensures expenses.Valid()
    ensures !HasRequiredFields(body) ==>
      r == Err(400, "Missing required fields") && expenses.docs == old(expenses.docs)
    ensures HasRequiredFields(body) && Build(body).None? ==>
      r == Err(500, "Failed to create expense") && expenses.docs == old(expenses.docs)
    ensures HasRequiredFields(body) && Build(body).Some? ==>
      && r.Ok? && r.status == 201 && r.value.data == Build(body).value
      && r.value.id !in Ids(old(expenses.docs))
      && expenses.docs == old(expenses.docs) + [r.value]
  {
    if !Truthy(body.title) || !TruthyNumber(body.amount) || body.date.None? {
      return Err(400, "Missing required fields");
    }
    var expense := Build(body);
    if expense.None? {
      return Err(500, "Failed to create expense");
    }
    var d := expenses.Create(expense.value, now);
    r := Ok(201, d);
  }

  /** A zero amount is refused like a missing one, before the schema is consulted. */
  lemma ZeroAmountRefused(body: ExpenseBody)
    requires body.amount == Some(0)
    ensures !HasRequiredFields(body)
  {
  }

  function ByLatestDate(d: Doc<ExpenseRecord>): int
  {
    -d.data.date
  }

  /** GET: `find({}).sort({ date: -1 })`, every expense once, latest date first. */
  function List(docs: seq<Doc<ExpenseRecord>>): (r: seq<Doc<ExpenseRecord>>)
    ensures multiset(r) == multiset(docs)
    ensures forall i, j :: 0 <= i < j < |r| ==> r[i].data.date >= r[j].data.date
  {
    SortBySorted(docs, ByLatestDate);
    SortBy(docs, ByLatestDate)
  }
}
