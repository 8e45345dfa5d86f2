/**
 * The other documents the core reads and writes, as their schemas define them
 * (models/Client.ts, models/Project.ts, models/Task.ts, models/Transaction.ts,
 * models/Finance.ts, models/Invoice.ts): the fields, the enums with their
 * defaults, and which fields are required. A missing string is "" (Mongoose
 * rejects "" for a required string just as it rejects a missing one); a
 * reference to another document is its id.
 */
module Records {
  import opened Common

  // ---- Client -------------------------------------------------------------

  datatype Client = Client(
    name: string,
    email: string,
    phone: string,
    companyName: string,
    address: string,
    notes: string)

  /** Name and phone are required. */
  predicate ClientValid(c: Client)
  {
    c.name != "" && c.phone != ""
  }

  // ---- Project ------------------------------------------------------------

  datatype ProjectStatus = New | InProgress | Completed | OnHold

  datatype Project = Project(
    title: string,
    client: Option<nat>,
    status: ProjectStatus,
    budget: int,
    startDate: int,
    endDate: int,
    team: seq<nat>,
    description: string)

  // ---- Task ---------------------------------------------------------------

  datatype TaskStatus = Todo | Doing | Review | Done

  /** The strings the task-status enum stores: 'todo', 'in_progress', 'review', 'done'. */
  function TaskStatusName(s: TaskStatus): string
  {
    match s
    case Todo => "todo"
    case Doing => "in_progress"
    case Review => "review"
    case Done => "done"
  }

  datatype Priority = Low | Medium | High

  datatype Task = Task(
    title: string,
    project: Option<nat>,
    assignee: Option<nat>,
    status: TaskStatus,
    priority: Priority,
    dueDate: Option<int>,
    description: string)

  // ---- Transaction --------------------------------------------------------

  datatype TxType = Income | Expense

  datatype Transaction = Transaction(
    kind: TxType,
    amount: int,
    category: string,
    description: string,
    date: int,
    project: Option<nat>,
    client: Option<nat>,
    createdBy: nat)

  // ---- Finance invoice and expense (models/Finance.ts) ----------------------

  datatype InvoiceStatus = Paid | Pending | Overdue

  /** An invoice line: description, quantity and unit price, all required. */
  datatype LineItem = LineItem(description: string, quantity: int, price: int)

  /** The project and client references are the id strings the form sends. */
  datatype FinanceInvoice = FinanceInvoice(
    project: string,
    client: string,
    amount: int,
    status: InvoiceStatus,
    issueDate: string,
    dueDate: string,
    items: seq<LineItem>,
    notes: string)

  datatype ExpenseCategory = Office | Salary | Software | Marketing | Other

  function ParseExpenseCategory(s: string): Option<ExpenseCategory>
  {
    if s == "office" then Some(Office)
    else if s == "salary" then Some(Salary)
    else if s == "software" then Some(Software)
    else if s == "marketing" then Some(Marketing)
    else if s == "other" then Some(Other)
    else None
  }

  datatype ExpenseRecord = ExpenseRecord(
    title: string,
    amount: int,
    category: ExpenseCategory,
    date: int,
    description: string)

  // ---- Invoice (models/Invoice.ts) ------------------------------------------

  datatype NumberedInvoiceStatus = Draft | Sent | Settled | Late

  datatype NumberedItem = NumberedItem(description: string, quantity: int, unitPrice: int, total: int)

  datatype NumberedInvoice = NumberedInvoice(
    invoiceNumber: string,
    client: nat,
    project: Option<nat>,
    items: seq<NumberedItem>,
    totalAmount: int,
    status: NumberedInvoiceStatus,
    dueDate: string,
    issueDate: int,
    createdBy: nat)
}
