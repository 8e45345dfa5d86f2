/**
 * The finance overview endpoint (app/api/finance/route.ts). GET reports the
 * income and expense totals (each `$match` by type then `$sum` of the
 * amounts, read as `result[0]?.total || 0`), the net profit as their
 * difference, the ten transactions with the latest dates, and a fixed
 * six-month chart. POST stores a transaction with the first stored user as
 * its creator.
 */
module FinanceApi {
  import opened Common
  import opened Sorting
  import opened Store
  import opened UserModel
  import opened Records

  /** The sum of the amounts of the transactions of one type. */
  function Sum(docs: seq<Doc<Transaction>>, kind: TxType): int
  {
    if docs == [] then 0
    else (if docs[0].data.kind == kind then docs[0].data.amount else 0) + Sum(docs[1..], kind)
  }

  /** The aggregation pipeline's result: one `{ total }` group, or no group at all when nothing matches. */
  function Aggregate(docs: seq<Doc<Transaction>>, kind: TxType): (r: seq<int>)
    ensures |r| <= 1
    ensures |r| == 0 <==> forall j :: 0 <= j < |docs| ==> docs[j].data.kind != kind
  {
    if exists j :: 0 <= j < |docs| && docs[j].data.kind == kind then [Sum(docs, kind)] else []
  }

  /** `result[0]?.total || 0`. */
  function TotalOrZero(result: seq<int>): int
  {
    if |result| > 0 && result[0] != 0 then result[0] else 0
  }

  /** Nothing of a type sums to 0. */
  lemma {:induction false} SumOfNone(docs: seq<Doc<Transaction>>, kind: TxType)
    requires forall j :: 0 <= j < |docs| ==> docs[j].data.kind != kind
    ensures Sum(docs, kind) == 0
  {
    if docs != [] {
      SumOfNone(docs[1..], kind);
    }
  }

  /** Reading the pipeline's result with `|| 0` gives the sum of the amounts, 0 when there are none. */
  lemma TotalIsSum(docs: seq<Doc<Transaction>>, kind: TxType)
    ensures TotalOrZero(Aggregate(docs, kind)) == Sum(docs, kind)
  {
    if forall j :: 0 <= j < |docs| ==> docs[j].data.kind != kind {
      SumOfNone(docs, kind);
    }
  }

  /** Sums over two parts of the ledger add up. */
  lemma {:induction false} SumAppend(a: seq<Doc<Transaction>>, b: seq<Doc<Transaction>>, kind: TxType)
    ensures Sum(a + b, kind) == Sum(a, kind) + Sum(b, kind)
  {
    if a != [] {
      assert (a + b)[1..] == a[1..] + b;
      SumAppend(a[1..], b, kind);
    } else {
      assert a + b == b;
    }
  }

  datatype Stats = Stats(income: int, expenses: int, netProfit: int)

  datatype ChartPoint = ChartPoint(name: string, income: int, expense: int)

  datatype Overview = Overview(stats: Stats, transactions: seq<Doc<Transaction>>, chartData: seq<ChartPoint>)

  /** The chart of the last six months, a constant the store does not influence. */
  const ChartData: seq<ChartPoint> := [
    ChartPoint("يناير", 4000, 2400),
    ChartPoint("فبراير", 3000, 1398),
    ChartPoint("مارس", 2000, 9800),
    ChartPoint("أبريل", 2780, 3908),
    ChartPoint("مايو", 1890, 4800),
    ChartPoint("يونيو", 2390, 3800)
  ]

  function ByLatestDate(d: Doc<Transaction>): int
  {
    -d.data.date
  }

  /** `find({}).sort({ date: -1 }).limit(10)`. */
  function Recent(docs: seq<Doc<Transaction>>): (r: seq<Doc<Transaction>>)
    ensures |r| == if |docs| < 10 then |docs| else 10
    ensures multiset(r) <= multiset(docs)
    ensures forall i, j :: 0 <= i < j < |r| ==> r[i].data.date >= r[j].data.date
  {
    var sorted := SortBy(docs, ByLatestDate);
    SortBySorted(docs, ByLatestDate);
    TakeSorted(sorted, 10, ByLatestDate);
    var r := Take(sorted, 10);
    assert sorted == r + sorted[|r|..];
    r
  }

  /** No transaction left out of the ten is later than any of the ten. */
  lemma RecentAreLatest(docs: seq<Doc<Transaction>>)
    ensures forall x, y :: x in multiset(docs) - multiset(Recent(docs)) && y in Recent(docs) ==> x.data.date <= y.data.date
  {
    var sorted := SortBy(docs, ByLatestDate);
    SortBySorted(docs, ByLatestDate);
    TakeDominates(sorted, 10, ByLatestDate);
  }

  /** GET. */
  function Get(docs: seq<Doc<Transaction>>): (r: Overview)
    ensures r.stats.income == Sum(docs, Income) && r.stats.expenses == Sum(docs, Expense)
    ensures r.stats.netProfit == Sum(docs, Income) - Sum(docs, Expense)
    ensures r.transactions == Recent(docs) && r.chartData == ChartData
  {
    TotalIsSum(docs, Income);
    TotalIsSum(docs, Expense);
    var income := TotalOrZero(Aggregate(docs, Income));
    var expenses := TotalOrZero(Aggregate(docs, Expense));
    Overview(Stats(income, expenses, income - expenses), Recent(docs), ChartData)
  }

  /** Recording an income raises the net profit by its amount, an expense lowers it by its amount. */
  lemma NetProfitOfNewTransaction(docs: seq<Doc<Transaction>>, d: Doc<Transaction>)
    ensures d.data.kind == Income ==> Get(docs + [d]).stats.netProfit == Get(docs).stats.netProfit + d.data.amount
    ensures d.data.kind == Expense ==> Get(docs + [d]).stats.netProfit == Get(docs).stats.netProfit - d.data.amount
  {
    SumAppend(docs, [d], Income);
    SumAppend(docs, [d], Expense);
  }

  /** The request body: a missing string is "", a missing number, date or id None. */
  datatype TransactionBody = TransactionBody(
    kind: string,
    amount: Option<int>,
    category: string,
    description: string,
    date: Option<int>,
    project: Option<nat>,
    client: Option<nat>)

  function ParseTxType(s: string): Option<TxType>
  {
    if s == "income" then Some(Income) else if s == "expense" then Some(Expense) else None
  }

  /**
   * `Transaction.create({ ...body, createdBy })`: the stored transaction, or
   * None when the schema refuses it (type outside the enum, no amount, no
   * category, no creator). The date defaults to now.
   */
  function Build(body: TransactionBody, createdBy: Option<nat>, now: int): (r: Option<Transaction>)
    ensures r.Some? <==>
      ParseTxType(body.kind).Some? && body.amount.Some? && body.category != "" && createdBy.Some?
    ensures r.Some? ==>
      && r.value.kind == ParseTxType(body.kind).value && r.value.amount == body.amount.value
      && r.value.category == body.category && r.value.description == body.description
      && r.value.date == (if body.date.Some? then body.date.value else now)
      && r.value.project == body.project && r.value.client == body.client
      && r.value.createdBy == createdBy.value
  {
    var kind := ParseTxType(body.kind);
    if kind.None? || body.amount.None? || body.category == "" || createdBy.None? then None
    else Some(Transaction(kind.value, body.amount.value, body.category, body.description,
                          if body.date.Some? then body.date.value else now, body.project, body.client,
                          createdBy.value))
  }

  /** POST: the first stored user is the creator; with no user at all the schema refuses the transaction. */
  method Post(transactions: Collection<Transaction>, users: Collection<User>, body: TransactionBody, now: int)
    returns (r: Reply<Doc<Transaction>>)
    requires transactions.Valid()
    modifies transactions
    ensures transactions.Valid()
    ensures Build(body, users.FirstId(), now).None? ==>
      r == Err(500, "Failed to create transaction") && transactions.docs == old(transactions.docs)
    ensures Build(body, users.FirstId(), now).Some? ==>
      && r.Ok? && r.status == 201 && r.value.data == Build(body, users.FirstId(), now).value
      && r.value.data.createdBy == users.docs[0].id
      && r.value.id !in Ids(old(transactions.docs))
      && transactions.docs == old(transactions.docs) + [r.value]
  {
    var admin := users.FirstId();
    var tx := Build(body, admin, now);
    if tx.None? {
      return Err(500, "Failed to create transaction");
    }
    var d := transactions.Create(tx.value, now);
    r := Ok(201, d);
  }
}
