/**
 * The dashboard endpoint (app/api/dashboard/route.ts): the numbers of
 * projects and clients, the revenue (the income total, computed as the
 * finance overview computes it) and the number of tasks whose status is not
 * 'Completed'. No task status is spelled that way (the enum holds todo,
 * in_progress, review and done), so every task counts as pending.
 */
module DashboardApi {
  import opened Store
  import opened Records
  import FinanceApi

  datatype DashboardStats = DashboardStats(projectsCount: nat, clientsCount: nat, revenue: int, pendingTasks: nat)

  /** The positions of the tasks whose status is not called `name`. */
  ghost function OtherStatusAt(tasks: seq<Doc<Task>>, name: string): set<int>
  {
    set k | 0 <= k < |tasks| && TaskStatusName(tasks[k].data.status) != name
  }

  /** `countDocuments({ status: { $ne: name } })`: the number of tasks whose status is not called `name`. */
  function CountStatusNot(tasks: seq<Doc<Task>>, name: string): (n: nat)
    ensures n == |OtherStatusAt(tasks, name)| && n <= |tasks|
  {
    if tasks == [] then 0
    else
      var m := |tasks| - 1;
      OtherStatusAtLast(tasks, name);
      CountStatusNot(tasks[..m], name) + (if TaskStatusName(tasks[m].data.status) != name then 1 else 0)
  }

  /** Taking the last task into account adds its position exactly when its status differs. */
  lemma OtherStatusAtLast(tasks: seq<Doc<Task>>, name: string)
    requires tasks != []
    ensures var m := |tasks| - 1;
      |OtherStatusAt(tasks, name)| ==
        |OtherStatusAt(tasks[..m], name)| + (if TaskStatusName(tasks[m].data.status) != name then 1 else 0)
  {
    var m := |tasks| - 1;
    var differs := TaskStatusName(tasks[m].data.status) != name;
    var all := OtherStatusAt(tasks, name);
    var front := OtherStatusAt(tasks[..m], name);
    forall k ensures k in all <==> k in front || (differs && k == m) {
      if 0 <= k < m {
        assert tasks[..m][k] == tasks[k];
      }
    }
    if differs {
      assert all == front + {m};
      assert m !in front;
    } else {
      assert all == front;
    }
  }

  /** The status the filter excludes is none of the enum's values. */
  lemma NoStatusIsCompleted(s: TaskStatus)
    ensures TaskStatusName(s) != "Completed"
  {
  }

  /** A filter on a status name no task can have counts every task. */
  lemma {:induction false} CountOfUnusedName(tasks: seq<Doc<Task>>, name: string)
    requires forall s: TaskStatus :: TaskStatusName(s) != name
    ensures CountStatusNot(tasks, name) == |tasks|
  {
    if tasks != [] {
      CountOfUnusedName(tasks[..|tasks| - 1], name);
    }
  }

  /** GET. */
  function Get(projects: seq<Doc<Project>>, clients: seq<Doc<Client>>, tasks: seq<Doc<Task>>,
               transactions: seq<Doc<Transaction>>): (r: DashboardStats)
    ensures r.projectsCount == |projects| && r.clientsCount == |clients|
    ensures r.revenue == FinanceApi.Get(transactions).stats.income
    ensures r.pendingTasks == |tasks|
  {
    FinanceApi.TotalIsSum(transactions, Income);
    CountOfUnusedName(tasks, "Completed");
    DashboardStats(|projects|, |clients|, FinanceApi.TotalOrZero(FinanceApi.Aggregate(transactions, Income)),
                   CountStatusNot(tasks, "Completed"))
  }
}
