/**
 * The new-project form (components/projects/create-project-dialog.tsx): a
 * two-step dialog whose second step picks standard tasks by checkbox. A
 * toggle appends a task that is not selected and removes every occurrence of
 * one that is. Submitting posts the project with the selected tasks and the
 * budget read by `Number`, and on success closes the dialog, goes back to
 * step 1 and clears the form.
 */
module ProjectDialog {
  import opened Common
  import opened Decimal

  /** The tasks the second step offers, in display order. */
  const StandardTasks: seq<string> := [
    "رسم مخططات معمارية", "عمل فكرة مخطط معماري", "منظور 3D", "تقرير فني الكتروني",
    "رفع تقارير الاشراف", "تقرير سلامة فوري", "تقرير سلامة غير فوري", "رخصة تسوير",
    "قرار مساحي", "مخطط انشائي", "ربط الرخصة", "شهادة اشغال", "شهادة انهاء اعمال السلامة",
    "فرز", "مخطط طاقة استيعابية", "مخطط سلامة", "رفع الرخصة", "اضافة وتعديل مكونات البناء",
    "مطابقة مخططات السلامة", "الاشراف على الرخصة", "تقرير اسكان حجاج", "رخصة بناء", "رخصة هدم"
  ]

  /** `s.filter(t => t !== task)`. */
  function Without(s: seq<string>, task: string): (r: seq<string>)
    ensures task !in r && |r| <= |s|
    ensures forall t :: t != task ==> (t in r <==> t in s)
    ensures multiset(r) == multiset(s)[task := 0]
  {
    if s == [] then []
    else if s[0] == task then
      assert s == [s[0]] + s[1..];
      Without(s[1..], task)
    else
      assert s == [s[0]] + s[1..];
      [s[0]] + Without(s[1..], task)
  }

  /** `handleTaskToggle(task)` on the selected list. */
  function Toggled(s: seq<string>, task: string): (r: seq<string>)
    ensures task in r <==> task !in s
    ensures forall t :: t != task ==> (t in r <==> t in s)
    ensures task !in s ==> |r| == |s| + 1 && r[..|s|] == s && r[|s|] == task
    ensures task in s ==> multiset(r) == multiset(s)[task := 0]
  {
    if task in s then Without(s, task) else s + [task]
  }

  /** Filtering out a value that does not occur changes nothing. */
  lemma {:induction false} WithoutAbsent(s: seq<string>, task: string)
    requires task !in s
    ensures Without(s, task) == s
  {
    if s != [] {
      WithoutAbsent(s[1..], task);
    }
  }

  lemma {:induction false} WithoutAppend(s: seq<string>, task: string)
    ensures Without(s + [task], task) == Without(s, task)
  {
    if s == [] {
      assert [task][1..] == [];
    } else {
      assert (s + [task])[1..] == s[1..] + [task];
      WithoutAppend(s[1..], task);
    }
  }

  /** Ticking a task and unticking it again restores the selection exactly. */
  lemma ToggleTwice(s: seq<string>, task: string)
    requires task !in s
    ensures Toggled(Toggled(s, task), task) == s
  {
    WithoutAppend(s, task);
    WithoutAbsent(s, task);
  }

  /**
   * A click on a checklist box toggles twice: once by the box's own change
   * handler and once by the tile's click handler it bubbles to. The set of
   * selected tasks comes out unchanged; an unticked task leaves the list
   * exactly as it was, a ticked one moves to the end.
   */
  lemma CheckboxClick(s: seq<string>, task: string)
    ensures forall t :: t in Toggled(Toggled(s, task), task) <==> t in s
    ensures task !in s ==> Toggled(Toggled(s, task), task) == s
    ensures task in s ==> Toggled(Toggled(s, task), task) == Without(s, task) + [task]
  {
    if task !in s {
      ToggleTwice(s, task);
    }
  }

  predicate NoDuplicates(s: seq<string>)
  {
    forall i, j :: 0 <= i < j < |s| ==> s[i] != s[j]
  }

  lemma {:induction false} WithoutNoDuplicates(s: seq<string>, task: string)
    requires NoDuplicates(s)
    ensures NoDuplicates(Without(s, task))
  {
    if s != [] {
      WithoutNoDuplicates(s[1..], task);
      if s[0] != task {
        assert s[0] !in s[1..];
        assert s[0] !in Without(s[1..], task) by {
          assert multiset(Without(s[1..], task))[s[0]] == multiset(s[1..])[s[0]];
        }
      }
    }
  }

  /** A selection without duplicates stays without duplicates, whatever is toggled. */
  lemma ToggleKeepsNoDuplicates(s: seq<string>, task: string)
    requires NoDuplicates(s)
    ensures NoDuplicates(Toggled(s, task))
  {
    if task in s {
      WithoutNoDuplicates(s, task);
    }
  }

  /** Every selected task is one the checklist offers. */
  predicate Standard(s: seq<string>)
  {
    forall t :: t in s ==> t in StandardTasks
  }

  /** The checklist only toggles standard tasks, so the selection stays within them. */
  lemma ToggleStaysStandard(s: seq<string>, task: string)
    requires Standard(s) && task in StandardTasks
    ensures Standard(Toggled(s, task))
  {
  }

  /** A sequence has at most as many distinct values as entries, and exactly as many without duplicates. */
  lemma {:induction false} DistinctValues(s: seq<string>)
    ensures |(set t | t in s)| <= |s|
    ensures NoDuplicates(s) ==> |(set t | t in s)| == |s|
  {
    if s != [] {
      DistinctValues(s[1..]);
      assert (set t | t in s) == {s[0]} + (set t | t in s[1..]);
      if NoDuplicates(s) {
        assert NoDuplicates(s[1..]) by {
          forall i, j | 0 <= i < j < |s[1..]|
            ensures s[1..][i] != s[1..][j]
          {
            assert s[1..][i] == s[i + 1] && s[1..][j] == s[j + 1];
          }
        }
        assert s[0] !in s[1..];
      }
    }
  }

  lemma {:induction false} SubsetSize(a: set<string>, b: set<string>)
    requires a <= b
    ensures |a| <= |b|
    decreases a
  {
    if a != {} {
      var x :| x in a;
      SubsetSize(a - {x}, b - {x});
    }
  }

  /**
   * A duplicate-free selection of standard tasks never holds more tasks
   * than the checklist offers, so a new project starts with at most 23.
   */
  lemma SelectionBound(s: seq<string>)
    requires NoDuplicates(s) && Standard(s)
    ensures |s| <= |StandardTasks|
  {
    DistinctValues(s);
    DistinctValues(StandardTasks);
    SubsetSize(set t | t in s, set t | t in StandardTasks);
  }

  /** The body posted to the projects endpoint. */
  datatype ProjectPayload = ProjectPayload(
    title: string,
    client: string,
    manager: string,
    budget: Option<int>,
    startDate: string,
    endDate: string,
    status: string,
    description: string,
    tasks: seq<string>)

  /** The dialog's state: whether it is open, the step, and `formData`. */
  class ProjectForm {
    var open: bool
    var step: int
    var title: string
    var clientName: string
    var manager: string
    var budget: string
    var startDate: string
    var endDate: string
    var status: string
    var description: string
    var selectedTasks: seq<string>

    /** The dialog is always on step 1 or step 2. */
    ghost predicate Valid()
      reads this
    {
      step == 1 || step == 2
    }

    /** The initial and the cleared form: nothing entered, status new, no task selected. */
    ghost predicate Blank()
      reads this
    {
      && title == "" && clientName == "" && manager == "" && budget == ""
      && startDate == "" && endDate == "" && status == "new" && description == ""
      && selectedTasks == []
    }

    constructor ()
      ensures Valid() && step == 1 && Blank() && !open
    {
      open, step := false, 1;
      title, clientName, manager, budget := "", "", "", "";
      startDate, endDate, status, description := "", "", "new", "";
      selectedTasks := [];
    }

    /** The text fields of `formData`. */
    ghost function Entered(): (string, string, string, string, string, string, string, string)
      reads this
    {
      (title, clientName, manager, budget, startDate, endDate, status, description)
    }

    /** What `handleSubmit` posts, given the id of the client the quick-add endpoint returned. */
    function Payload(clientId: string): (p: ProjectPayload)
      reads this
      ensures p.tasks == selectedTasks && p.budget == ParseNumber(budget) && p.client == clientId
      ensures p.title == title && p.manager == manager && p.status == status && p.description == description
    {
      ProjectPayload(title, clientId, manager, ParseNumber(budget), startDate, endDate, status, description, selectedTasks)
    }

    /** `handleTaskToggle`: only the selection changes. */
    method ToggleTask(task: string)
      requires Valid()
      modifies this
      ensures Valid() && selectedTasks == Toggled(old(selectedTasks), task)
      ensures step == old(step) && open == old(open) && Payload("") == old(Payload("")).(tasks := selectedTasks)
      ensures Entered() == old(Entered()) && clientName == old(clientName)
    {
      selectedTasks := Toggled(selectedTasks, task);
    }

    /** The Next button. */
    method Next()
      modifies this
      ensures Valid() && step == 2
      ensures open == old(open) && Payload("") == old(Payload(""))
      ensures Entered() == old(Entered()) && clientName == old(clientName) && selectedTasks == old(selectedTasks)
    {
      step := 2;
    }

    /** The Previous button. */
    method Previous()
      modifies this
      ensures Valid() && step == 1
      ensures open == old(open) && Payload("") == old(Payload(""))
      ensures Entered() == old(Entered()) && clientName == old(clientName) && selectedTasks == old(selectedTasks)
    {
      step := 1;
    }

    /**
     * `handleSubmit`: the posted body, then, when the project endpoint
     * accepts it, a closed dialog back on step 1 with a cleared form;
     * otherwise no field changes.
     */
    method Submit(clientId: string, accepted: bool) returns (p: ProjectPayload)
      requires Valid()
      modifies this
      ensures p == old(Payload(clientId))
      ensures Valid()
      ensures accepted ==> step == 1 && Blank() && !open
      ensures !accepted ==> step == old(step) && open == old(open) && Payload(clientId) == p
      ensures !accepted ==> Entered() == old(Entered()) && clientName == old(clientName) && selectedTasks == old(selectedTasks)
    {
      p := Payload(clientId);
      if accepted {
        open, step := false, 1;
        title, clientName, manager, budget := "", "", "", "";
        startDate, endDate, status, description := "", "", "new", "";
        selectedTasks := [];
      }
    }
  }

  /** An empty budget field is sent as 0, since `Number("")` is 0. */
  lemma EmptyBudgetIsZero(f: ProjectForm, clientId: string)
    requires f.budget == ""
    ensures f.Payload(clientId).budget == Some(0)
  {
  }
}
