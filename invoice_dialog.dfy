/**
 * The invoice form (components/finance/invoice-dialog.tsx): the state the
 * dialog keeps while an invoice is drafted, and the handlers that change it.
 * Editing a line item recomputes the amount as the sum of quantity times
 * price over all lines; adding a blank line keeps that sum; removing a line
 * does not recompute it, so the amount can go stale. Choosing a project
 * copies that project's client. The form is sent to the finance invoices
 * endpoint with the amount read by `Number`.
 */
module InvoiceDialog {
  import opened Common
  import opened Decimal
  import opened Records
  import FinanceInvoicesApi

  /** A line as `addItem` and the initial state create it. */
  const BlankItem: LineItem := LineItem("", 1, 0)

  /** `handleItemChange(index, field, value)`: the field and its new value. */
  datatype ItemEdit = Description(text: string) | Quantity(quantity: int) | Price(price: int)

  function LineTotal(item: LineItem): int
  {
    item.quantity * item.price
  }

  /** `items.reduce((sum, item) => sum + quantity * price, 0)`. */
  function Total(items: seq<LineItem>): int
  {
    if items == [] then 0 else Total(items[..|items| - 1]) + LineTotal(items[|items| - 1])
  }

  lemma {:induction false} TotalAppend(a: seq<LineItem>, b: seq<LineItem>)
    ensures Total(a + b) == Total(a) + Total(b)
  {
    if b == [] {
      assert a + b == a;
    } else {
      var init := b[..|b| - 1];
      assert (a + b)[..|a + b| - 1] == a + init;
      TotalAppend(a, init);
    }
  }

  /** `{ ...item, [field]: value }`. */
  function Edited(item: LineItem, edit: ItemEdit): (r: LineItem)
    ensures edit.Description? ==> r == item.(description := edit.text)
    ensures edit.Quantity? ==> r == item.(quantity := edit.quantity)
    ensures edit.Price? ==> r == item.(price := edit.price)
  {
    match edit
    case Description(text) => LineItem(text, item.quantity, item.price)
    case Quantity(q) => LineItem(item.description, q, item.price)
    case Price(p) => LineItem(item.description, item.quantity, p)
  }

  /** The copied list with the edited line at `index`. */
  function ReplaceAt(items: seq<LineItem>, index: nat, edit: ItemEdit): (r: seq<LineItem>)
    requires index < |items|
    ensures |r| == |items| && r[index] == Edited(items[index], edit)
    ensures forall j :: 0 <= j < |items| && j != index ==> r[j] == items[j]
  {
    items[index := Edited(items[index], edit)]
  }

  /** `items.filter((_, i) => i !== index)`: the line at `index` is dropped, if there is one. */
  function RemoveAt(items: seq<LineItem>, index: nat): (r: seq<LineItem>)
    ensures index >= |items| ==> r == items
    ensures index < |items| ==>
      && |r| == |items| - 1
      && (forall j :: 0 <= j < index ==> r[j] == items[j])
      && (forall j :: index <= j < |r| ==> r[j] == items[j + 1])
  {
    if index < |items| then items[..index] + items[index + 1..] else items
  }

  /** Dropping a line takes its quantity times price off the sum. */
  lemma TotalOfRemoved(items: seq<LineItem>, index: nat)
    requires index < |items|
    ensures Total(RemoveAt(items, index)) == Total(items) - LineTotal(items[index])
  {
    var pre, x, post := items[..index], items[index], items[index + 1..];
    TotalAroundLine(pre, x, post);
    assert items == pre + [x] + post;
    TotalAppend(pre, post);
  }

  lemma TotalAroundLine(pre: seq<LineItem>, x: LineItem, post: seq<LineItem>)
    ensures Total(pre + [x] + post) == Total(pre) + LineTotal(x) + Total(post)
  {
    TotalAppend(pre + [x], post);
    TotalAppend(pre, [x]);
    TotalSingle(x);
  }

  lemma TotalSingle(x: LineItem)
    ensures Total([x]) == LineTotal(x)
  {
    assert [x][..0] == [];
  }

  /** A project as the form lists it, with the id of its client when it has one. */
  datatype ProjectOption = ProjectOption(id: string, client: Option<string>)

  /** `projects.find(p => p._id === projectId)`. */
  function FindProject(projects: seq<ProjectOption>, id: string): (r: Option<nat>)
    ensures r.Some? ==> r.value < |projects| && projects[r.value].id == id
    ensures r.Some? ==> forall j :: 0 <= j < r.value ==> projects[j].id != id
    ensures r.None? ==> forall j :: 0 <= j < |projects| ==> projects[j].id != id
  {
    if projects == [] then None
    else if projects[0].id == id then Some(0)
    else match FindProject(projects[1..], id)
      case None => None
      case Some(k) => Some(k + 1)
  }

  /** `project?.client?._id || ''`. */
  function ClientOf(projects: seq<ProjectOption>, id: string): (c: string)
    ensures FindProject(projects, id).None? ==> c == ""
    ensures FindProject(projects, id).Some? ==>
      var p := projects[FindProject(projects, id).value];
      c == (if p.client.Some? then p.client.value else "")
  {
    match FindProject(projects, id)
    case None => ""
    case Some(i) => if projects[i].client.Some? then projects[i].client.value else ""
  }

  /** The dialog's `formData`. */
  class InvoiceForm {
    var projectId: string
    var clientId: string
    var amount: string
    var issueDate: string
    var dueDate: string
    var status: string
    var items: seq<LineItem>

    /** The amount field reads as the sum of the lines. */
    ghost predicate AmountCurrent()
      reads this
    {
      ParseNumber(amount) == Some(Total(items))
    }

    /**
     * The initial and the reset state: one blank line, status pending, the
     * issue date `today` and nothing else filled in. The dialog passes the
     * day key of the browser's clock, `DayKey(now)`.
     */
    ghost predicate Fresh(today: string)
      reads this
    {
      && projectId == "" && clientId == "" && amount == "" && dueDate == ""
      && issueDate == today && status == "pending" && items == [BlankItem]
    }

    constructor (today: string)
      ensures Fresh(today) && AmountCurrent()
    {
      projectId, clientId, amount := "", "", "";
      issueDate, dueDate, status := today, "", "pending";
      items := [BlankItem];
      TotalSingle(BlankItem);
    }

    /** The reset after a successful save. */
    method Reset(today: string)
      modifies this
      ensures Fresh(today) && AmountCurrent()
    {
      projectId, clientId, amount := "", "", "";
      issueDate, dueDate, status := today, "", "pending";
      items := [BlankItem];
      TotalSingle(BlankItem);
    }

    /** `handleProjectChange`: the project and its client; nothing else changes. */
    method ChangeProject(id: string, projects: seq<ProjectOption>)
      modifies this
      ensures projectId == id && clientId == ClientOf(projects, id)
      ensures amount == old(amount) && items == old(items) && status == old(status)
      ensures issueDate == old(issueDate) && dueDate == old(dueDate)
    {
      projectId := id;
      clientId := ClientOf(projects, id);
    }

    /** `handleItemChange`: one field of one line changes, and the amount becomes the new sum. */
    method ChangeItem(index: nat, edit: ItemEdit)
      requires index < |items|
      modifies this
      ensures items == ReplaceAt(old(items), index, edit)
      ensures amount == IntToString(Total(items)) && AmountCurrent()
      ensures projectId == old(projectId) && clientId == old(clientId) && status == old(status)
      ensures issueDate == old(issueDate) && dueDate == old(dueDate)
    {
      var newItems := ReplaceAt(items, index, edit);
      items := newItems;
      amount := IntToString(Total(newItems));
      NumberOfToString(Total(newItems));
    }

    /** `addItem`: a blank line at the end; the amount is untouched and still matches the lines if it did. */
    method AddItem()
      modifies this
      ensures items == old(items) + [BlankItem] && Total(items) == Total(old(items))
      ensures amount == old(amount) && (old(AmountCurrent()) ==> AmountCurrent())
      ensures projectId == old(projectId) && clientId == old(clientId) && status == old(status)
      ensures issueDate == old(issueDate) && dueDate == old(dueDate)
    {
      TotalAppend(items, [BlankItem]);
      TotalSingle(BlankItem);
      items := items + [BlankItem];
    }

    /**
     * `removeItem`: the line goes, the amount stays. A current amount stays
     * current only if the removed line contributed nothing to the sum.
     */
    method RemoveItem(index: nat)
      modifies this
      ensures items == RemoveAt(old(items), index) && amount == old(amount)
      ensures old(AmountCurrent()) && index < |old(items)| ==>
        (AmountCurrent() <==> LineTotal(old(items)[index]) == 0)
      ensures projectId == old(projectId) && clientId == old(clientId) && status == old(status)
      ensures issueDate == old(issueDate) && dueDate == old(dueDate)
    {
      if index < |items| {
        TotalOfRemoved(items, index);
      }
      items := RemoveAt(items, index);
    }

    /** The body `handleSubmit` posts: ids as chosen, `Number(amount)`, no notes. */
    function Payload(): (b: FinanceInvoicesApi.InvoiceBody)
      reads this
      ensures b.project == projectId && b.client == clientId && b.items == items
      ensures b.amount == ParseNumber(amount) && b.dueDate == dueDate && b.issueDate == issueDate
    {
      FinanceInvoicesApi.InvoiceBody(projectId, clientId, ParseNumber(amount), status, issueDate, dueDate, items, "")
    }
  }

  /**
   * A form whose lines sum to 0 (the fresh form among them, whose amount is
   * still "") is refused by the finance invoices endpoint as missing fields.
   */
  lemma ZeroTotalRefused(f: InvoiceForm)
    requires f.AmountCurrent() && Total(f.items) == 0
    ensures !FinanceInvoicesApi.HasRequiredFields(f.Payload())
  {
  }

  /** A fresh form's lines sum to 0. */
  lemma FreshTotalIsZero(f: InvoiceForm, today: string)
    requires f.Fresh(today)
    ensures f.AmountCurrent() && Total(f.items) == 0
  {
    TotalSingle(BlankItem);
  }
}
