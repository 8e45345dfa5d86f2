/**
 * Quick add of a client (app/api/clients/quick/route.ts): find a client by
 * name, or create one with a placeholder phone and empty contact fields.
 * The lookup ignores the phone.
 */
module QuickClientApi {
  import opened Common
  import opened Store
  import opened Records
  import opened ClientsApi

  const PlaceholderPhone: string := "0000000000"

  /** The filter `{ name }`. */
  function HasName(name: string): Client -> bool
  {
    (c: Client) => c.name == name
  }

  /** The client the handler creates. */
  function QuickClient(name: string, phone: string): (c: Client)
    ensures c.name == name && c.phone == (if phone != "" then phone else PlaceholderPhone)
    ensures c.email == "" && c.companyName == "" && c.address == ""
    ensures c.notes == "Created via Quick Add"
    ensures ClientValid(c) <==> name != ""
  {
    Client(name, "", if Truthy(phone) then phone else PlaceholderPhone, "", "", "Created via Quick Add")
  }

  /** POST: the first client with that name, or a new one. */
  method QuickAdd(clients: Collection<Client>, name: string, phone: string, now: int) returns (r: Reply<Doc<Client>>)
    requires clients.Valid() && AllClientsValid(clients.docs)
    modifies clients
    ensures clients.Valid() && AllClientsValid(clients.docs)
    ensures Exists(old(clients.docs), HasName(name)) ==>
      && clients.docs == old(clients.docs)
      && r == Ok(200, old(clients.docs)[FirstMatch(old(clients.docs), HasName(name)).value])
    ensures !Exists(old(clients.docs), HasName(name)) && name == "" ==>
      r == Err(500, "Failed to create/find client") && clients.docs == old(clients.docs)
    ensures !Exists(old(clients.docs), HasName(name)) && name != "" ==>
      && r.Ok? && r.status == 200 && r.value.data == QuickClient(name, phone)
      && clients.docs == old(clients.docs) + [r.value]
  {
    var found := clients.Find(HasName(name));
    if found.Some? {
      return Ok(200, clients.docs[found.value]);
    }
    var c := QuickClient(name, phone);
    if !ClientValid(c) {
      return Err(500, "Failed to create/find client");
    }
    var d := clients.Create(c, now);
    r := Ok(200, d);
  }

  /**
   * Running quick add twice with the same name, whatever the phones, creates
   * at most one client: the second call returns what the first returned and
   * changes nothing.
   */
  method QuickAddTwice(clients: Collection<Client>, name: string, phone1: string, phone2: string, now1: int, now2: int)
    returns (r1: Reply<Doc<Client>>, r2: Reply<Doc<Client>>)
    requires clients.Valid() && AllClientsValid(clients.docs)
    modifies clients
    ensures r1.Ok? ==> r2 == r1
    ensures |clients.docs| == |old(clients.docs)| + (if r1.Ok? && !Exists(old(clients.docs), HasName(name)) then 1 else 0)
  {
    r1 := QuickAdd(clients, name, phone1, now1);
    ghost var afterFirst := clients.docs;
    if r1.Ok? && !Exists(old(clients.docs), HasName(name)) {
      var n := |afterFirst| - 1;
      assert HasName(name)(afterFirst[n].data);
      assert forall j :: 0 <= j < n ==> afterFirst[j] == old(clients.docs)[j];
    }
    r2 := QuickAdd(clients, name, phone2, now2);
  }
}
