/**
 * The clients endpoint (app/api/clients/route.ts): POST requires a name
 * and a phone (by truthiness) and stores the body as a client; GET lists
 * the clients newest first.
 */
module ClientsApi {
  import opened Common
  import opened Store
  import opened Records

  /** Every stored client satisfies the schema's required fields. */
  ghost predicate AllClientsValid(docs: seq<Doc<Client>>)
  {
    forall i :: 0 <= i < |docs| ==> ClientValid(docs[i].data)
  }

  /** POST: 400 unless name and phone are given, otherwise the body is stored as one new client. */
  method Post(clients: Collection<Client>, body: Client, now: int) returns (r: Reply<Doc<Client>>)
    requires clients.Valid() && AllClientsValid(clients.docs)
    modifies clients
    ensures clients.Valid() && AllClientsValid(clients.docs)
    ensures !Truthy(body.name) || !Truthy(body.phone) ==>
      r == Err(400, "Name and Phone are required") && clients.docs == old(clients.docs)
    ensures Truthy(body.name) && Truthy(body.phone) ==>
      && r.Ok? && r.status == 201 && r.value.data == body
      && r.value.id !in Ids(old(clients.docs))
      && clients.docs == old(clients.docs) + [r.value]
  {
    if !Truthy(body.name) || !Truthy(body.phone) {
      return Err(400, "Name and Phone are required");
    }
    var d := clients.Create(body, now);
    r := Ok(201, d);
  }
}
