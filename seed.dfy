/**
 * Seeding (app/api/seed/route.ts): an administrator, three clients, three
 * projects, and two tasks and two transactions, each created only when it
 * is not there yet, so that running the seed again creates nothing. `hash`
 * stands for bcrypt's hashing, `now` for the instant of the request.
 */
module Seed {
  import opened Common
  import opened Clock
  import opened Store
  import opened UserModel
  import opened Records
  import opened ClientsApi

  const AdminEmail: string := "admin@example.com"

  /** The administrator the seed creates, with the hash of its default password. */
  function AdminUser(hash: string -> string): (u: User)
    ensures u.email == AdminEmail && u.role == Admin && u.permissions == ["all"]
    ensures u.password == Some(hash("password123")) && u.name != ""
  {
    User("Admin User", AdminEmail, Some(hash("password123")), Admin, None, ["all"])
  }

  /**
   * The seed clients as the schema stores them: the `company` and
   * `createdBy` the handler passes are not schema fields and are dropped.
   */
  const SeedClients: seq<Client> := [
    Client("شركة الأفق للتطوير", "contact@alofuq.com", "0501234567", "", "الرياض - العليا", ""),
    Client("مجموعة البناء الحديث", "info@modernbuild.sa", "0559876543", "", "جدة - التحلية", ""),
    Client("خالد العتيبي", "khaled@gmail.com", "0541112222", "", "الدمام", "")
  ]

  const SeedTitles: seq<string> := ["تصميم فيلا سكنية - حي الملقا", "إشراف هندسي - برج العليا", "استشارة فنية - ترميم"]

  /** The three seed projects, for the seeded clients, with the administrator as the whole team. */
  function SeedProjects(clientIds: seq<nat>, admin: nat, now: Time): (ps: seq<Project>)
    requires |clientIds| == 3
    ensures |ps| == 3
    ensures forall k :: 0 <= k < 3 ==> ps[k].title == SeedTitles[k] && ps[k].client == Some(clientIds[k])
    ensures forall k :: 0 <= k < 3 ==> ps[k].team == [admin]
  {
    [
      Project(SeedTitles[0], Some(clientIds[0]), InProgress, 150000, now, now + 30 * DayMs, [admin], ""),
      Project(SeedTitles[1], Some(clientIds[1]), New, 500000, now, now + 90 * DayMs, [admin], ""),
      Project(SeedTitles[2], Some(clientIds[2]), Completed, 5000, now - 10 * DayMs, now, [admin], "")
    ]
  }

  function SeedTasks(p0: nat, p1: nat, admin: nat, now: Time): seq<Task>
  {
    [
      Task("إعداد المخططات الأولية", Some(p0), Some(admin), Doing, High, Some(now + 5 * DayMs), ""),
      Task("مراجعة العقد", Some(p1), Some(admin), Todo, Medium, Some(now + 2 * DayMs), "")
    ]
  }

  function SeedTransactions(p0: nat, c0: nat, admin: nat, now: Time): seq<Transaction>
  {
    [
      Transaction(Income, 50000, "دفعة مقدمة", "دفعة أولى - فيلا الملقا", now, Some(p0), Some(c0), admin),
      Transaction(Expense, 2000, "تراخيص", "رسوم بلدية", now, Some(p0), None, admin)
    ]
  }

  /** The filter `{ field: k }` for a field read by `key`. */
  function KeyIs<T>(key: T -> string, k: string): T -> bool
  {
    (x: T) => key(x) == k
  }

  function ClientEmail(c: Client): string
  {
    c.email
  }

  function ProjectTitle(p: Project): string
  {
    p.title
  }

  /** Every item's key is already stored. */
  ghost predicate AllPresent<T>(docs: seq<Doc<T>>, items: seq<T>, key: T -> string)
  {
    forall k :: 0 <= k < |items| ==> Exists(docs, KeyIs(key, key(items[k])))
  }

  /** `d` is one of the items, created because its key was missing from `before`. */
  ghost predicate CreatedFrom<T>(before: seq<Doc<T>>, items: seq<T>, key: T -> string, x: T)
  {
    exists k :: 0 <= k < |items| && x == items[k] && !Exists(before, KeyIs(key, key(items[k])))
  }

  /** The documents added after `before` carry pairwise distinct keys: no item is created twice. */
  ghost predicate AddedDistinct<T>(before: seq<Doc<T>>, after: seq<Doc<T>>, key: T -> string)
  {
    forall i, j :: |before| <= i < j < |after| ==> key(after[i].data) != key(after[j].data)
  }

  /**
   * The seed's `for` loops: find each item by its key, create it when
   * missing, and collect the ids of what was found or created, in item order.
   */
  method FindOrCreateAll<T>(c: Collection<T>, items: seq<T>, key: T -> string, now: int)
    returns (ids: seq<nat>)
    requires c.Valid()
    modifies c
    ensures c.Valid() && |ids| == |items| && |c.docs| <= |old(c.docs)| + |items|
    ensures ItemsSeeded(old(c.docs), c.docs, items, key)
    ensures forall k :: 0 <= k < |items| ==> IdFirst(c.docs, ids[k], key, key(items[k]))
  {
    var found := [];
    var i := 0;
    while i < |items|
      modifies c
      invariant 0 <= i <= |items| && |found| == i
      invariant c.Valid() && |c.docs| <= |old(c.docs)| + i
      invariant forall k :: 0 <= k < i ==> FirstIs(c.docs, key, key(items[k]), found[k])
      invariant Grown(old(c.docs), c.docs, items, key)
    {
      ghost var before := c.docs;
      var d := c.FindOrCreate(KeyIs(key, key(items[i])), items[i], now);
      FindOrCreateStep(old(c.docs), before, c.docs, items, key, i, d);
      FirstsKept(before, c.docs, items, key, i, found, d);
      found := found + [d];
      i := i + 1;
    }
    FoundHaveIds(c.docs, found, items, key);
    ids := IdsOf(found);
  }

  /** The ids of a sequence of documents, in order. */
  function IdsOf<T>(docs: seq<Doc<T>>): (ids: seq<nat>)
    ensures |ids| == |docs| && forall k :: 0 <= k < |docs| ==> ids[k] == docs[k].id
  {
    if docs == [] then [] else [docs[0].id] + IdsOf(docs[1..])
  }

  /** `d` is the first stored document whose key is `k`: what `findOne` returns. */
  ghost predicate FirstIs<T>(docs: seq<Doc<T>>, key: T -> string, k: string, d: Doc<T>)
  {
    var m := FirstMatch(docs, KeyIs(key, k));
    m.Some? && docs[m.value] == d
  }

  /** `id` is the id of the first stored document whose key is `k`. */
  ghost predicate IdFirst<T>(docs: seq<Doc<T>>, id: nat, key: T -> string, k: string)
  {
    var m := FirstMatch(docs, KeyIs(key, k));
    m.Some? && docs[m.value].id == id
  }

  /** One round of the loop keeps the collection's invariant: what it creates is a missing item. */
  lemma FindOrCreateStep<T>(start: seq<Doc<T>>, before: seq<Doc<T>>, after: seq<Doc<T>>,
                            items: seq<T>, key: T -> string, i: nat, d: Doc<T>)
    requires start <= before && i < |items|
    requires Grown(start, before, items, key)
    requires var p := KeyIs(key, key(items[i]));
      || (Exists(before, p) && after == before && d == after[FirstMatch(after, p).value])
      || (!Exists(before, p) && after == before + [d] && d.data == items[i])
    ensures |after| <= |before| + 1
    ensures Grown(start, after, items, key)
  {
    var p := KeyIs(key, key(items[i]));
    PrefixKeepsMembers(before, after);
    if !Exists(before, p) {
      AbsentFromPrefix(start, before, p);
      assert CreatedFrom(start, items, key, d.data);
      assert forall j :: |start| <= j < |before| ==> after[j] == before[j];
      forall j | |start| <= j < |before| ensures key(after[j].data) != key(d.data) {
        assert !p(before[j].data);
      }
    }
  }

  /** The documents collected so far, and the one this round returned, are the first with their keys. */
  lemma FirstsKept<T>(before: seq<Doc<T>>, after: seq<Doc<T>>, items: seq<T>, key: T -> string,
                      i: nat, found: seq<Doc<T>>, d: Doc<T>)
    requires before <= after && i < |items| && |found| == i
    requires forall k :: 0 <= k < i ==> FirstIs(before, key, key(items[k]), found[k])
    requires var p := KeyIs(key, key(items[i]));
      || (Exists(before, p) && after == before && d == after[FirstMatch(after, p).value])
      || (!Exists(before, p) && after == before + [d] && d.data == items[i])
    ensures forall k :: 0 <= k <= i ==> FirstIs(after, key, key(items[k]), (found + [d])[k])
  {
    var p := KeyIs(key, key(items[i]));
    forall k | 0 <= k < i ensures FirstIs(after, key, key(items[k]), (found + [d])[k]) {
      FirstMatchExtend(before, after, KeyIs(key, key(items[k])));
    }
    if Exists(before, p) {
      assert FirstMatch(after, p).Some?;
    } else {
      FirstMatchAppend(before, d, p);
    }
  }

  lemma PrefixKeepsMembers<T>(a: seq<T>, b: seq<T>)
    requires a <= b
    ensures forall x :: x in a ==> x in b
  {
    assert forall j :: 0 <= j < |a| ==> a[j] == b[j];
  }

  /** What nothing in a sequence matches, nothing in a prefix of it matches. */
  lemma AbsentFromPrefix<T>(a: seq<Doc<T>>, b: seq<Doc<T>>, p: T -> bool)
    requires a <= b && !Exists(b, p)
    ensures !Exists(a, p)
  {
    assert forall j :: 0 <= j < |a| ==> a[j] == b[j];
  }

  /** Every seed title is the title of a stored project. */
  ghost predicate ProjectsPresent(projects: seq<Doc<Project>>)
  {
    forall k :: 0 <= k < 3 ==> Exists(projects, KeyIs(ProjectTitle, SeedTitles[k]))
  }

  /** Step 1 took the users from `before` to `after`: the administrator is there, created only when missing. */
  ghost predicate AdminSeeded(before: seq<Doc<User>>, after: seq<Doc<User>>, hash: string -> string)
  {
    && Exists(after, HasEmail(AdminEmail))
    && (Exists(before, HasEmail(AdminEmail)) ==> after == before)
    && (!Exists(before, HasEmail(AdminEmail)) ==>
          |after| == |before| + 1 && after[..|before|] == before && after[|before|].data == AdminUser(hash))
  }

  /**
   * Steps 2 and 3 took a collection from `before` to `after`: every item's
   * key is there, nothing stored was changed, each added document is an item
   * whose key was missing, no key was added twice, and nothing was added
   * when all keys were present.
   */
  ghost predicate ItemsSeeded<T>(before: seq<Doc<T>>, after: seq<Doc<T>>, items: seq<T>, key: T -> string)
  {
    Grown(before, after, items, key) && AllPresent(after, items, key)
  }

  /**
   * `after` extends `before` with items whose keys were missing, no key
   * twice, and equals it when every key was already present.
   */
  ghost predicate Grown<T>(before: seq<Doc<T>>, after: seq<Doc<T>>, items: seq<T>, key: T -> string)
  {
    && before <= after
    && (forall j :: |before| <= j < |after| ==> CreatedFrom(before, items, key, after[j].data))
    && AddedDistinct(before, after, key)
    && (AllPresent(before, items, key) ==> after == before)
  }

  /** The data of a sequence of documents, in order. */
  function DataOf<T>(docs: seq<Doc<T>>): (r: seq<T>)
    ensures |r| == |docs|
  {
    if docs == [] then [] else [docs[0].data] + DataOf(docs[1..])
  }

  /** Steps 4 and 5: a collection that had documents is untouched, an empty one receives exactly `items`. */
  ghost predicate FilledIfEmpty<T>(before: seq<Doc<T>>, after: seq<Doc<T>>, items: seq<T>)
  {
    && (|before| > 0 ==> after == before)
    && (|before| == 0 ==> DataOf(after) == items)
  }

  /** `id` is the id of a stored document whose key is `k`. */
  ghost predicate IdHas<T>(docs: seq<Doc<T>>, id: nat, key: T -> string, k: string)
  {
    exists d :: d in docs && d.id == id && key(d.data) == k
  }

  function UserEmail(u: User): string
  {
    u.email
  }

  /**
   * The references steps 3 to 5 use: `admin` is the administrator's id,
   * `clientIds[k]` the id of the k-th seed client and `projectIds[k]` that of
   * the k-th seed project, each the first document found by its key, as
   * `findOne` returns it.
   */
  ghost predicate Refs(users: seq<Doc<User>>, clients: seq<Doc<Client>>, projects: seq<Doc<Project>>,
                       admin: nat, clientIds: seq<nat>, projectIds: seq<nat>)
  {
    && IdHas(users, admin, UserEmail, AdminEmail)
    && |clientIds| == 3 && (forall k :: 0 <= k < 3 ==> IdFirst(clients, clientIds[k], ClientEmail, ClientEmail(SeedClients[k])))
    && |projectIds| == 3 && (forall k :: 0 <= k < 3 ==> IdFirst(projects, projectIds[k], ProjectTitle, SeedTitles[k]))
  }

  /**
   * What the loop found is the first stored document under each item's key:
   * every key is present, and the collected ids are those of the first matches.
   */
  lemma FoundHaveIds<T>(docs: seq<Doc<T>>, found: seq<Doc<T>>, items: seq<T>, key: T -> string)
    requires |found| == |items|
    requires forall k :: 0 <= k < |items| ==> FirstIs(docs, key, key(items[k]), found[k])
    ensures AllPresent(docs, items, key)
    ensures forall k :: 0 <= k < |items| ==> IdFirst(docs, IdsOf(found)[k], key, key(items[k]))
  {
    forall k | 0 <= k < |items| ensures Exists(docs, KeyIs(key, key(items[k]))) {
      var j := FirstMatch(docs, KeyIs(key, key(items[k]))).value;
      assert KeyIs(key, key(items[k]))(docs[j].data);
    }
  }

  /** Step 1: the administrator, found by email, created with the hashed default password when missing. */
  method SeedAdmin(users: Collection<User>, hash: string -> string, now: Time) returns (admin: Doc<User>)
    requires users.Valid() && ValidUsers(users.docs)
    modifies users
    ensures users.Valid() && ValidUsers(users.docs) && AdminSeeded(old(users.docs), users.docs, hash)
    ensures admin in users.docs && admin.data.email == AdminEmail
    ensures IdHas(users.docs, admin.id, UserEmail, AdminEmail)
  {
    admin := users.FindOrCreate(HasEmail(AdminEmail), AdminUser(hash), now);
    var n := |users.docs| - 1;
    assert users.docs[n] == admin ==> forall j :: 0 <= j < n ==> users.docs[j].data.email != AdminEmail;
    assert users.docs[..|old(users.docs)|] == old(users.docs);
    assert UserEmail(admin.data) == AdminEmail;
  }

  /** Step 2: the seed clients, found by email; what is created is a seed client, so valid. */
  method SeedClientsOnce(clients: Collection<Client>, now: Time) returns (ids: seq<nat>)
    requires clients.Valid() && AllClientsValid(clients.docs)
    modifies clients
    ensures clients.Valid() && AllClientsValid(clients.docs) && |ids| == 3
    ensures |clients.docs| <= |old(clients.docs)| + 3
    ensures ItemsSeeded(old(clients.docs), clients.docs, SeedClients, ClientEmail)
    ensures forall k :: 0 <= k < 3 ==> IdFirst(clients.docs, ids[k], ClientEmail, ClientEmail(SeedClients[k]))
  {
    ids := FindOrCreateAll(clients, SeedClients, ClientEmail, now);
    SeedClientsValid(old(clients.docs), clients.docs);
  }

  /** Adding only seed clients keeps every stored client valid: each seed client has a name and a phone. */
  lemma SeedClientsValid(before: seq<Doc<Client>>, after: seq<Doc<Client>>)
    requires AllClientsValid(before) && before <= after
    requires forall j :: |before| <= j < |after| ==> CreatedFrom(before, SeedClients, ClientEmail, after[j].data)
    ensures AllClientsValid(after)
  {
    forall j | 0 <= j < |after| ensures ClientValid(after[j].data) {
      if j >= |before| {
        assert CreatedFrom(before, SeedClients, ClientEmail, after[j].data);
      } else {
        assert after[j] == before[j];
      }
    }
  }

  /** Step 3: the seed projects, for the seeded clients, found by title. */
  method SeedProjectsOnce(projects: Collection<Project>, clientIds: seq<nat>, admin: nat, now: Time)
    returns (ids: seq<nat>)
    requires projects.Valid() && |clientIds| == 3
    modifies projects
    ensures projects.Valid() && |ids| == 3
    ensures |projects.docs| <= |old(projects.docs)| + 3
    ensures ItemsSeeded(old(projects.docs), projects.docs, SeedProjects(clientIds, admin, now), ProjectTitle)
    ensures forall k :: 0 <= k < 3 ==> IdFirst(projects.docs, ids[k], ProjectTitle, SeedTitles[k])
  {
    var seedProjects := SeedProjects(clientIds, admin, now);
    ids := FindOrCreateAll(projects, seedProjects, ProjectTitle, now);
    assert forall k :: 0 <= k < 3 ==> ProjectTitle(seedProjects[k]) == SeedTitles[k];
  }

  /** Steps 4 and 5 took the tasks and transactions from the `0` to the `1` state, for these ids. */
  ghost predicate LedgersSeeded(t0: seq<Doc<Task>>, t1: seq<Doc<Task>>, x0: seq<Doc<Transaction>>,
                                x1: seq<Doc<Transaction>>, p0: nat, p1: nat, c0: nat, admin: nat, now: Time)
  {
    && FilledIfEmpty(t0, t1, SeedTasks(p0, p1, admin, now))
    && FilledIfEmpty(x0, x1, SeedTransactions(p0, c0, admin, now))
  }

  /** Steps 4 and 5: the two seed tasks and the two seed transactions, each pair only into an empty collection. */
  method SeedLedgers(tasks: Collection<Task>, transactions: Collection<Transaction>,
                     p0: nat, p1: nat, c0: nat, admin: nat, now: Time)
    requires tasks.Valid() && transactions.Valid()
    modifies tasks, transactions
    ensures tasks.Valid() && transactions.Valid()
    ensures LedgersSeeded(old(tasks.docs), tasks.docs, old(transactions.docs), transactions.docs, p0, p1, c0, admin, now)
  {
    if |tasks.docs| == 0 {
      var ts := SeedTasks(p0, p1, admin, now);
      var t0 := tasks.Create(ts[0], now);
      var t1 := tasks.Create(ts[1], now);
      assert tasks.docs == [t0, t1];
      assert DataOf(tasks.docs) == [ts[0], ts[1]];
    }
    if |transactions.docs| == 0 {
      var xs := SeedTransactions(p0, c0, admin, now);
      var x0 := transactions.Create(xs[0], now);
      var x1 := transactions.Create(xs[1], now);
      assert transactions.docs == [x0, x1];
      assert DataOf(transactions.docs) == [xs[0], xs[1]];
    }
  }

  /** The counts the reply reports. */
  datatype Stats = Stats(users: nat, clients: nat, projects: nat, tasks: nat, transactions: nat)

  /** What a seed run leaves behind: the administrator, every seed client and project, tasks and transactions. */
  ghost predicate Seeded(users: seq<Doc<User>>, clients: seq<Doc<Client>>, projects: seq<Doc<Project>>,
                         tasks: seq<Doc<Task>>, transactions: seq<Doc<Transaction>>)
  {
    && Exists(users, HasEmail(AdminEmail))
    && AllPresent(clients, SeedClients, ClientEmail)
    && ProjectsPresent(projects)
    && |tasks| > 0 && |transactions| > 0
  }

  /** The seed projects' titles are the seed titles, so their presence is `ProjectsPresent`. */
  lemma SeedProjectsPresent(projects: seq<Doc<Project>>, clientIds: seq<nat>, admin: nat, now: Time)
    requires |clientIds| == 3
    ensures AllPresent(projects, SeedProjects(clientIds, admin, now), ProjectTitle) <==> ProjectsPresent(projects)
  {
    var ps := SeedProjects(clientIds, admin, now);
    forall k | 0 <= k < 3 ensures KeyIs(ProjectTitle, ProjectTitle(ps[k])) == KeyIs(ProjectTitle, SeedTitles[k]) {
      assert ProjectTitle(ps[k]) == SeedTitles[k];
    }
  }

  /** Steps 3 to 5 created the seed documents for the ids the earlier steps found. */
  lemma StepsCreate(u1: seq<Doc<User>>, c1: seq<Doc<Client>>, p0: seq<Doc<Project>>, p1: seq<Doc<Project>>,
                    t0: seq<Doc<Task>>, t1: seq<Doc<Task>>, x0: seq<Doc<Transaction>>, x1: seq<Doc<Transaction>>,
                    clientIds: seq<nat>, projectIds: seq<nat>, admin: nat, now: Time)
    requires Refs(u1, c1, p1, admin, clientIds, projectIds)
    requires ItemsSeeded(p0, p1, SeedProjects(clientIds, admin, now), ProjectTitle)
    requires FilledIfEmpty(t0, t1, SeedTasks(projectIds[0], projectIds[1], admin, now))
    requires FilledIfEmpty(x0, x1, SeedTransactions(projectIds[0], clientIds[0], admin, now))
    ensures exists admin, clientIds, projectIds :: CreatedForRefs(c1, p0, p1, t0, t1, x0, x1, u1, now, admin, clientIds, projectIds)
  {
    assert CreatedForRefs(c1, p0, p1, t0, t1, x0, x1, u1, now, admin, clientIds, projectIds);
  }

  /** After the five steps the database is seeded. */
  lemma StepsLeaveSeeded(u0: seq<Doc<User>>, u1: seq<Doc<User>>, c0: seq<Doc<Client>>, c1: seq<Doc<Client>>,
                         p0: seq<Doc<Project>>, p1: seq<Doc<Project>>, t0: seq<Doc<Task>>, t1: seq<Doc<Task>>,
                         x0: seq<Doc<Transaction>>, x1: seq<Doc<Transaction>>, hash: string -> string,
                         ps: seq<Project>, ts: seq<Task>, xs: seq<Transaction>)
    requires AdminSeeded(u0, u1, hash) && ItemsSeeded(c0, c1, SeedClients, ClientEmail)
    requires ItemsSeeded(p0, p1, ps, ProjectTitle) && (AllPresent(p1, ps, ProjectTitle) ==> ProjectsPresent(p1))
    requires |ts| > 0 && FilledIfEmpty(t0, t1, ts) && |xs| > 0 && FilledIfEmpty(x0, x1, xs)
    ensures Seeded(u1, c1, p1, t1, x1)
  {
  }

  /** A database that was already seeded is left exactly as it was. */
  lemma StepsKeepSeeded(u0: seq<Doc<User>>, u1: seq<Doc<User>>, c0: seq<Doc<Client>>, c1: seq<Doc<Client>>,
                        p0: seq<Doc<Project>>, p1: seq<Doc<Project>>, t0: seq<Doc<Task>>, t1: seq<Doc<Task>>,
                        x0: seq<Doc<Transaction>>, x1: seq<Doc<Transaction>>, hash: string -> string,
                        ps: seq<Project>, ts: seq<Task>, xs: seq<Transaction>)
    requires AdminSeeded(u0, u1, hash) && ItemsSeeded(c0, c1, SeedClients, ClientEmail)
    requires ItemsSeeded(p0, p1, ps, ProjectTitle) && (ProjectsPresent(p0) ==> AllPresent(p0, ps, ProjectTitle))
    requires FilledIfEmpty(t0, t1, ts) && FilledIfEmpty(x0, x1, xs)
    ensures Seeded(u0, c0, p0, t0, x0) ==> u1 == u0 && c1 == c0 && p1 == p0 && t1 == t0 && x1 == x0
  {
  }

  /**
   * The five steps together leave the database seeded, and a database that
   * was already seeded is left exactly as it was: the seed is idempotent.
   */
  lemma StepsSeed(u0: seq<Doc<User>>, u1: seq<Doc<User>>, c0: seq<Doc<Client>>, c1: seq<Doc<Client>>,
                  p0: seq<Doc<Project>>, p1: seq<Doc<Project>>, t0: seq<Doc<Task>>, t1: seq<Doc<Task>>,
                  x0: seq<Doc<Transaction>>, x1: seq<Doc<Transaction>>, hash: string -> string,
                  clientIds: seq<nat>, projectIds: seq<nat>, admin: nat, now: Time)
    requires DirectorySeeded(u0, u1, c0, c1, p0, p1, hash, now, admin, clientIds, projectIds)
    requires LedgersSeeded(t0, t1, x0, x1, projectIds[0], projectIds[1], clientIds[0], admin, now)
    ensures SeedRun(u0, u1, c0, c1, p0, p1, t0, t1, x0, x1, hash, now)
  {
    var ps := SeedProjects(clientIds, admin, now);
    var ts := SeedTasks(projectIds[0], projectIds[1], admin, now);
    var xs := SeedTransactions(projectIds[0], clientIds[0], admin, now);
    SeedProjectsPresent(p0, clientIds, admin, now);
    SeedProjectsPresent(p1, clientIds, admin, now);
    StepsCreate(u1, c1, p0, p1, t0, t1, x0, x1, clientIds, projectIds, admin, now);
    StepsLeaveSeeded(u0, u1, c0, c1, p0, p1, t0, t1, x0, x1, hash, ps, ts, xs);
    StepsKeepSeeded(u0, u1, c0, c1, p0, p1, t0, t1, x0, x1, hash, ps, ts, xs);
  }

  /** Steps 1 to 3 took the users, clients and projects from the `0` to the `1` state and found these ids. */
  ghost predicate DirectorySeeded(u0: seq<Doc<User>>, u1: seq<Doc<User>>, c0: seq<Doc<Client>>, c1: seq<Doc<Client>>,
                                  p0: seq<Doc<Project>>, p1: seq<Doc<Project>>, hash: string -> string, now: Time,
                                  admin: nat, clientIds: seq<nat>, projectIds: seq<nat>)
  {
    && AdminSeeded(u0, u1, hash)
    && ItemsSeeded(c0, c1, SeedClients, ClientEmail)
    && Refs(u1, c1, p1, admin, clientIds, projectIds)
    && ItemsSeeded(p0, p1, SeedProjects(clientIds, admin, now), ProjectTitle)
  }

  /**
   * Steps 1 to 3: the administrator, the clients and the projects; returns
   * the ids steps 4 and 5 refer to.
   */
  method SeedDirectory(users: Collection<User>, clients: Collection<Client>, projects: Collection<Project>,
                       hash: string -> string, now: Time)
    returns (admin: nat, clientIds: seq<nat>, projectIds: seq<nat>)
    requires users.Valid() && clients.Valid() && projects.Valid()
    requires ValidUsers(users.docs) && AllClientsValid(clients.docs)
    modifies users, clients, projects
    ensures users.Valid() && clients.Valid() && projects.Valid()
    ensures ValidUsers(users.docs) && AllClientsValid(clients.docs)
    ensures DirectorySeeded(old(users.docs), users.docs, old(clients.docs), clients.docs, old(projects.docs),
                            projects.docs, hash, now, admin, clientIds, projectIds)
  {
    var a := SeedAdmin(users, hash, now);
    admin := a.id;
    clientIds := SeedClientsOnce(clients, now);
    projectIds := SeedProjectsOnce(projects, clientIds, admin, now);
  }

  /**
   * What one run created from the ids it found: the seed projects for the
   * found clients, and, in an empty collection, the seed tasks for the found
   * projects and the seed transactions for the found project and client.
   */
  ghost predicate CreatedForRefs(clients: seq<Doc<Client>>, p0: seq<Doc<Project>>, p1: seq<Doc<Project>>,
                                 t0: seq<Doc<Task>>, t1: seq<Doc<Task>>,
                                 x0: seq<Doc<Transaction>>, x1: seq<Doc<Transaction>>, users: seq<Doc<User>>,
                                 now: Time, admin: nat, clientIds: seq<nat>, projectIds: seq<nat>)
  {
    && Refs(users, clients, p1, admin, clientIds, projectIds)
    && ItemsSeeded(p0, p1, SeedProjects(clientIds, admin, now), ProjectTitle)
    && FilledIfEmpty(t0, t1, SeedTasks(projectIds[0], projectIds[1], admin, now))
    && FilledIfEmpty(x0, x1, SeedTransactions(projectIds[0], clientIds[0], admin, now))
  }

  /**
   * What a seed run does to the five collections: the administrator and the
   * seed clients are seeded, the projects, tasks and transactions created
   * are the seed documents for the ids found, the store is seeded
   * afterwards, and a store that was already seeded is left as it was.
   */
  ghost predicate SeedRun(u0: seq<Doc<User>>, u1: seq<Doc<User>>, c0: seq<Doc<Client>>, c1: seq<Doc<Client>>,
                          p0: seq<Doc<Project>>, p1: seq<Doc<Project>>, t0: seq<Doc<Task>>, t1: seq<Doc<Task>>,
                          x0: seq<Doc<Transaction>>, x1: seq<Doc<Transaction>>, hash: string -> string, now: Time)
  {
    && AdminSeeded(u0, u1, hash)
    && ItemsSeeded(c0, c1, SeedClients, ClientEmail)
    && (exists admin, clientIds, projectIds :: CreatedForRefs(c1, p0, p1, t0, t1, x0, x1, u1, now, admin, clientIds, projectIds))
    && Seeded(u1, c1, p1, t1, x1)
    && (Seeded(u0, c0, p0, t0, x0) ==> u1 == u0 && c1 == c0 && p1 == p0 && t1 == t0 && x1 == x0)
  }

  /** The `GET` handler; the reply counts the seed clients and projects and the stored tasks and transactions. */
  method Run(users: Collection<User>, clients: Collection<Client>, projects: Collection<Project>,
             tasks: Collection<Task>, transactions: Collection<Transaction>, hash: string -> string, now: Time)
    returns (stats: Stats)
    requires users.Valid() && clients.Valid() && projects.Valid() && tasks.Valid() && transactions.Valid()
    requires ValidUsers(users.docs) && AllClientsValid(clients.docs)
    modifies users, clients, projects, tasks, transactions
    ensures users.Valid() && clients.Valid() && projects.Valid() && tasks.Valid() && transactions.Valid()
    ensures ValidUsers(users.docs) && AllClientsValid(clients.docs)
    ensures SeedRun(old(users.docs), users.docs, old(clients.docs), clients.docs, old(projects.docs), projects.docs,
                    old(tasks.docs), tasks.docs, old(transactions.docs), transactions.docs, hash, now)
    ensures stats == Stats(1, 3, 3, |tasks.docs|, |transactions.docs|)
  {
    ghost var u0, c0, p0, t0, x0 := users.docs, clients.docs, projects.docs, tasks.docs, transactions.docs;
    var admin, clientIds, projectIds := SeedDirectory(users, clients, projects, hash, now);
    ghost var u1, c1, p1 := users.docs, clients.docs, projects.docs;
    SeedLedgers(tasks, transactions, projectIds[0], projectIds[1], clientIds[0], admin, now);
    StepsSeed(u0, u1, c0, c1, p0, p1, t0, tasks.docs, x0, transactions.docs, hash, clientIds, projectIds, admin, now);
    stats := Stats(1, |SeedClients|, |SeedTitles|, |tasks.docs|, |transactions.docs|);
  }

  /** Seeding twice: the second run creates nothing and reports the same counts. */
  method RunTwice(users: Collection<User>, clients: Collection<Client>, projects: Collection<Project>,
                  tasks: Collection<Task>, transactions: Collection<Transaction>, hash: string -> string,
                  now1: Time, now2: Time)
    returns (first: Stats, second: Stats)
    requires users.Valid() && clients.Valid() && projects.Valid() && tasks.Valid() && transactions.Valid()
    requires ValidUsers(users.docs) && AllClientsValid(clients.docs)
    modifies users, clients, projects, tasks, transactions
    ensures first == second
  {
    first := Run(users, clients, projects, tasks, transactions, hash, now1);
    ghost var u, c, p, t, x := users.docs, clients.docs, projects.docs, tasks.docs, transactions.docs;
    second := Run(users, clients, projects, tasks, transactions, hash, now2);
    assert users.docs == u && clients.docs == c && projects.docs == p && tasks.docs == t && transactions.docs == x;
  }
}
