/**
 * The attendance endpoint (app/api/attendance/route.ts). POST checks a user
 * in or out for today, where today is the UTC day key of the current
 * instant; GET lists one day's records by check-in time.
 */
module AttendanceApi {
  import opened Common
  import opened Clock
  import opened Store
  import opened Sorting
  import opened UserModel
  import opened AttendanceModel

  predicate HasRecord(docs: seq<Doc<Record>>, user: nat, date: string)
  {
    Exists(docs, OnDay(user, date))
  }

  /** The record a check-in creates: today's key, checked in now, not yet checked out, present. */
  function CheckInRecord(user: nat, today: string, now: Time): (rec: Record)
    ensures rec.user == user && rec.date == today && rec.checkIn == now
    ensures rec.checkOut.None? && rec.status == DefaultStatus && rec.notes.None?
  {
    Record(user, today, now, None, Present, None)
  }

  /** Check-in: refused when the user already has a record for today, otherwise exactly one new record. */
  method CheckIn(ledger: Collection<Record>, user: nat, today: string, now: Time) returns (r: Reply<Doc<Record>>)
    requires ledger.Valid() && OnePerDay(ledger.docs)
    modifies ledger
    ensures ledger.Valid() && OnePerDay(ledger.docs)
    ensures HasRecord(old(ledger.docs), user, today) ==>
      r == Err(400, "Already checked in today") && ledger.docs == old(ledger.docs)
    ensures !HasRecord(old(ledger.docs), user, today) ==>
      && r.Ok? && r.status == 201
      && r.value.data == CheckInRecord(user, today, now)
      && r.value.id !in Ids(old(ledger.docs))
      && ledger.docs == old(ledger.docs) + [r.value]
  {
    var existing := ledger.Find(OnDay(user, today));
    if existing.Some? {
      return Err(400, "Already checked in today");
    }
    var d := ledger.Create(CheckInRecord(user, today, now), now);
    r := Ok(201, d);
  }

  /**
   * Check-out: needs the user's record for today and sets its checkOut to
   * now; user, date, checkIn and status stay. A second check-out simply
   * overwrites checkOut again.
   */
  method CheckOut(ledger: Collection<Record>, user: nat, today: string, now: Time) returns (r: Reply<Doc<Record>>)
    requires ledger.Valid() && OnePerDay(ledger.docs)
    modifies ledger
    ensures ledger.Valid() && OnePerDay(ledger.docs)
    ensures !HasRecord(old(ledger.docs), user, today) ==>
      r == Err(404, "No check-in record found for today") && ledger.docs == old(ledger.docs)
    ensures HasRecord(old(ledger.docs), user, today) ==>
      exists i :: 0 <= i < |old(ledger.docs)| && OnDay(user, today)(old(ledger.docs)[i].data)
        && r == Ok(200, old(ledger.docs)[i].(data := old(ledger.docs)[i].data.(checkOut := Some(now))))
        && ledger.docs == old(ledger.docs)[i := r.value]
  {
    var found := ledger.Find(OnDay(user, today));
    if found.None? {
      return Err(404, "No check-in record found for today");
    }
    var i := found.value;
    var rec := ledger.docs[i].data;
    var d := ledger.Save(i, rec.(checkOut := Some(now)));
    r := Ok(200, d);
  }

  /** Whose attendance a POST records: the given userId, else the first stored user (`User.findOne()`). */
  function Target(userId: Option<nat>, firstUser: Option<nat>): Option<nat>
  {
    if userId.Some? then userId else firstUser
  }

  /**
   * POST: `today` is the UTC day key of `now`. With no userId and no stored
   * user the filter `{ user: undefined }` matches nothing, so a check-in
   * fails schema validation (500) and a check-out finds no record (404).
   */
  method Post(ledger: Collection<Record>, users: Collection<User>, action: string, userId: Option<nat>, now: Time)
    returns (r: Reply<Doc<Record>>)
    requires ledger.Valid() && OnePerDay(ledger.docs)
    modifies ledger
    ensures ledger.Valid() && OnePerDay(ledger.docs)
    ensures action != "check-in" && action != "check-out" ==>
      r == Err(400, "Invalid action") && ledger.docs == old(ledger.docs)
    ensures r.Err? ==> ledger.docs == old(ledger.docs)
    ensures Target(userId, users.FirstId()).None? && action == "check-in" ==>
      r == Err(500, "Failed to process attendance")
    ensures Target(userId, users.FirstId()).None? && action == "check-out" ==>
      r == Err(404, "No check-in record found for today")
    ensures var today := DayKey(now); var target := Target(userId, users.FirstId());
      action == "check-in" && target.Some? && HasRecord(old(ledger.docs), target.value, today) ==>
        r == Err(400, "Already checked in today")
    ensures var today := DayKey(now); var target := Target(userId, users.FirstId());
      action == "check-in" && target.Some? && !HasRecord(old(ledger.docs), target.value, today) ==>
        && r.Ok? && r.status == 201 && r.value.data == CheckInRecord(target.value, today, now)
        && ledger.docs == old(ledger.docs) + [r.value]
    ensures var today := DayKey(now); var target := Target(userId, users.FirstId());
      action == "check-out" && target.Some? && !HasRecord(old(ledger.docs), target.value, today) ==>
        r == Err(404, "No check-in record found for today")
    ensures var today := DayKey(now); var target := Target(userId, users.FirstId());
      action == "check-out" && target.Some? && HasRecord(old(ledger.docs), target.value, today) ==>
        exists i :: && 0 <= i < |old(ledger.docs)| && OnDay(target.value, today)(old(ledger.docs)[i].data)
          && r == Ok(200, old(ledger.docs)[i].(data := old(ledger.docs)[i].data.(checkOut := Some(now))))
          && ledger.docs == old(ledger.docs)[i := r.value]
  {
    var target := Target(userId, users.FirstId());
    var today := DayKey(now);
    if action == "check-in" {
      if target.None? {
        return Err(500, "Failed to process attendance");
      }
      r := CheckIn(ledger, target.value, today, now);
    } else if action == "check-out" {
      if target.None? {
        return Err(404, "No check-in record found for today");
      }
      r := CheckOut(ledger, target.value, today, now);
    } else {
      r := Err(400, "Invalid action");
    }
  }

  /** GET: the records of the requested day (today's key when none is given), by check-in time. */
  function List(docs: seq<Doc<Record>>, dateParam: string, now: Time): (r: seq<Doc<Record>>)
    ensures var date := if dateParam != "" then dateParam else DayKey(now);
      forall d :: multiset(r)[d] == (if d.data.date == date then multiset(docs)[d] else 0)
    ensures SortedBy(r, ByCheckIn)
  {
    var date := if dateParam != "" then dateParam else DayKey(now);
    SortBySorted(OfDay(docs, date), ByCheckIn);
    SortBy(OfDay(docs, date), ByCheckIn)
  }

  /** The sort key `{ checkIn: 1 }`. */
  function ByCheckIn(d: Doc<Record>): int
  {
    d.data.checkIn
  }

  /** `find({ date })`: every record of that day, as many times as it is stored, and nothing else. */
  function OfDay(docs: seq<Doc<Record>>, date: string): (r: seq<Doc<Record>>)
    ensures forall d :: multiset(r)[d] == (if d.data.date == date then multiset(docs)[d] else 0)
    ensures forall d :: d in r <==> d in docs && d.data.date == date
  {
    if docs == [] then []
    else
      assert docs == [docs[0]] + docs[1..];
      (if docs[0].data.date == date then [docs[0]] else []) + OfDay(docs[1..], date)
  }

  /** GET returns exactly the requested day's records, each once, ordered by check-in. */
  lemma ListIsDayByCheckIn(docs: seq<Doc<Record>>, dateParam: string, now: Time)
    ensures var date := if dateParam != "" then dateParam else DayKey(now);
      && multiset(List(docs, dateParam, now)) == multiset(OfDay(docs, date))
      && (forall d :: d in List(docs, dateParam, now) <==> d in docs && d.data.date == date)
      && SortedBy(List(docs, dateParam, now), ByCheckIn)
  {
    var date := if dateParam != "" then dateParam else DayKey(now);
    SortBySorted(OfDay(docs, date), ByCheckIn);
    var r := List(docs, dateParam, now);
    forall d ensures d in r <==> d in OfDay(docs, date) {
      assert d in r <==> d in multiset(r);
    }
  }

  /**
   * A day at the office: check in in the morning, check out in the evening
   * of the same UTC day, try to check in again. The record is created once,
   * completed by the check-out, and the second check-in is refused.
   */
  method WorkingDay(ledger: Collection<Record>, users: Collection<User>, user: nat, morning: Time, evening: Time)
    requires ledger.Valid() && OnePerDay(ledger.docs)
    requires !HasRecord(ledger.docs, user, DayKey(morning))
    requires morning <= evening && UtcDay(morning) == UtcDay(evening)
    modifies ledger
    ensures |ledger.docs| == |old(ledger.docs)| + 1
    ensures ledger.docs[..|old(ledger.docs)|] == old(ledger.docs)
    ensures ledger.docs[|old(ledger.docs)|].data == CheckInRecord(user, DayKey(morning), morning).(checkOut := Some(evening))
  {
    var today := DayKey(morning);
    assert DayKey(evening) == today by { SameUtcDaySameKey(morning, evening); }
    var n := |ledger.docs|;
    var first := Post(ledger, users, "check-in", Some(user), morning);
    assert ledger.docs[n].data == CheckInRecord(user, today, morning);
    assert OnDay(user, today)(ledger.docs[n].data);
    var out := Post(ledger, users, "check-out", Some(user), evening);
    var i :| 0 <= i < n + 1 && OnDay(user, today)(ledger.docs[i].data) && ledger.docs[i].data.checkOut == Some(evening);
    OnePerDayAtMostOne(ledger.docs, i, n);
    assert OnDay(user, today)(ledger.docs[n].data);
    var second := Post(ledger, users, "check-in", Some(user), evening);
    assert second == Err(400, "Already checked in today");
  }
}
