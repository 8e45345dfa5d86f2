/**
 * The attendance record (models/Attendance.ts): the user, the day, the
 * check-in and optional check-out instants, a status from a fixed set with
 * `present` as default and optional notes. A compound unique index allows
 * one record per user and day.
 */
module AttendanceModel {
  import opened Common
  import opened Clock
  import opened Store

  datatype Status = Present | Absent | Late | Excused

  /** The status a record gets when none is given. */
  const DefaultStatus: Status := Present

  /**
   * `date` holds the day key `YYYY-MM-DD` the handler writes; the database
   * stores it as the UTC midnight that starts that day, a one-to-one
   * encoding, so comparing keys is comparing stored dates.
   */
  datatype Record = Record(
    user: nat,
    date: string,
    checkIn: Time,
    checkOut: Option<Time>,
    status: Status,
    notes: Option<string>)

  /** The unique index on (user, date): no two records share both. */
  ghost predicate OnePerDay(docs: seq<Doc<Record>>)
  {
    forall i, j :: 0 <= i < j < |docs| ==>
      docs[i].data.user != docs[j].data.user || docs[i].data.date != docs[j].data.date
  }

  /** The filter `{ user, date }`. */
  function OnDay(user: nat, date: string): Record -> bool
  {
    (r: Record) => r.user == user && r.date == date
  }

  /** Under the unique index a (user, date) pair finds at most one record. */
  lemma OnePerDayAtMostOne(docs: seq<Doc<Record>>, i: nat, j: nat)
    requires OnePerDay(docs) && i < |docs| && j < |docs|
    requires docs[i].data.user == docs[j].data.user && docs[i].data.date == docs[j].data.date
    ensures i == j
  {
  }
}
