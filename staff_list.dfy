/** `GET /api/admin/staff` (`src/app/api/admin/staff/route.ts`): the active
    staff members, by name, without the caller. The query result (active rows,
    ordered by name) is an input. */
module StaffList {
  import opened Base
  import opened Model

  /** The query's `select`. */
  datatype StaffRow = StaffRow(id: string, username: string, name: string, role: string)

  datatype StaffListResponse = NotAuthenticated | StaffRows(staff: seq<StaffRow>)

  function Row(s: Staff): StaffRow {
    StaffRow(s.id, s.username, s.name, s.role)
  }

  /** The query's `orderBy: { name: 'asc' }`. */
  predicate NameOrder(a: StaffRow, b: StaffRow) {
    LexLe(a.name, b.name)
  }

  function NotCaller(staffId: string): StaffRow -> bool {
    (s: StaffRow) => s.id != staffId
  }

  /** The route's `filter`. */
  function Others(rows: seq<StaffRow>, staffId: string): (r: seq<StaffRow>)
    ensures forall i :: 0 <= i < |r| ==> r[i].id != staffId
    ensures forall i :: 0 <= i < |r| ==> r[i] in rows
    ensures forall i :: 0 <= i < |rows| && rows[i].id != staffId ==> rows[i] in r
  {
    Filter(rows, NotCaller(staffId))
  }

  /** The handler, given the active staff the query returned. */
  function Get(session: Option<AdminSession>, staff: seq<Staff>): (r: StaffListResponse)
    requires forall i :: 0 <= i < |staff| ==> staff[i].active
    ensures r.NotAuthenticated? <==> session.None?
    ensures r.StaffRows? ==> forall i :: 0 <= i < |r.staff| ==>
      r.staff[i].id != session.value.staffId &&
      exists j :: 0 <= j < |staff| && staff[j].active && Row(staff[j]) == r.staff[i]
    ensures r.StaffRows? ==> forall j :: 0 <= j < |staff| && staff[j].id != session.value.staffId ==>
      Row(staff[j]) in r.staff
  {
    if session.None? then NotAuthenticated
    else
      var rows := Map(staff, Row);
      var r := Others(rows, session.value.staffId);
      assert forall i :: 0 <= i < |r| ==> exists j :: 0 <= j < |staff| && staff[j].active && Row(staff[j]) == r[i] by {
        forall i | 0 <= i < |r|
          ensures exists j :: 0 <= j < |staff| && staff[j].active && Row(staff[j]) == r[i]
        {
          var j :| 0 <= j < |rows| && rows[j] == r[i];
          assert Row(staff[j]) == r[i];
        }
      }
      StaffRows(r)
  }

  /** The name order of the query is kept. */
  lemma OthersKeepNameOrder(rows: seq<StaffRow>, staffId: string)
    requires SortedBy(rows, NameOrder)
    ensures SortedBy(Others(rows, staffId), NameOrder)
  {
    FilterKeepsSorted(rows, NotCaller(staffId), NameOrder);
  }

  predicate UniqueIds(rows: seq<StaffRow>) {
    forall i, j :: 0 <= i < j < |rows| ==> rows[i].id != rows[j].id
  }

  lemma {:induction false} AtMostOneCaller(rows: seq<StaffRow>, staffId: string)
    requires UniqueIds(rows)
    ensures CountNot(rows, NotCaller(staffId)) <= 1
  {
    if rows != [] {
      var rest := rows[1..];
      assert UniqueIds(rest) by {
        forall i, j | 0 <= i < j < |rest| ensures rest[i].id != rest[j].id {
          assert rest[i] == rows[i + 1] && rest[j] == rows[j + 1];
        }
      }
      AtMostOneCaller(rest, staffId);
      if rows[0].id == staffId {
        NoCaller(rest, staffId);
      }
    }
  }

  lemma {:induction false} NoCaller(rows: seq<StaffRow>, staffId: string)
    requires forall i :: 0 <= i < |rows| ==> rows[i].id != staffId
    ensures CountNot(rows, NotCaller(staffId)) == 0
  {
    if rows != [] {
      NoCaller(rows[1..], staffId);
    }
  }

  /** With unique ids, the caller's removal drops at most one row. */
  lemma OthersDropAtMostOne(rows: seq<StaffRow>, staffId: string)
    requires UniqueIds(rows)
    ensures |rows| - 1 <= |Others(rows, staffId)| <= |rows|
  {
    FilterLength(rows, NotCaller(staffId));
    AtMostOneCaller(rows, staffId);
  }
}
