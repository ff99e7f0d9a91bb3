/**
  The location ledger of backend/eurorace/models.py: the table of location
  reports, which in this model only grows by the websocket handler's writes, and
  the manager query that returns, for every user, the
  reports carrying that user's greatest timestamp.

  The query is stated as the SQL the ORM builds from it: an outer filter over
  all rows whose condition is a correlated subquery over the rows of the same
  user. Rows are kept in ledger order.
*/
module Ledger {

  datatype Option<T> = None | Some(value: T)

  /** Identifier of the reporting user; the users themselves live outside this model. */
  type UserId = int

  /** A server-assigned creation time; only its order matters here. */
  type Timestamp = int

  /** A stored geometry point: `x` is the longitude and `y` the latitude.
      Coordinates are opaque values that are only compared for equality. */
  datatype Point = Point(x: int, y: int)

  /** One row of the table. */
  datatype Report = Report(user: UserId, timestamp: Timestamp, location: Point)

  function Last(s: seq<Report>): Report
    requires s != []
  {
    s[|s| - 1]
  }

  function AllButLast(s: seq<Report>): seq<Report>
    requires s != []
  {
    s[..|s| - 1]
  }

  /** The reports of user `u`, in ledger order: the subquery's `filter(user=OuterRef("user"))`. */
  function ReportsOf(ledger: seq<Report>, u: UserId): seq<Report>
  {
    if ledger == [] then []
    else ReportsOf(AllButLast(ledger), u) + (if Last(ledger).user == u then [Last(ledger)] else [])
  }

  /** The timestamp of the first row once `reports` is ordered newest first
      (`order_by("-timestamp").values("timestamp")[:1]`), or None (SQL NULL) when there is none. */
  function MaxTimestamp(reports: seq<Report>): Option<Timestamp>
  {
    if reports == [] then None
    else
      var last := Last(reports).timestamp;
      match MaxTimestamp(AllButLast(reports))
      case None => Some(last)
      case Some(m) => Some(if m < last then last else m)
  }

  /** The correlated subquery evaluated for a row of user `u`. */
  function LatestTimestamp(ledger: seq<Report>, u: UserId): Option<Timestamp>
  {
    MaxTimestamp(ReportsOf(ledger, u))
  }

  /** The outer filter `timestamp=Subquery(...)` for row `r`; a comparison with
      NULL is never true in SQL, which `Some` expresses. */
  predicate Selected(ledger: seq<Report>, r: Report)
  {
    LatestTimestamp(ledger, r.user) == Some(r.timestamp)
  }

  /** The rows of `rows` that pass the outer filter, the subquery being evaluated over `ledger`. */
  function Select(rows: seq<Report>, ledger: seq<Report>): seq<Report>
  {
    if rows == [] then []
    else Select(AllButLast(rows), ledger) + (if Selected(ledger, Last(rows)) then [Last(rows)] else [])
  }

  /** `LocationManager.latest_for_users`: every report whose timestamp equals the
      greatest timestamp among its own user's reports. Ties are not broken. */
  function LatestForUsers(ledger: seq<Report>): seq<Report>
  {
    Select(ledger, ledger)
  }

  /** No report of the user of `r` in `ledger` is newer than `r`. */
  ghost predicate IsNewestOfUser(ledger: seq<Report>, r: Report)
  {
    forall q :: q in ledger && q.user == r.user ==> q.timestamp <= r.timestamp
  }

  // ---------------------------------------------------------------------------
  // Unfolding the definitions at an appended row.

  lemma ReportsOfAppend(s: seq<Report>, a: Report, u: UserId)
    ensures ReportsOf(s + [a], u) == ReportsOf(s, u) + (if a.user == u then [a] else [])
  {
    assert AllButLast(s + [a]) == s;
  }

  lemma MaxTimestampAppend(s: seq<Report>, a: Report)
    ensures MaxTimestamp(s + [a]) ==
      match MaxTimestamp(s)
      case None => Some(a.timestamp)
      case Some(m) => Some(if m < a.timestamp then a.timestamp else m)
  {
    assert AllButLast(s + [a]) == s;
  }

  lemma SelectAppend(rows: seq<Report>, a: Report, ledger: seq<Report>)
    ensures Select(rows + [a], ledger) == Select(rows, ledger) + (if Selected(ledger, a) then [a] else [])
  {
    assert AllButLast(rows + [a]) == rows;
  }

  // ---------------------------------------------------------------------------
  // What each part of the query computes.

  /** The subquery's rows are exactly the ledger's reports of that user. */
  lemma {:induction false} ReportsOfMembers(ledger: seq<Report>, u: UserId)
    ensures forall q :: q in ReportsOf(ledger, u) <==> q in ledger && q.user == u
  {
    if ledger != [] {
      assert ledger == AllButLast(ledger) + [Last(ledger)];
      ReportsOfMembers(AllButLast(ledger), u);
    }
  }

  /** The first timestamp, newest first, is None exactly for no rows, is some row's
      timestamp, and no row is newer. */
  lemma {:induction false} MaxTimestampIsGreatest(reports: seq<Report>)
    ensures MaxTimestamp(reports) == None <==> reports == []
    ensures MaxTimestamp(reports).Some? ==>
      exists q :: q in reports && q.timestamp == MaxTimestamp(reports).value
    ensures MaxTimestamp(reports).Some? ==>
      forall q :: q in reports ==> q.timestamp <= MaxTimestamp(reports).value
  {
    if reports != [] {
      var init, last := AllButLast(reports), Last(reports);
      assert reports == init + [last];
      MaxTimestampIsGreatest(init);
      if MaxTimestamp(init).Some? {
        var m := MaxTimestamp(init).value;
        var q :| q in init && q.timestamp == m;
        assert q in reports;
      }
    }
  }

  /** The outer filter keeps exactly the rows that pass it. */
  lemma {:induction false} SelectMembers(rows: seq<Report>, ledger: seq<Report>)
    ensures forall r :: r in Select(rows, ledger) <==> r in rows && Selected(ledger, r)
  {
    if rows != [] {
      assert rows == AllButLast(rows) + [Last(rows)];
      SelectMembers(AllButLast(rows), ledger);
    }
  }

  /** For a row of the ledger, passing the outer filter means being its user's newest report. */
  lemma SelectedIsNewest(ledger: seq<Report>, r: Report)
    requires r in ledger
    ensures Selected(ledger, r) <==> IsNewestOfUser(ledger, r)
  {
    var own := ReportsOf(ledger, r.user);
    ReportsOfMembers(ledger, r.user);
    MaxTimestampIsGreatest(own);
    assert r in own;
    var m := MaxTimestamp(own).value;
    var newest :| newest in own && newest.timestamp == m;
  }

  /** A row is in the result if and only if it is a row of the ledger that no
      report of the same user is newer than: the maximum, with every tie. */
  lemma LatestMembers(ledger: seq<Report>)
    ensures forall r :: r in LatestForUsers(ledger) <==> r in ledger && IsNewestOfUser(ledger, r)
  {
    SelectMembers(ledger, ledger);
    forall r | r in ledger ensures Selected(ledger, r) <==> IsNewestOfUser(ledger, r) {
      SelectedIsNewest(ledger, r);
    }
  }

  /** Filtering rows that all belong to `u` by `u` changes nothing. */
  lemma {:induction false} ReportsOfOwn(rows: seq<Report>, u: UserId)
    requires forall r :: r in rows ==> r.user == u
    ensures ReportsOf(rows, u) == rows
  {
    if rows != [] {
      assert rows == AllButLast(rows) + [Last(rows)];
      ReportsOfOwn(AllButLast(rows), u);
      ReportsOfAppend(AllButLast(rows), Last(rows), u);
    }
  }

  /** The outer filter only consults the subquery's value for each row's user. */
  lemma {:induction false} SelectSameLatest(rows: seq<Report>, l1: seq<Report>, l2: seq<Report>)
    requires forall r :: r in rows ==> LatestTimestamp(l1, r.user) == LatestTimestamp(l2, r.user)
    ensures Select(rows, l1) == Select(rows, l2)
  {
    if rows != [] {
      assert rows == AllButLast(rows) + [Last(rows)];
      SelectSameLatest(AllButLast(rows), l1, l2);
      SelectAppend(AllButLast(rows), Last(rows), l1);
      SelectAppend(AllButLast(rows), Last(rows), l2);
    }
  }

  /** Selecting rows and then keeping user `u`'s is keeping `u`'s rows and then selecting. */
  lemma {:induction false} ReportsOfSelect(rows: seq<Report>, ledger: seq<Report>, u: UserId)
    ensures ReportsOf(Select(rows, ledger), u) == Select(ReportsOf(rows, u), ledger)
  {
    if rows != [] {
      var init, last := AllButLast(rows), Last(rows);
      assert rows == init + [last];
      ReportsOfSelect(init, ledger, u);
      var selected := Select(init, ledger);
      var own := ReportsOf(init, u);
      SelectAppend(init, last, ledger);
      ReportsOfAppend(init, last, u);
      if Selected(ledger, last) {
        assert Select(rows, ledger) == selected + [last];
        ReportsOfAppend(selected, last, u);
        if last.user == u {
          assert ReportsOf(rows, u) == own + [last];
          SelectAppend(own, last, ledger);
        } else {
          assert ReportsOf(rows, u) == own;
        }
      } else {
        assert Select(rows, ledger) == selected;
        if last.user == u {
          assert ReportsOf(rows, u) == own + [last];
          SelectAppend(own, last, ledger);
        } else {
          assert ReportsOf(rows, u) == own;
        }
      }
    }
  }

  /** A filter that keeps none of the rows returns nothing. */
  lemma SelectNone(rows: seq<Report>, ledger: seq<Report>)
    requires forall r :: r in rows ==> !Selected(ledger, r)
    ensures Select(rows, ledger) == []
  {
    SelectMembers(rows, ledger);
    if Select(rows, ledger) != [] {
      assert Select(rows, ledger)[0] in Select(rows, ledger);
    }
  }

  // ---------------------------------------------------------------------------
  // Properties of the latest-per-user query.

  /** The filter only filters: each row occurs in its output exactly as often as in
      its input when it is selected, and not at all otherwise. */
  lemma {:induction false} SelectCount(rows: seq<Report>, ledger: seq<Report>, r: Report)
    ensures multiset(Select(rows, ledger))[r] == if Selected(ledger, r) then multiset(rows)[r] else 0
  {
    if rows != [] {
      var init, last := AllButLast(rows), Last(rows);
      assert rows == init + [last];
      SelectCount(init, ledger, r);
      SelectAppend(init, last, ledger);
    }
  }

  /** The result is a sub-collection of the ledger: nothing is fabricated or
      altered, and every newest row is kept with all its duplicates. */
  lemma LatestIsSubcollection(ledger: seq<Report>)
    ensures multiset(LatestForUsers(ledger)) <= multiset(ledger)
    ensures forall r :: r in ledger && IsNewestOfUser(ledger, r) ==>
      multiset(LatestForUsers(ledger))[r] == multiset(ledger)[r]
  {
    forall r ensures multiset(LatestForUsers(ledger))[r] <= multiset(ledger)[r] {
      SelectCount(ledger, ledger, r);
    }
    forall r | r in ledger && IsNewestOfUser(ledger, r)
      ensures multiset(LatestForUsers(ledger))[r] == multiset(ledger)[r]
    {
      SelectCount(ledger, ledger, r);
      SelectedIsNewest(ledger, r);
    }
  }

  /** Every user with at least one report has at least one row in the result. */
  lemma EveryReportingUserIsListed(ledger: seq<Report>, u: UserId)
    requires exists q :: q in ledger && q.user == u
    ensures exists r :: r in LatestForUsers(ledger) && r.user == u
  {
    var q :| q in ledger && q.user == u;
    var own := ReportsOf(ledger, u);
    ReportsOfMembers(ledger, u);
    MaxTimestampIsGreatest(own);
    assert q in own;
    var newest :| newest in own && newest.timestamp == MaxTimestamp(own).value;
    SelectMembers(ledger, ledger);
    assert newest in LatestForUsers(ledger);
  }

  /** The rows returned for user `u` depend on `u`'s reports alone: they are what
      the query returns on a ledger holding only those reports (`OuterRef("user")`). */
  lemma LatestOfUserIsLocal(ledger: seq<Report>, u: UserId)
    ensures ReportsOf(LatestForUsers(ledger), u) == LatestForUsers(ReportsOf(ledger, u))
  {
    var own := ReportsOf(ledger, u);
    ReportsOfMembers(ledger, u);
    ReportsOfSelect(ledger, ledger, u);
    ReportsOfOwn(own, u);
    SelectSameLatest(own, ledger, own);
  }

  /** Appending a report for one user does not change the rows returned for another. */
  lemma AppendKeepsOtherUsers(ledger: seq<Report>, a: Report, u: UserId)
    requires a.user != u
    ensures ReportsOf(LatestForUsers(ledger + [a]), u) == ReportsOf(LatestForUsers(ledger), u)
  {
    LatestOfUserIsLocal(ledger + [a], u);
    LatestOfUserIsLocal(ledger, u);
    ReportsOfAppend(ledger, a, u);
    assert ReportsOf(ledger + [a], u) == ReportsOf(ledger, u);
  }

  /** The query on the reports of one user after one more report of that user:
      how the rows after the append relate to the rows before it. */
  lemma LatestOfOwnAppend(own: seq<Report>, a: Report)
    requires forall r :: r in own ==> r.user == a.user
    ensures MaxTimestamp(own).None? || MaxTimestamp(own).value < a.timestamp ==>
      LatestForUsers(own + [a]) == [a]
    ensures MaxTimestamp(own) == Some(a.timestamp) ==>
      LatestForUsers(own + [a]) == LatestForUsers(own) + [a]
    ensures MaxTimestamp(own).Some? && a.timestamp < MaxTimestamp(own).value ==>
      LatestForUsers(own + [a]) == LatestForUsers(own)
  {
    var all := own + [a];
    ReportsOfOwn(own, a.user);
    ReportsOfOwn(all, a.user);
    MaxTimestampAppend(own, a);
    MaxTimestampIsGreatest(own);
    SelectAppend(own, a, all);
    var before := MaxTimestamp(own);
    if before.None? || before.value < a.timestamp {
      forall r | r in own ensures !Selected(all, r) {
        assert r.timestamp <= before.value;
      }
      SelectNone(own, all);
    } else {
      SelectSameLatest(own, all, own);
    }
  }

  /** Freshness: after appending a report strictly newer than every earlier report
      of its user, that report is the user's only row in the result. */
  lemma NewerReportIsOnlyLatest(ledger: seq<Report>, a: Report)
    requires forall q :: q in ledger && q.user == a.user ==> q.timestamp < a.timestamp
    ensures ReportsOf(LatestForUsers(ledger + [a]), a.user) == [a]
  {
    var own := ReportsOf(ledger, a.user);
    ReportsOfMembers(ledger, a.user);
    MaxTimestampIsGreatest(own);
    LatestOfUserIsLocal(ledger + [a], a.user);
    ReportsOfAppend(ledger, a, a.user);
    LatestOfOwnAppend(own, a);
  }

  /** Ties are kept: a report appended with the same timestamp as its user's newest
      report joins the user's rows, and the earlier rows stay. */
  lemma TiedReportIsAdded(ledger: seq<Report>, a: Report, q: Report)
    requires q in ledger && q.user == a.user && q.timestamp == a.timestamp
    requires forall p :: p in ledger && p.user == a.user ==> p.timestamp <= a.timestamp
    ensures ReportsOf(LatestForUsers(ledger + [a]), a.user) ==
      ReportsOf(LatestForUsers(ledger), a.user) + [a]
  {
    var own := ReportsOf(ledger, a.user);
    ReportsOfMembers(ledger, a.user);
    MaxTimestampIsGreatest(own);
    assert q in own;
    LatestOfUserIsLocal(ledger + [a], a.user);
    LatestOfUserIsLocal(ledger, a.user);
    ReportsOfAppend(ledger, a, a.user);
    LatestOfOwnAppend(own, a);
  }

  /** A report older than its user's newest one changes nothing in the result for that user. */
  lemma OlderReportIsIgnored(ledger: seq<Report>, a: Report, q: Report)
    requires q in ledger && q.user == a.user && a.timestamp < q.timestamp
    ensures ReportsOf(LatestForUsers(ledger + [a]), a.user) == ReportsOf(LatestForUsers(ledger), a.user)
  {
    var own := ReportsOf(ledger, a.user);
    ReportsOfMembers(ledger, a.user);
    MaxTimestampIsGreatest(own);
    assert q in own;
    LatestOfUserIsLocal(ledger + [a], a.user);
    LatestOfUserIsLocal(ledger, a.user);
    ReportsOfAppend(ledger, a, a.user);
    LatestOfOwnAppend(own, a);
  }

  // ---------------------------------------------------------------------------
  // The table itself.

  /** The `LocationReport` table, shared by every connection. */
  class LocationTable {
    /** All rows, in insertion order. */
    var rows: seq<Report>

    constructor ()
      ensures rows == []
    {
      rows := [];
    }

    /** `LocationReport.objects.create(user=..., location=...)`: one new row at the
        end, whose timestamp the server assigns (`auto_now_add`) from `now`. */
    method Create(user: UserId, location: Point, now: Timestamp) returns (report: Report)
      modifies this
      ensures report.user == user && report.location == location && report.timestamp == now
      ensures rows == old(rows) + [report]
    {
      report := Report(user, now, location);
      rows := rows + [report];
    }
  }
}
