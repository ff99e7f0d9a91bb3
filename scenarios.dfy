/**
  Whole-connection scenarios over the handler and the query. The scenario methods
  rely on the methods' contracts alone; the lemmas beside them also unfold the
  query's definitions (the behaviour backend/eurorace/tests.py exercises, with
  coordinates compared exactly).
*/
module Scenarios {
  import opened Ledger
  import opened Consumer

  function UpdateMessage(latitude: int, longitude: int): Message
  {
    map["type" := Str("location_update"), "latitude" := Num(latitude), "longitude" := Num(longitude)]
  }

  /** Connect as `u`, send one update, read the acknowledgement and the latest rows. */
  method SingleUpdate(u: UserId, latitude: int, longitude: int, now: Timestamp)
    returns (acks: seq<Ack>, rows: seq<Report>, latest: seq<Report>)
    ensures acks == [LocationSaved]
    ensures rows == [Report(u, now, Point(longitude, latitude))]
    ensures latest == rows
  {
    var table := new LocationTable();
    var connection := new LocationConsumer(table);
    connection.Connect(u);
    var outcome := connection.ReceiveJson(UpdateMessage(latitude, longitude), now);
    acks, rows := connection.outbox, table.rows;
    OneReport(rows[0]);
    latest := LatestForUsers(rows);
  }

  /** On a ledger of one report, that report is the whole latest result. */
  lemma OneReport(r: Report)
    ensures LatestForUsers([r]) == [r]
  {
    assert [] + [r] == [r];
    NewerReportIsOnlyLatest([], r);
    LatestMembers([r]);
    ReportsOfOwn(LatestForUsers([r]), r.user);
  }

  /** Two connections of different users on one table, one update each: the latest
      rows are one per user, each that user's own report. */
  method TwoUsers(u1: UserId, u2: UserId, t1: Timestamp, t2: Timestamp, p1: Point, p2: Point)
    returns (latest: seq<Report>)
    requires u1 != u2
    ensures ReportsOf(latest, u1) == [Report(u1, t1, p1)]
    ensures ReportsOf(latest, u2) == [Report(u2, t2, p2)]
    ensures latest == [Report(u1, t1, p1), Report(u2, t2, p2)]
  {
    var table := new LocationTable();
    var first := new LocationConsumer(table);
    var second := new LocationConsumer(table);
    first.Connect(u1);
    second.Connect(u2);
    var o1 := first.ReceiveJson(UpdateMessage(p1.y, p1.x), t1);
    var o2 := second.ReceiveJson(UpdateMessage(p2.y, p2.x), t2);
    var r1, r2 := Report(u1, t1, p1), Report(u2, t2, p2);
    assert table.rows == [r1, r2];
    ReportsOfOneEach(r1, r2);
    LatestOfOneEach(r1, r2);
    var rows := table.rows;
    latest := LatestForUsers(rows);
  }

  /** A user's reports on a ledger of one report for each of two users. */
  lemma ReportsOfOneEach(r1: Report, r2: Report)
    requires r1.user != r2.user
    ensures ReportsOf([r1, r2], r1.user) == [r1]
    ensures ReportsOf([r1, r2], r2.user) == [r2]
  {
    assert [r1, r2] == [r1] + [r2];
    assert [] + [r1] == [r1];
    ReportsOfAppend([], r1, r1.user);
    ReportsOfAppend([], r1, r2.user);
    ReportsOfAppend([r1], r2, r1.user);
    ReportsOfAppend([r1], r2, r2.user);
  }

  /** On a ledger of one report for each of two users, both reports are latest,
      in ledger order. */
  lemma LatestOfOneEach(r1: Report, r2: Report)
    requires r1.user != r2.user
    ensures LatestForUsers([r1, r2]) == [r1, r2]
  {
    var l := [r1, r2];
    ReportsOfOneEach(r1, r2);
    assert [] + [r1] == [r1];
    MaxTimestampAppend([], r1);
    MaxTimestampAppend([], r2);
    assert Selected(l, r1) && Selected(l, r2);
    assert l == [r1] + [r2];
    SelectAppend([], r1, l);
    SelectAppend([r1], r2, l);
  }

  /** One connection sends two updates: the rows and the acknowledgements come in
      sending order, and which rows are latest follows the clock readings alone. */
  method TwoUpdates(u: UserId, t1: Timestamp, t2: Timestamp, p1: Point, p2: Point)
    returns (acks: seq<Ack>, rows: seq<Report>, latest: seq<Report>)
    ensures acks == [LocationSaved, LocationSaved]
    ensures rows == [Report(u, t1, p1), Report(u, t2, p2)]
    ensures t1 < t2 ==> latest == [rows[1]]
    ensures t1 == t2 ==> latest == rows
    ensures t2 < t1 ==> latest == [rows[0]]
  {
    var table := new LocationTable();
    var connection := new LocationConsumer(table);
    connection.Connect(u);
    var o1 := connection.ReceiveJson(UpdateMessage(p1.y, p1.x), t1);
    var o2 := connection.ReceiveJson(UpdateMessage(p2.y, p2.x), t2);
    acks, rows := connection.outbox, table.rows;
    TwoReportsOfOneUser(rows[0], rows[1]);
    latest := LatestForUsers(rows);
  }

  /** The latest rows of a ledger holding two reports of one user. */
  lemma TwoReportsOfOneUser(r1: Report, r2: Report)
    requires r1.user == r2.user
    ensures r1.timestamp < r2.timestamp ==> LatestForUsers([r1, r2]) == [r2]
    ensures r1.timestamp == r2.timestamp ==> LatestForUsers([r1, r2]) == [r1, r2]
    ensures r2.timestamp < r1.timestamp ==> LatestForUsers([r1, r2]) == [r1]
  {
    assert [r1, r2] == [r1] + [r2];
    NewerReportIsOnlyLatest([], r1);
    LatestMembers([r1]);
    LatestMembers([r1, r2]);
    ReportsOfOwn(LatestForUsers([r1]), r1.user);
    ReportsOfOwn(LatestForUsers([r1, r2]), r1.user);
    if r1.timestamp < r2.timestamp {
      NewerReportIsOnlyLatest([r1], r2);
    } else if r1.timestamp == r2.timestamp {
      TiedReportIsAdded([r1], r2, r1);
    } else {
      OlderReportIsIgnored([r1], r2, r1);
    }
  }

  /** A location update with a coordinate that is not a number writes nothing and
      sends nothing. */
  method NonNumericLatitude(u: UserId, longitude: int, now: Timestamp)
    returns (outcome: Outcome, acks: seq<Ack>, rows: seq<Report>)
    ensures outcome == Failed(InvalidPoint)
    ensures acks == [] && rows == []
  {
    var table := new LocationTable();
    var connection := new LocationConsumer(table);
    connection.Connect(u);
    var content := map["type" := Str("location_update"), "latitude" := Str("not-a-number"), "longitude" := Num(longitude)];
    outcome := connection.ReceiveJson(content, now);
    acks, rows := connection.outbox, table.rows;
  }

  /** An update missing its longitude raises, which ends the consumer: a valid
      update sent afterwards on the same connection is never handled. */
  method FailureClosesConnection(u: UserId, latitude: int, longitude: int, t1: Timestamp, t2: Timestamp)
    returns (first: Outcome, second: Outcome, acks: seq<Ack>, rows: seq<Report>)
    ensures first == Failed(MissingKey("longitude"))
    ensures second == Unhandled
    ensures acks == [] && rows == []
  {
    var table := new LocationTable();
    var connection := new LocationConsumer(table);
    connection.Connect(u);
    var partial := map["type" := Str("location_update"), "latitude" := Num(latitude)];
    first := connection.ReceiveJson(partial, t1);
    second := connection.ReceiveJson(UpdateMessage(latitude, longitude), t2);
    acks, rows := connection.outbox, table.rows;
  }
}
