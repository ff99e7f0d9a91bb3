# Eurorace location ledger, modelled in Dafny

This project models the core of the eurorace backend: the table of location reports and the per-connection websocket handler that writes to it.

- **The ledger** (`ledger.dfy`, module `Ledger`, from `backend/eurorace/models.py`). The table of `LocationReport` rows `(user, timestamp, location)` is a `seq<Report>` in insertion order. It sits in a `LocationTable` object that every connection shares. `LocationManager.latest_for_users` is written as the SQL the ORM generates from it: an outer filter over all rows, keeping a row when its timestamp equals the correlated subquery "first timestamp of the same user's rows, newest first". The subquery is `LatestTimestamp` (`ReportsOf`, then `MaxTimestamp`). The filter is `Select`. The query is `LatestForUsers`. These are plain definitions; what each computes is proved in a lemma of its own (`ReportsOfMembers`, `MaxTimestampIsGreatest`, `SelectMembers`, `LatestMembers`). Rows come back in ledger order. Ties are not broken. A subquery with no rows is SQL NULL (`None`), and a comparison with NULL never selects a row.
- **The handler** (`consumer.dfy`, module `Consumer`, from `backend/eurorace/consumers.py`). `LocationConsumer` is a class with these fields:
  - `user`: absent until `connect`;
  - `accepted`;
  - `outbox`: the JSON messages sent back to the client;
  - `table`: a reference to the shared table;
  - `closed`: set once an exception has escaped `receive_json`. The exception is not caught, so it ends the consumer, and later messages on that connection are never handled.

  An inbound message is a `map<string, Value>`. A `Value` is a string, a number or something else. `ReceiveJson` follows `receive_json` step by step (its open-connection part is `Handle`), and its contract ties it to the pure function `Receive`. Each message ends in one of four outcomes:
  - `Ignored`: the `"type"` is absent or is not `"location_update"`.
  - `Saved(report)`: one row is appended, then one `{"type": "location_saved", "success": true}` ack is sent.
  - `Failed(error)`: the Python code raises an exception at this point, so no row is written and no ack is sent. The possible errors are:
    - a missing key: latitude is looked up first, then longitude;
    - a coordinate that is not a number: the `Point` constructor rejects it;
    - a connection whose `user` was never bound.
  - `Unhandled`: the connection was already closed by an earlier failure; nothing happens.
- **Scenarios** (`scenarios.dfy`, module `Scenarios`). Whole-connection runs. The scenario methods use only the methods' contracts; the lemmas beside them also use the query's definitions. They cover:
  - one update, followed by the latest query;
  - two users' connections sharing one table;
  - two updates on one connection, covering every order of the clock readings;
  - an update whose coordinate is not a number;
  - a failed update followed by a valid one on the same connection.

The server-assigned timestamp (`auto_now_add`) is the `now` parameter of the handler, read from an abstract clock. Nothing assumes that successive readings increase. Coordinates are opaque integers that are only compared for equality. The stored point has x = longitude and y = latitude.

In three places the behaviour one would expect of this system differs from what the code does, and the model follows the code:
- One would expect exactly one latest row per user, with some tie-break. The code keeps every row that shares the user's greatest timestamp, and so does the model (`TiedReportIsAdded`).
- One would expect a `{"type": "location_saved", "success": false}` ack when validation or storage fails. The code raises before it sends anything, so the model sends no ack on failure and closes the connection.
- One would expect each user's timestamps never to decrease. Nothing in the code guarantees this, so the model lets each clock reading be any value.

## Model

| member | source | states |
|---|---|---|
| `Ledger.ReportsOf` | backend/eurorace/models.py:11 | the subquery's `filter(user=OuterRef("user"))`: a user's reports in ledger order; see ReportsOfMembers, ReportsOfOwn |
| `Ledger.MaxTimestamp` | backend/eurorace/models.py:11 | `order_by("-timestamp").values("timestamp")[:1]`: the greatest timestamp of the rows, None (SQL NULL) when there are none; see MaxTimestampIsGreatest |
| `Ledger.LatestTimestamp` | backend/eurorace/models.py:10-12 | the correlated subquery's value for one user: the greatest timestamp of that user's reports; see MaxTimestampIsGreatest, ReportsOfMembers |
| `Ledger.Selected` | backend/eurorace/models.py:9-12 | the outer filter's condition `timestamp=Subquery(...)`, false when the subquery is NULL; see SelectedIsNewest |
| `Ledger.Select` | backend/eurorace/models.py:9-12 | the outer filter: the rows meeting the condition, in order, each as often as it occurs; see SelectMembers, SelectCount |
| `Ledger.LatestForUsers` | backend/eurorace/models.py:8-13 | `latest_for_users`: every ledger row carrying its user's greatest timestamp, all ties kept, in ledger order; see LatestMembers, SelectCount, LatestIsSubcollection |
| `Ledger.ReportsOfMembers` | backend/eurorace/models.py:11 | the subquery's `filter(user=OuterRef("user"))` holds exactly the ledger's reports of that user |
| `Ledger.MaxTimestampIsGreatest` | backend/eurorace/models.py:11 | the first timestamp when the rows are ordered newest first: None exactly when there are no rows; otherwise the timestamp of one of the rows, and no row is newer |
| `Ledger.SelectMembers` | backend/eurorace/models.py:9-12 | the outer `filter(timestamp=Subquery(...))` keeps exactly the rows whose timestamp equals their user's subquery value |
| `Ledger.LatestMembers` | backend/eurorace/models.py:8-13 | a row is in the result if and only if it is in the ledger and no report of the same user is newer: a maximum is always attained, and every tied row is kept |
| `Ledger.SelectedIsNewest` | backend/eurorace/models.py:10-12 | for a row of the ledger, equality with the subquery's value is equivalent to carrying the greatest timestamp of its own user |
| `Ledger.SelectSameLatest` | backend/eurorace/models.py:10-12 | the outer filter depends on the ledger only through the subquery's value for each row's user |
| `Ledger.ReportsOfSelect` | backend/eurorace/models.py:9-12 | keeping one user's rows commutes with the outer filter |
| `Ledger.SelectCount` | backend/eurorace/models.py:9-12 | each row appears in the filter's output exactly as often as in its input when selected, and never otherwise: rows are neither fabricated, altered nor merged |
| `Ledger.LatestIsSubcollection` | backend/eurorace/models.py:9 | the result is a sub-multiset of the ledger, and every newest-of-its-user row is kept with all its duplicates |
| `Ledger.EveryReportingUserIsListed` | backend/eurorace/models.py:10-12 | every user with at least one report has at least one row in the result |
| `Ledger.LatestOfUserIsLocal` | backend/eurorace/models.py:11 | a user's rows in the result are what the query returns on that user's reports alone |
| `Ledger.AppendKeepsOtherUsers` | backend/eurorace/models.py:11 | appending a report for user A leaves the result's rows for every other user unchanged |
| `Ledger.LatestOfOwnAppend` | backend/eurorace/models.py:10-12 | on one user's reports, appending a report gives: only that report if it is newer than all; the old rows plus it if it ties the newest; the old rows if it is older |
| `Ledger.NewerReportIsOnlyLatest` | backend/eurorace/models.py:10-12 | after appending a report strictly newer than all earlier reports of its user, it is that user's only row in the result |
| `Ledger.TiedReportIsAdded` | backend/eurorace/models.py:10-12 | after appending a report whose timestamp equals its user's newest, the user's rows are the earlier ones plus the new one: ties are not broken |
| `Ledger.OlderReportIsIgnored` | backend/eurorace/models.py:10-12 | appending a report older than one of that user's reports leaves the user's rows in the result unchanged |
| `Ledger.LocationTable.Create` | backend/eurorace/models.py:21-24 | one new row at the end of the table, with the given user and point unchanged and the server's clock reading as its timestamp; earlier rows are untouched |
| `Consumer.Receive` | backend/eurorace/consumers.py:23-35 | ignored if and only if the type is not "location_update"; saved if and only if it is, both coordinates are present and numeric and the user is bound; the saved row has the connection's user, the clock reading and x = longitude, y = latitude; otherwise it fails with a missing latitude first, then a missing longitude, then an invalid point |
| `Consumer.LocationConsumer.Connect` | backend/eurorace/consumers.py:11-17 | the connection's user becomes the scope's user and the connection is accepted; nothing is sent |
| `Consumer.LocationConsumer.Disconnect` | backend/eurorace/consumers.py:19-20 | neither the connection nor the table changes |
| `Consumer.LocationConsumer.SendJson` | backend/eurorace/consumers.py:32-35 | exactly one message is added to the end of the outbox; the user and the accepted flag do not change |
| `Consumer.LocationConsumer.SaveLocation` | backend/eurorace/consumers.py:37-44 | the point is built as `Point(longitude, latitude)` before the user is consulted; on success exactly one row for the connection's user is appended, and on failure the table is unchanged |
| `Consumer.IsLocationUpdate` | backend/eurorace/consumers.py:24 | `content.get("type", None) == "location_update"`: the key is present and holds that string; see Receive |
| `Consumer.MakePoint` | backend/eurorace/consumers.py:40 | `Point(longitude, latitude)`: a point from two numbers, a `Point` failure otherwise; see SavedReport |
| `Consumer.SavedReport` | backend/eurorace/consumers.py:37-44 | a row is produced if and only if both coordinates are numbers and the user is bound; it carries the user, the clock reading and x = longitude, y = latitude; a bad coordinate is reported before a missing user |
| `Consumer.LocationConsumer.Handle` | backend/eurorace/consumers.py:23-35 | on an open connection the outcome is `Receive` of the connection's user; the table grows by exactly the saved row and the outbox by exactly one `location_saved` ack, both only on success, so no ack is sent without its row; ignored and failed messages change neither |
| `Consumer.LocationConsumer.ReceiveJson` | backend/eurorace/consumers.py:23-35 | on an open connection, `Handle`; an uncaught failure closes the connection, and on a closed connection the message is unhandled and neither the table nor the outbox changes; the user is unchanged |
| `Scenarios.SingleUpdate` | backend/eurorace/tests.py:61-95 | connecting and sending one update yields exactly one ack `{location_saved, true}` and exactly one row with the user and x = longitude, y = latitude, and that row is the whole latest result |
| `Scenarios.OneReport` | backend/eurorace/models.py:8-13 | on a ledger of a single report, the query returns exactly that report |
| `Scenarios.TwoUsers` | backend/eurorace/models.py:8-13 | two users each sending one update over their own connections to one table: the latest result is exactly the two reports in writing order, one per user |
| `Scenarios.ReportsOfOneEach` | backend/eurorace/models.py:11 | on a ledger of one report for each of two users, each user's subquery rows are that user's report alone |
| `Scenarios.LatestOfOneEach` | backend/eurorace/models.py:8-13 | on a ledger of one report for each of two users, the query returns both reports in ledger order |
| `Scenarios.TwoUpdates` | backend/eurorace/consumers.py:23-35 | two updates on one connection: acks and rows in sending order; the latest result is the later report, both reports, or the earlier report, as the clock readings are increasing, equal or decreasing |
| `Scenarios.TwoReportsOfOneUser` | backend/eurorace/models.py:10-12 | on a ledger of two reports of one user, the latest rows are the newer report, or both reports when their timestamps are equal |
| `Scenarios.NonNumericLatitude` | backend/eurorace/consumers.py:40 | an update whose latitude is not a number fails in the `Point` constructor; no row is written and no ack is sent |
| `Scenarios.FailureClosesConnection` | backend/eurorace/consumers.py:23-29 | an update without a longitude fails with a missing key; a valid update sent afterwards on the same connection is unhandled, so no row and no ack exist |

## Left out

- The asynchronous layer (`async`/`await`, `database_sync_to_async`), the Channels transport and concurrent connections. Handler calls are sequential method calls. Connections share the table object, so different connections' writes interleave one call at a time.
- Floating-point coordinates, the spatial reference system, and the 1-metre `distance_lte` tolerance of the test at backend/eurorace/tests.py:147-152. Coordinates are opaque values compared exactly.
- GEOS `Point` corner cases. A JSON `null` longitude gives an empty point, booleans count as numbers in Python, and a longitude that is a JSON array (`Point([a, b], latitude)`) builds the point from the array and ignores the latitude. The model treats every non-number coordinate as a `Point` failure.
- Consumer.LocationConsumer.ReceiveJson: content that is not a JSON object (a list makes `content.get` raise at backend/eurorace/consumers.py:24) cannot be expressed, because a message is always a map. What closing the connection does at the transport level is not modelled beyond later messages being unhandled.
- Consumer.LocationConsumer.SaveLocation, Consumer.LocationConsumer.ReceiveJson: storage failures of the database write are not modelled, so the write always succeeds once the point and the user are valid.
- Authentication and users: the user is an identifier supplied by the scope. An anonymous user, whose row the database would refuse, is not modelled.
- `LocationManager.authors` and `editors` (backend/eurorace/models.py:15-19) call queryset methods that do not exist, and nothing uses them.
- `LocationReport.__str__` (backend/eurorace/models.py:28-33) only formats a translated string.
- The other write paths to the table. `LocationReportViewSet` is a full model view set (backend/eurorace/views.py:10-12), routed at `location-reports` (backend/eurorace/urls.py:31), whose serializer accepts a `user` and a `location` (backend/eurorace/serializers.py:7-11), so rows can be created for any user, updated and deleted over HTTP. The admin (backend/eurorace/admin.py:7-9) edits rows too, and deleting a user deletes that user's rows (`on_delete=models.CASCADE`, backend/eurorace/models.py:22). The model's table only grows through `Create`. The query lemmas hold for every `seq<Report>`, so they also describe a table changed by these paths.
- The serializers' output format, the URL and route tables, and the frontend build configuration. The `latest` view (backend/eurorace/views.py:15-18) only serializes `latest_for_users()`.
- Consumer.LocationConsumer.Disconnect: Channels ends the consumer right after `disconnect`, so no later message can arrive; the model leaves the connection open, which no client message can observe.
- Database row identifiers and the result order the database chooses. The query result is modelled in ledger order.
