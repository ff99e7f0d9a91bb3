/**
  The websocket handler of backend/eurorace/consumers.py: one `LocationConsumer`
  per connection. It binds the connection's user when the connection opens, and
  turns every "location_update" message into one new row of the shared location
  table followed by one acknowledgement. Any other message is ignored.

  Handler calls are sequential method calls; the asynchronous layer and the
  transport are not modelled. The outbox is the sequence of JSON messages sent
  back to the client.
*/
module Consumer {
  import opened Ledger

  /** A JSON value of an inbound message, as far as the handler tells values apart. */
  datatype Value = Str(s: string) | Num(n: int) | Other

  /** An inbound JSON object (`content`). */
  type Message = map<string, Value>

  /** An outbound JSON object `{"type": kind, "success": success}`. */
  datatype Ack = Ack(kind: string, success: bool)

  /** The only message the handler ever sends. */
  const LocationSaved: Ack := Ack("location_saved", true)

  /** The exceptions that end the handling of a message. */
  datatype Error =
    | MissingKey(key: string)  // KeyError from `content[key]`
    | InvalidPoint             // TypeError from `Point(...)` given a coordinate that is not a number
    | NotConnected             // AttributeError: `self.user` was never bound by `connect`

  datatype Result<T> = Ok(value: T) | Err(error: Error)

  /** What handling one inbound message amounts to. `Unhandled` is a message that
      arrives after an earlier failure ended the consumer: it is never processed. */
  datatype Outcome = Ignored | Saved(report: Report) | Failed(error: Error) | Unhandled

  /** `Point(x, y)`: a geometry point from two numbers; anything else is rejected. */
  function MakePoint(x: Value, y: Value): Result<Point>
  {
    if x.Num? && y.Num? then Ok(Point(x.n, y.n)) else Err(InvalidPoint)
  }

  /** `content.get("type", None) == "location_update"` */
  predicate IsLocationUpdate(content: Message)
  {
    "type" in content && content["type"] == Str("location_update")
  }

  /** The row `save_location` writes for the connection's `user`: the point is built
      first, longitude as x and latitude as y, and only then is the user consulted. */
  function SavedReport(user: Option<UserId>, latitude: Value, longitude: Value, now: Timestamp): (result: Result<Report>)
    ensures result.Ok? <==> latitude.Num? && longitude.Num? && user.Some?
    ensures result.Ok? ==> result.value == Report(user.value, now, Point(longitude.n, latitude.n))
    ensures !(latitude.Num? && longitude.Num?) ==> result == Err(InvalidPoint)
    ensures latitude.Num? && longitude.Num? && user.None? ==> result == Err(NotConnected)
  {
    match MakePoint(longitude, latitude)
    case Err(e) => Err(e)
    case Ok(point) => if user.None? then Err(NotConnected) else Ok(Report(user.value, now, point))
  }

  /** What `receive_json` does with `content` on a connection bound to `user`,
      the server clock reading `now`. */
  function Receive(user: Option<UserId>, content: Message, now: Timestamp): (outcome: Outcome)
    ensures !outcome.Unhandled?
    ensures outcome.Ignored? <==> !IsLocationUpdate(content)
    ensures outcome.Saved? <==>
      && IsLocationUpdate(content)
      && "latitude" in content && content["latitude"].Num?
      && "longitude" in content && content["longitude"].Num?
      && user.Some?
    ensures outcome.Saved? ==>
      outcome.report == Report(user.value, now, Point(content["longitude"].n, content["latitude"].n))
    ensures IsLocationUpdate(content) && "latitude" !in content ==>
      outcome == Failed(MissingKey("latitude"))
    ensures IsLocationUpdate(content) && "latitude" in content && "longitude" !in content ==>
      outcome == Failed(MissingKey("longitude"))
    ensures (IsLocationUpdate(content) && "latitude" in content && "longitude" in content &&
             !(content["latitude"].Num? && content["longitude"].Num?)) ==>
      outcome == Failed(InvalidPoint)
  {
    if !IsLocationUpdate(content) then Ignored
    else if "latitude" !in content then Failed(MissingKey("latitude"))
    else if "longitude" !in content then Failed(MissingKey("longitude"))
    else
      match SavedReport(user, content["latitude"], content["longitude"], now)
      case Ok(report) => Saved(report)
      case Err(e) => Failed(e)
  }

  /** The rows an outcome adds to the table. */
  function RowsWritten(outcome: Outcome): seq<Report>
  {
    if outcome.Saved? then [outcome.report] else []
  }

  /** The messages an outcome sends to the client. */
  function AcksSent(outcome: Outcome): seq<Ack>
  {
    if outcome.Saved? then [LocationSaved] else []
  }

  class LocationConsumer {
    /** The location table, shared with every other connection. */
    const table: LocationTable
    /** `self.user`, absent until `connect`. */
    var user: Option<UserId>
    /** Whether the connection has been accepted. */
    var accepted: bool
    /** Everything sent to the client, oldest first. */
    var outbox: seq<Ack>
    /** Whether an exception escaped `receive_json`: it is not caught, so it ends
        the consumer and no later message on this connection is handled. */
    var closed: bool

    constructor (table: LocationTable)
      ensures this.table == table
      ensures user == None && !accepted && outbox == [] && !closed
    {
      this.table := table;
      user := None;
      accepted := false;
      outbox := [];
      closed := false;
    }

    /** `connect`: bind the user the scope supplies, then accept. */
    method Connect(scopeUser: UserId)
      modifies this
      ensures user == Some(scopeUser) && accepted
      ensures outbox == old(outbox) && closed == old(closed)
    {
      user := Some(scopeUser);
      accepted := true;
    }

    /** `disconnect`: does nothing. Channels ends the consumer right after calling it,
        so no later message arrives; the model does not mark the connection closed. */
    method Disconnect(closeCode: int)
      ensures unchanged(this) && unchanged(table)
    {
    }

    /** `send_json`: one more message to the client. */
    method SendJson(ack: Ack)
      modifies this
      ensures outbox == old(outbox) + [ack]
      ensures user == old(user) && accepted == old(accepted) && closed == old(closed)
    {
      outbox := outbox + [ack];
    }

    /** `save_location`: build the point and write one row for the connection's user. */
    method SaveLocation(latitude: Value, longitude: Value, now: Timestamp) returns (result: Result<Report>)
      modifies table
      ensures result == SavedReport(user, latitude, longitude, now)
      ensures table.rows == old(table.rows) + (if result.Ok? then [result.value] else [])
    {
      var point := MakePoint(longitude, latitude);
      if point.Err? {
        return Err(point.error);
      }
      if user.None? {
        return Err(NotConnected);
      }
      var report := table.Create(user.value, point.value, now);
      return Ok(report);
    }

    /** `receive_json`: classify `content` by its "type"; for a location update read
        both coordinates, write the row and only then send the acknowledgement.
        A failure closes the connection; on a closed connection nothing happens. */
    method ReceiveJson(content: Message, now: Timestamp) returns (outcome: Outcome)
      modifies this, table
      ensures outcome == if old(closed) then Unhandled else Receive(old(user), content, now)
      ensures closed == (old(closed) || outcome.Failed?)
      ensures user == old(user) && accepted == old(accepted)
      ensures table.rows == old(table.rows) + RowsWritten(outcome)
      ensures outbox == old(outbox) + AcksSent(outcome)
    {
      if closed {
        return Unhandled;
      }
      outcome := Handle(content, now);
      if outcome.Failed? {
        closed := true;
      }
    }

    /** One message on an open connection, up to the exception that would end it. */
    method Handle(content: Message, now: Timestamp) returns (outcome: Outcome)
      modifies this, table
      ensures outcome == Receive(old(user), content, now)
      ensures user == old(user) && accepted == old(accepted) && closed == old(closed)
      ensures table.rows == old(table.rows) + RowsWritten(outcome)
      ensures outbox == old(outbox) + AcksSent(outcome)
    {
      if "type" in content && content["type"] == Str("location_update") {
        if "latitude" !in content {
          return Failed(MissingKey("latitude"));
        }
        var latitude := content["latitude"];
        if "longitude" !in content {
          return Failed(MissingKey("longitude"));
        }
        var longitude := content["longitude"];
        var saved := SaveLocation(latitude, longitude, now);
        if saved.Err? {
          return Failed(saved.error);
        }
        SendJson(LocationSaved);
        outcome := Saved(saved.value);
      } else {
        outcome := Ignored;
      }
    }
  }
}
