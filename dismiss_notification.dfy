/** The notification dismiss route (POST): validate the id in the request body,
    mark the notification with that id read, and classify the outcome. The
    notifications table is a map from id to row, updated in place. */
module DismissNotification {
  import opened Prelude
  import opened Records

  /** The request body as `request.json()` sees it. `Malformed` is a body that does
      not parse; otherwise `notificationId` is the `notification_id` field, `None`
      when it is absent or null. */
  datatype RequestBody = Malformed | Parsed(notificationId: Option<string>)

  datatype DismissResponse =
    | Dismissed(message: string, data: seq<Notification>)
    | Rejected(status: int, error: string)

  /** `!notification_id`: absent, null or the empty string. */
  predicate IsFalsy(id: Option<string>) {
    id.None? || id.value == ""
  }

  /** The table after the update: the row with key `id` read, every other row as it was. */
  function MarkRead(rows: map<string, Notification>, id: string): (r: map<string, Notification>)
    ensures r.Keys == rows.Keys
    ensures id in rows ==> r[id] == rows[id].(isRead := true)
    ensures forall k :: k in rows && k != id ==> r[k] == rows[k]
  {
    if id in rows then rows[id := rows[id].(isRead := true)] else rows
  }

  /** A table is well keyed when each row is stored under its own id. */
  predicate WellKeyed(rows: map<string, Notification>) {
    forall k :: k in rows ==> rows[k].id == k
  }

  /** The whole POST as a function of the table before it, the body, and whether
      the store reports an error: the response and the table after it. */
  function DismissSpec(rows: map<string, Notification>, body: RequestBody, storeFails: bool)
    : (r: (DismissResponse, map<string, Notification>))
    ensures r.1.Keys == rows.Keys
    ensures r.0.Rejected? ==> r.1 == rows
    ensures !r.0.Rejected? ==>
      && body.Parsed? && body.notificationId.Some? && body.notificationId.value in rows
      && r.1 == MarkRead(rows, body.notificationId.value)
  {
    if body.Malformed? then (Rejected(500, "Internal Server Error"), rows)
    else if IsFalsy(body.notificationId) then (Rejected(400, "Notification ID is required"), rows)
    else if storeFails then (Rejected(500, "Failed to dismiss notification"), rows)
    else
      var id := body.notificationId.value;
      if id !in rows then (Rejected(404, "Notification not found"), rows)
      else (Dismissed("Notification dismissed successfully", [MarkRead(rows, id)[id]]), MarkRead(rows, id))
  }

  class NotificationTable {
    var rows: map<string, Notification>

    ghost predicate Valid()
      reads this
    {
      WellKeyed(rows)
    }

    constructor (initial: map<string, Notification>)
      requires WellKeyed(initial)
      ensures Valid() && rows == initial
    {
      rows := initial;
    }

    /** `update({ is_read: true }).eq('id', id).select()`: the updated rows. */
    method UpdateIsRead(id: string) returns (data: seq<Notification>)
      requires Valid()
      modifies this
      ensures Valid()
      ensures rows == MarkRead(old(rows), id)
      ensures data == if id in old(rows) then [rows[id]] else []
    {
      if id in rows {
        rows := rows[id := rows[id].(isRead := true)];
        data := [rows[id]];
      } else {
        data := [];
      }
    }

    /** POST /api/notifications/dismiss. */
    method Post(body: RequestBody, storeFails: bool) returns (response: DismissResponse)
      requires Valid()
      modifies this
      ensures Valid()
      ensures (response, rows) == DismissSpec(old(rows), body, storeFails)
    {
      if body.Malformed? {
        return Rejected(500, "Internal Server Error");
      }
      var notificationId := body.notificationId;
      if IsFalsy(notificationId) {
        return Rejected(400, "Notification ID is required");
      }
      if storeFails {
        return Rejected(500, "Failed to dismiss notification");
      }
      var data := UpdateIsRead(notificationId.value);
      if |data| == 0 {
        return Rejected(404, "Notification not found");
      }
      response := Dismissed("Notification dismissed successfully", data);
    }
  }

  /** A missing or empty id is rejected with 400 and the table is untouched. */
  lemma FalsyIdRejected(rows: map<string, Notification>, id: Option<string>, storeFails: bool)
    requires IsFalsy(id)
    ensures DismissSpec(rows, Parsed(id), storeFails) == (Rejected(400, "Notification ID is required"), rows)
  {
  }

  /** The outcome is classified exactly: 400, 500, 404 or 200, and only a 200 changes the table. */
  lemma Classification(rows: map<string, Notification>, body: RequestBody, storeFails: bool)
    ensures var (resp, after) := DismissSpec(rows, body, storeFails);
      && (resp.Rejected? ==> after == rows)
      && (resp.Rejected? && resp.status == 400 <==> body.Parsed? && IsFalsy(body.notificationId))
      && (resp.Rejected? && resp.status == 404 <==>
            body.Parsed? && !IsFalsy(body.notificationId) && !storeFails && body.notificationId.value !in rows)
      && (resp.Rejected? && resp.status == 500 <==> body.Malformed? || (body.Parsed? && !IsFalsy(body.notificationId) && storeFails))
      && (resp.Dismissed? <==>
            body.Parsed? && !IsFalsy(body.notificationId) && !storeFails && body.notificationId.value in rows)
  {
  }

  /** On success exactly the row with that id is returned, read, and only its
      `is_read` changed; every other row is as it was. */
  lemma SuccessMarksExactlyThatRow(rows: map<string, Notification>, id: string)
    requires WellKeyed(rows) && id != "" && id in rows
    ensures var (resp, after) := DismissSpec(rows, Parsed(Some(id)), false);
      && resp.Dismissed?
      && resp.data == [rows[id].(isRead := true)]
      && resp.data[0].id == id && resp.data[0].isRead
      && after.Keys == rows.Keys
      && after[id] == rows[id].(isRead := true)
      && (forall k :: k in rows && k != id ==> after[k] == rows[k])
      && WellKeyed(after)
  {
  }

  /** Dismissing the same existing id twice succeeds both times and leaves the same table. */
  lemma DismissIdempotent(rows: map<string, Notification>, id: string)
    requires id != "" && id in rows
    ensures var (resp1, after1) := DismissSpec(rows, Parsed(Some(id)), false);
            var (resp2, after2) := DismissSpec(after1, Parsed(Some(id)), false);
            && resp1.Dismissed? && resp2.Dismissed?
            && resp1 == resp2
            && after2 == after1
  {
    var after1 := MarkRead(rows, id);
    assert MarkRead(after1, id) == after1;
  }

  /** An id with no row is answered 404 and the table is untouched. */
  lemma UnknownIdNotFound(rows: map<string, Notification>, id: string)
    requires id != "" && id !in rows
    ensures DismissSpec(rows, Parsed(Some(id)), false) == (Rejected(404, "Notification not found"), rows)
  {
  }
}
