// Properties of `sendEmail` (api/services/email.js) as the Emails module models
// it: how a recorded message ends, and what the send writes and announces.

module EmailSends {
  import opened Wrappers
  import opened Strings
  import opened Values
  import opened Store
  import opened Lifecycle
  import opened Emails

  /** A record ends `sent` exactly when the transport accepted the message, and
    * `failed` exactly when it refused it. */
  lemma FinalRecordStatus(data: Doc, from: string, delivery: Delivery, id: Id, now: int)
    requires "to" in data && data["to"].Str?
    ensures var d := FinalRecord(data, from, delivery, id, now);
      && "status" in d && (d["status"] == Str("sent") <==> delivery.Delivered?)
      && (d["status"] == Str("failed") <==> delivery.Rejected?)
      && (delivery.Delivered? ==> "messageId" in d && d["messageId"] == Str(delivery.messageId) && "sentAt" in d && d["sentAt"] == Num(now))
      && (delivery.Rejected? ==> "errorMessage" in d && d["errorMessage"] == Str(delivery.reason) && "sentAt" !in d)
  {
    var stamped := Stamped(PendingRecord(data, from), id, now);
    var u := Outcome(delivery, now);
    PatchedTakes(stamped, u, now, "status");
    if delivery.Delivered? {
      PatchedTakes(stamped, u, now, "messageId");
      PatchedTakes(stamped, u, now, "sentAt");
    } else {
      PatchedTakes(stamped, u, now, "errorMessage");
      PendingStamped(data, from, id, now);
      PatchedAbsent(stamped, u, {}, now, "sentAt");
    }
  }

  /** The send keeps the addresses lowercased and the message as given. */
  lemma FinalRecordContent(data: Doc, from: string, delivery: Delivery, id: Id, now: int)
    requires "to" in data && data["to"].Str?
    ensures var d := FinalRecord(data, from, delivery, id, now);
      && "to" in d && d["to"] == Str(ToLower(data["to"].s)) && ToLower(d["to"].s) == d["to"].s
      && "from" in d && d["from"] == Str(ToLower(from))
      && "subject" in d && d["subject"] == Field(data, "subject") && "body" in d && d["body"] == Field(data, "body")
  {
    var pending := PendingRecord(data, from);
    var stamped := Stamped(pending, id, now);
    assert stamped["to"] == pending["to"] && stamped["from"] == pending["from"];
    assert stamped["subject"] == pending["subject"] && stamped["body"] == pending["body"];
    ToLowerIdempotent(data["to"].s);
  }

  /** Sending announces only changes to e-mail records. */
  lemma SendEventsAreEmail(id: Id, ready: bool, data: Doc, from: Value, deliver: Mail -> Delivery, user: Option<Doc>, now: int)
    ensures forall e :: e in SendEvents(id, ready, data, from, deliver, user, now) ==> e.entityType == EmailEntity
  {
    if SendError(ready, data, from).None? {
      AnnouncedAreEmail(id, Stamped(PendingRecord(data, from.s), id, now),
                        FinalRecord(data, from.s, deliver(MailFor(data, from.s)), id, now), user);
    }
  }

  lemma AnnouncedAreEmail(id: Id, pending: Doc, final: Doc, user: Option<Doc>)
    ensures forall e :: e in Announced(id, pending, final, user) ==> e.entityType == EmailEntity
  {
  }

  /** Nothing is written or announced when the checks fail. */
  lemma SendRefusedWritesNothing(records: map<Id, Doc>, id: Id, ready: bool, data: Doc, from: Value, deliver: Mail -> Delivery, user: Option<Doc>, now: int)
    requires SendError(ready, data, from).Some?
    ensures SendReply(ready, data, from, deliver, id).Err?
    ensures RecordsAfterSend(records, id, ready, data, from, deliver, now) == records
    ensures SendEvents(id, ready, data, from, deliver, user, now) == []
  {
  }

  /** Otherwise exactly one record is added: announced first as `pending`, then as it
    * ends, `sent` exactly when the reply succeeds and `failed` exactly when it fails. */
  lemma SendStatusMachine(records: map<Id, Doc>, id: Id, ready: bool, data: Doc, from: Value, deliver: Mail -> Delivery, user: Option<Doc>, now: int)
    requires id !in records && SendError(ready, data, from).None?
    ensures var after := RecordsAfterSend(records, id, ready, data, from, deliver, now);
      && after.Keys == records.Keys + {id}
      && "status" in after[id]
      && (after[id]["status"] == Str("sent") <==> SendReply(ready, data, from, deliver, id).Ok?)
      && (after[id]["status"] == Str("failed") <==> SendReply(ready, data, from, deliver, id).Err?)
  {
    var delivery := deliver(MailFor(data, from.s));
    var d := FinalRecord(data, from.s, delivery, id, now);
    FinalRecordStatus(data, from.s, delivery, id, now);
    AddedKey(records, id, d);
    ReplyFollowsDelivery(ready, data, from, deliver, id);
  }

  /** Past the checks, the reply succeeds exactly when the transport delivers. */
  lemma ReplyFollowsDelivery(ready: bool, data: Doc, from: Value, deliver: Mail -> Delivery, id: Id)
    requires SendError(ready, data, from).None?
    ensures SendReply(ready, data, from, deliver, id).Ok? <==> deliver(MailFor(data, from.s)).Delivered?
  {
  }

  /** The two announcements: the record as created, `pending`, then the record as it ends. */
  lemma SendAnnouncements(id: Id, ready: bool, data: Doc, from: Value, deliver: Mail -> Delivery, user: Option<Doc>, now: int)
    requires SendError(ready, data, from).None?
    ensures var events := SendEvents(id, ready, data, from, deliver, user, now);
      && |events| == 2 && events[0].Created? && "status" in events[0].entity && events[0].entity["status"] == Str("pending")
      && events[1].Updated? && events[1].before == Some(events[0].entity)
      && events[1].after == FinalRecord(data, from.s, deliver(MailFor(data, from.s)), id, now)
  {
    PendingStamped(data, from.s, id, now);
  }

  /** The record as inserted is `pending` and not yet sent. */
  lemma PendingStamped(data: Doc, from: string, id: Id, now: int)
    requires "to" in data && data["to"].Str?
    ensures var d := Stamped(PendingRecord(data, from), id, now);
      "status" in d && d["status"] == Str("pending") && "sentAt" !in d
  {
    assert "status" !in {"_id", "createdAt", "updatedAt"};
  }
}
