// Outgoing e-mail (api/services/email.js): every message is first recorded as
// `pending`, then handed to the SMTP transport, and the record ends `sent` or
// `failed`.  The transport, the HTML layouts and the date formatting are
// parameters; the message texts come from the configurable templates.

module Emails {
  import opened Wrappers
  import opened Strings
  import opened Values
  import opened Store
  import opened Schemas
  import opened Lifecycle
  import opened EntityServices
  import opened EmailTemplates

  const NotInitialised: string := "Email service not initialized"
  const MissingEmailFields: string := "Missing required email fields: to, subject, body, emailType"
  const AddressNotText: string := "TypeError: toLowerCase is not a function"
  const SendFailedPrefix: string := "Failed to send email: "
  const EmailEntity: string := "Email"

  /** The message handed to the transport; `html` says whether the body travels as
    * the `html` part or the `text` part. */
  datatype Mail = Mail(from: string, to: Value, subject: Value, html: bool, content: Value)

  /** What the transport reports for one message. */
  datatype Delivery = Delivered(messageId: string, response: string) | Rejected(reason: string)

  /** `{success: true, messageId, emailId}`. */
  datatype SendReceipt = SendReceipt(messageId: string, emailId: Id)

  /** A field of the e-mail data, `undefined` reading as null. */
  function Field(data: Doc, k: string): Value
  {
    if k in data then data[k] else Null
  }

  /** `bodyType = 'html'`: the default applies only when the field is undefined. */
  function BodyType(data: Doc): Value
  {
    if "bodyType" in data then data["bodyType"] else Str("html")
  }

  /** `CONFIG.SMTP_FROM || CONFIG.SMTP_USER`. */
  function SenderAddress(smtpFrom: Value, smtpUser: Value): Value
  {
    if Truthy(smtpFrom) then smtpFrom else smtpUser
  }

  /** Why `sendEmail` stops before writing anything, if it does. */
  function SendError(ready: bool, data: Doc, from: Value): Option<string>
  {
    if !ready then Some(NotInitialised)
    else if !FieldTruthy(data, "to") || !FieldTruthy(data, "subject") || !FieldTruthy(data, "body") || !FieldTruthy(data, "emailType") then
      Some(MissingEmailFields)
    else if !data["to"].Str? || !from.Str? then Some(AddressNotText)
    else None
  }

  /** The optional fields, left out of the record when undefined. */
  function Optional(data: Doc): Doc
  {
    (if "groupKey" in data then map["groupKey" := data["groupKey"]] else map[]) +
    (if "userId" in data then map["userId" := data["userId"]] else map[])
  }

  /** The record inserted before sending, as the schema shapes it. */
  function PendingRecord(data: Doc, from: string): (d: Doc)
    requires "to" in data && data["to"].Str?
    ensures "to" in d && d["to"] == Str(ToLower(data["to"].s)) && "from" in d && d["from"] == Str(ToLower(from))
    ensures "status" in d && d["status"] == Str("pending")
    ensures "subject" in d && d["subject"] == Field(data, "subject") && "body" in d && d["body"] == Field(data, "body")
    ensures "sentAt" !in d
  {
    Optional(data)["isActive" := Bool(true)]["bodyType" := BodyType(data)]["emailType" := Field(data, "emailType")]
      ["metadata" := Obj(if "templateData" in data then [("templateData", data["templateData"])] else [])]
      ["subject" := Field(data, "subject")]["body" := Field(data, "body")]
      ["from" := Str(ToLower(from))]["to" := Str(ToLower(data["to"].s))]["status" := Str("pending")]
  }

  /** The pending record already has the schema's shape, so the save stores it as
    * built. */
  lemma PendingRecordConforms(data: Doc, from: string, now: int)
    requires "to" in data && data["to"].Str?
    ensures Cast(EmailSchema, PendingRecord(data, from), now) == PendingRecord(data, from)
  {
    assert Optional(data).Keys <= {"groupKey", "userId"};
    CastConforming(EmailSchema, PendingRecord(data, from), now);
  }

  /** The message handed to the transport. */
  function MailFor(data: Doc, from: string): (m: Mail)
    ensures m.html <==> BodyType(data) == Str("html")
    ensures m.content == Field(data, "body") && m.to == Field(data, "to")
  {
    Mail(from, Field(data, "to"), Field(data, "subject"), BodyType(data) == Str("html"), Field(data, "body"))
  }

  /** The update that closes the record once the transport has answered. */
  function Outcome(delivery: Delivery, now: int): (u: Doc)
    ensures "status" in u && "_id" !in u && "updatedAt" !in u
    ensures u["status"] == Str(if delivery.Delivered? then "sent" else "failed")
    ensures delivery.Delivered? ==> "messageId" in u && u["messageId"] == Str(delivery.messageId) && "sentAt" in u && u["sentAt"] == Num(now)
    ensures delivery.Rejected? ==> "errorMessage" in u && u["errorMessage"] == Str(delivery.reason) && "sentAt" !in u
    ensures "to" !in u && "from" !in u && "subject" !in u && "body" !in u
    ensures u.Keys <= Paths(EmailSchema)
  {
    match delivery
    case Delivered(messageId, response) =>
      map["status" := Str("sent"), "messageId" := Str(messageId), "response" := Str(response), "sentAt" := Num(now)]
    case Rejected(reason) =>
      map["status" := Str("failed"), "errorMessage" := Str(reason)]
  }

  /** The record as the send leaves it. */
  function FinalRecord(data: Doc, from: string, delivery: Delivery, id: Id, now: int): Doc
    requires "to" in data && data["to"].Str?
  {
    Patched(Stamped(PendingRecord(data, from), id, now), Outcome(delivery, now), {}, now)
  }

  /** The reply `sendEmail` gives. */
  function SendReply(ready: bool, data: Doc, from: Value, deliver: Mail -> Delivery, id: Id): Result<SendReceipt>
  {
    if SendError(ready, data, from).Some? then Err(SendError(ready, data, from).value)
    else match deliver(MailFor(data, from.s))
      case Delivered(messageId, _) => Ok(SendReceipt(messageId, id))
      case Rejected(reason) => Err(SendFailedPrefix + reason)
  }

  /** The stored e-mails after `sendEmail`. */
  function RecordsAfterSend(records: map<Id, Doc>, id: Id, ready: bool, data: Doc, from: Value, deliver: Mail -> Delivery, now: int): map<Id, Doc>
  {
    if SendError(ready, data, from).Some? then records
    else records[id := FinalRecord(data, from.s, deliver(MailFor(data, from.s)), id, now)]
  }

  /** The announcements `sendEmail` makes: the pending record's creation, then its
    * move to `sent` or `failed`. */
  function SendEvents(id: Id, ready: bool, data: Doc, from: Value, deliver: Mail -> Delivery, user: Option<Doc>, now: int): seq<Event>
  {
    if SendError(ready, data, from).Some? then []
    else
      Announced(id, Stamped(PendingRecord(data, from.s), id, now),
                FinalRecord(data, from.s, deliver(MailFor(data, from.s)), id, now), user)
  }

  /** The e-mail records, the next id they will be stored under, and the
    * announcements made so far. */
  datatype Outbox = Outbox(records: map<Id, Doc>, nextId: Id, events: seq<Event>)

  /** Everything `sendEmail` changes: the stored record under the next id, and its
    * two announcements, unless it stops before writing. */
  function AfterSend(o: Outbox, ready: bool, data: Doc, from: Value, deliver: Mail -> Delivery, user: Option<Doc>, now: int): (r: Outbox)
    ensures SendError(ready, data, from).Some? ==> r == o
    ensures SendError(ready, data, from).None? ==>
      && r.nextId == o.nextId + 1
      && r.records == o.records[o.nextId := FinalRecord(data, from.s, deliver(MailFor(data, from.s)), o.nextId, now)]
      && |r.events| == |o.events| + 2
  {
    Outbox(RecordsAfterSend(o.records, o.nextId, ready, data, from, deliver, now),
           if SendError(ready, data, from).Some? then o.nextId else o.nextId + 1,
           o.events + SendEvents(o.nextId, ready, data, from, deliver, user, now))
  }

  /** The record `sendEmail` leaves under `id` for a message that passed its checks. */
  predicate SentRecord(records: map<Id, Doc>, id: Id, ready: bool, from: Value, d: Doc, deliver: Mail -> Delivery, now: int)
  {
    SendError(ready, d, from).None? && id in records &&
    records[id] == FinalRecord(d, from.s, deliver(MailFor(d, from.s)), id, now)
  }

  /** A send that passes its checks files its record under the next id. */
  lemma SendFiles(ready: bool, from: Value, o: Outbox, d: Doc, deliver: Mail -> Delivery, now: int)
    requires SendError(ready, d, from).None?
    ensures AfterSend(o, ready, d, from, deliver, None, now).nextId == o.nextId + 1
    ensures SentRecord(AfterSend(o, ready, d, from, deliver, None, now).records, o.nextId, ready, from, d, deliver, now)
  {
    var f := FinalRecord(d, from.s, deliver(MailFor(d, from.s)), o.nextId, now);
    var r := AfterSend(o, ready, d, from, deliver, None, now);
    assert r.records == o.records[o.nextId := f];
    assert o.nextId in r.records && r.records[o.nextId] == f;
  }

  /** The records, next id and announcements `sendEmail` leaves make up `AfterSend`. */
  lemma AfterSendOf(o: Outbox, ready: bool, d: Doc, from: Value, deliver: Mail -> Delivery, user: Option<Doc>, now: int,
                    records: map<Id, Doc>, nextId: Id, events: seq<Event>)
    requires records == RecordsAfterSend(o.records, o.nextId, ready, d, from, deliver, now)
    requires nextId == if SendError(ready, d, from).Some? then o.nextId else o.nextId + 1
    requires events == o.events + SendEvents(o.nextId, ready, d, from, deliver, user, now)
    ensures Outbox(records, nextId, events) == AfterSend(o, ready, d, from, deliver, user, now)
  {
  }

  /** Every record stored below `bound` in `before` is still there, unchanged, in `after`. */
  predicate Kept(before: map<Id, Doc>, after: map<Id, Doc>, bound: Id)
  {
    forall id :: id in before && id < bound ==> id in after && after[id] == before[id]
  }

  lemma KeptTrans(a: map<Id, Doc>, b: map<Id, Doc>, c: map<Id, Doc>, bound: Id, bound': Id)
    requires Kept(a, b, bound) && Kept(b, c, bound') && bound <= bound'
    ensures Kept(a, c, bound)
  {
  }

  /** A send writes only under the next id. */
  lemma SendKeeps(o: Outbox, ready: bool, d: Doc, from: Value, deliver: Mail -> Delivery, user: Option<Doc>, now: int)
    ensures Kept(o.records, AfterSend(o, ready, d, from, deliver, user, now).records, o.nextId)
  {
    if SendError(ready, d, from).None? {
      var f := FinalRecord(d, from.s, deliver(MailFor(d, from.s)), o.nextId, now);
      assert AfterSend(o, ready, d, from, deliver, user, now).records == o.records[o.nextId := f];
      KeptUpdate(o.records, o.nextId, f);
    }
  }

  /** Writing under `id` keeps everything stored below it. */
  lemma KeptUpdate(m: map<Id, Doc>, id: Id, v: Doc)
    ensures Kept(m, m[id := v], id)
  {
  }

  /** The creation of the pending record, then its update to the final one. */
  function Announced(id: Id, pending: Doc, final: Doc, user: Option<Doc>): seq<Event>
  {
    [Created(EmailEntity, pending, user), Updated(EmailEntity, id, Some(pending), final, user)]
  }

  // ---- _buildRegistrationFieldsHtml ---------------------------------------------------

  const MapNotAFunction: string := "TypeError: registrationFields.map is not a function"
  const FieldIsNull: string := "TypeError: Cannot read properties of null (reading 'name')"
  const DetailsOpen: string := "<h3 style=\"margin-top: 24px;\">Registration Details</h3><table style=\"width: 100%; border-collapse: collapse; margin-bottom: 16px;\">"
  const DetailsClose: string := "</table>"
  const RowOpen: string := "<tr><td style=\"padding: 8px 12px; border-bottom: 1px solid #e9ecef; font-weight: 500; color: #555;\">"
  const RowMiddle: string := "</td><td style=\"padding: 8px 12px; border-bottom: 1px solid #e9ecef;\">"
  const RowClose: string := "</td></tr>"

  /** `v[name]`; `None` is `undefined` (values other than objects are read as having
    * no properties). */
  function Property(v: Value, name: string): Option<Value>
  {
    if v.Obj? then ObjGet(v.entries, name) else None
  }

  /** `${v[name]}` in a template literal. */
  function PropertyText(v: Value, name: string): string
  {
    match Property(v, name)
    case None => "undefined"
    case Some(x) => JsString(x)
  }

  /** A submitted value worth a row: not undefined, null or `''`. */
  predicate Shown(v: Option<Value>)
  {
    v.Some? && v.value != Null && v.value != Str("")
  }

  /** Booleans read Yes/No; anything else is converted to text. */
  function DisplayValue(v: Value): string
  {
    if v.Bool? then (if v.b then "Yes" else "No") else JsString(v)
  }

  /** The submitted value for a field definition. */
  function Submitted(formData: Value, field: Value): Option<Value>
  {
    Property(formData, PropertyText(field, "name"))
  }

  /** One table row, or `''` when the value is not shown. */
  function FieldRow(formData: Value, field: Value): (row: string)
    ensures row != "" <==> Shown(Submitted(formData, field))
  {
    var v := Submitted(formData, field);
    if Shown(v) then RowOpen + PropertyText(field, "label") + RowMiddle + DisplayValue(v.value) + RowClose else ""
  }

  /** The rows of every field definition, in order. */
  function Rows(formData: Value, fields: seq<Value>): string
  {
    if |fields| == 0 then ""
    else Rows(formData, fields[..|fields| - 1]) + FieldRow(formData, fields[|fields| - 1])
  }

  /** `_buildRegistrationFieldsHtml(formData, registrationFields)`; reading the name of
    * a null definition throws. */
  function RegistrationFieldsHtml(formData: Value, fields: Value): Result<string>
  {
    if !Truthy(formData) || !Truthy(fields) then Ok("")
    else if fields.Arr? && |fields.items| == 0 then Ok("")
    else if !fields.Arr? then Err(MapNotAFunction)
    else if Null in fields.items then Err(FieldIsNull)
    else
      var rows := Rows(formData, fields.items);
      if rows == "" then Ok("") else Ok(DetailsOpen + rows + DetailsClose)
  }

  /** One more field definition adds its row at the end. */
  lemma RowsSnoc(formData: Value, s: seq<Value>, x: Value)
    ensures Rows(formData, s + [x]) == Rows(formData, s) + FieldRow(formData, x)
  {
    assert (s + [x])[..|s|] == s;
  }

  lemma ConcatAssoc(p: string, q: string, r: string)
    ensures (p + q) + r == p + (q + r)
  {
  }

  /** Rows follow the order of the field definitions. */
  lemma {:induction false} RowsAppend(formData: Value, a: seq<Value>, b: seq<Value>)
    ensures Rows(formData, a + b) == Rows(formData, a) + Rows(formData, b)
    decreases |b|
  {
    if |b| == 0 {
      assert a + b == a;
    } else {
      var b', x := b[..|b| - 1], b[|b| - 1];
      assert b == b' + [x];
      assert a + b == (a + b') + [x];
      RowsSnoc(formData, a + b', x);
      RowsSnoc(formData, b', x);
      RowsAppend(formData, a, b');
      ConcatAssoc(Rows(formData, a), Rows(formData, b'), FieldRow(formData, x));
    }
  }

  /** No field in the list has a value to show. */
  predicate NoneShown(formData: Value, fields: seq<Value>)
  {
    forall i :: 0 <= i < |fields| ==> !Shown(Submitted(formData, fields[i]))
  }

  lemma RowsSnocEmpty(formData: Value, fields: seq<Value>)
    requires |fields| > 0
    ensures Rows(formData, fields) == "" <==>
      Rows(formData, fields[..|fields| - 1]) == "" && !Shown(Submitted(formData, fields[|fields| - 1]))
  {
    var a := Rows(formData, fields[..|fields| - 1]);
    var b := FieldRow(formData, fields[|fields| - 1]);
    assert |a + b| == |a| + |b|;
  }

  lemma NoneShownSnoc(formData: Value, fields: seq<Value>)
    requires |fields| > 0
    ensures NoneShown(formData, fields) <==>
      NoneShown(formData, fields[..|fields| - 1]) && !Shown(Submitted(formData, fields[|fields| - 1]))
  {
    var front := fields[..|fields| - 1];
    assert forall i :: 0 <= i < |front| ==> front[i] == fields[i];
  }

  /** The rows are empty exactly when no field has a value to show. */
  lemma {:induction false} RowsEmpty(formData: Value, fields: seq<Value>)
    ensures Rows(formData, fields) == "" <==> NoneShown(formData, fields)
  {
    if |fields| > 0 {
      RowsEmpty(formData, fields[..|fields| - 1]);
      RowsSnocEmpty(formData, fields);
      NoneShownSnoc(formData, fields);
    }
  }

  /** `''` when the form data is missing, the definitions are empty or missing, or no
    * value is shown; otherwise a titled table of the rows. */
  lemma RegistrationFieldsHtmlEmpty(formData: Value, fields: Value)
    requires RegistrationFieldsHtml(formData, fields).Ok?
    ensures RegistrationFieldsHtml(formData, fields).value == "" <==>
      !Truthy(formData) || !Truthy(fields) ||
      (fields.Arr? && NoneShown(formData, fields.items))
    ensures RegistrationFieldsHtml(formData, fields).value != "" ==>
      RegistrationFieldsHtml(formData, fields).value == DetailsOpen + Rows(formData, fields.items) + DetailsClose
  {
    if Truthy(formData) && Truthy(fields) && fields.Arr? {
      RowsEmpty(formData, fields.items);
    }
  }

  // ---- the three messages ---------------------------------------------------------------

  /** The HTML shells and the date formatting the messages use. */
  datatype Layouts = Layouts(
    wrap: string -> string,
    passwordReset: string -> string,
    registrationConfirmation: Doc -> string,
    adminNotification: (Value, Value, Value, string) -> string,
    formatDate: Value -> string)

  /** A stored template is used only when resolution did not fall back to the
    * built-in one. */
  predicate Customised(resolved: Option<Resolved>)
  {
    resolved.Some? && resolved.value.source != DefaultSource
  }

  /** A custom template is used exactly when an active template for the type (for the
    * event, or a global one) is stored. */
  lemma CustomisedIffStored(docs: seq<Doc>, defaults: seq<(string, DefaultTemplate)>, templateType: Value, eventId: Value)
    ensures Customised(ResolveTemplate(docs, defaults, templateType, eventId)) <==>
      (Truthy(eventId) && exists d :: d in docs && Matches(d, ActiveQuery(templateType, eventId))) ||
      exists d :: d in docs && Matches(d, ActiveQuery(templateType, Null))
  {
    ResolutionPrecedence(docs, defaults, templateType, eventId);
  }

  /** A message's subject and body. */
  datatype Message = Message(subject: string, body: string)

  const ResetSubject: string := "Password Reset - Clay Humane Events"

  /** `sendPasswordResetEmail`'s message. */
  function PasswordResetMessage(resolved: Option<Resolved>, layouts: Layouts, resetUrl: string): Message
  {
    if Customised(resolved) then
      var vars := [("resetUrl", Str(resetUrl))];
      Message(Substitute(JsString(resolved.value.subject), vars),
              layouts.wrap(Substitute(JsString(resolved.value.body), vars)))
    else Message(ResetSubject, layouts.passwordReset(resetUrl))
  }

  /** `${data.k}`: `undefined` when absent. */
  function Interpolated(data: Doc, k: string): string
  {
    if k in data then JsString(data[k]) else "undefined"
  }

  /** The variables of a registration confirmation. */
  function RegistrationVars(data: Doc, layouts: Layouts): Result<seq<(string, Value)>>
  {
    var formatted := if FieldTruthy(data, "eventDate") then layouts.formatDate(data["eventDate"]) else "";
    var dateHtml := if formatted != "" then "<p><strong>Date:</strong> " + formatted + "</p>" else "";
    var aboutHtml := if FieldTruthy(data, "eventDescription") then "<p><strong>About:</strong> " + JsString(data["eventDescription"]) + "</p>" else "";
    match RegistrationFieldsHtml(Field(data, "formData"), Field(data, "registrationFields"))
    case Err(m) => Err(m)
    case Ok(fieldsHtml) =>
      Ok([("registrantName", if FieldTruthy(data, "registrantName") then data["registrantName"] else Str("")),
          ("eventName", if FieldTruthy(data, "eventName") then data["eventName"] else Str("")),
          ("eventDate", Str(dateHtml)), ("eventDescription", Str(aboutHtml)), ("registrationFields", Str(fieldsHtml))])
  }

  /** `sendRegistrationConfirmationEmail`'s message. */
  function RegistrationMessage(resolved: Option<Resolved>, layouts: Layouts, data: Doc): Result<Message>
  {
    if Customised(resolved) then
      match RegistrationVars(data, layouts)
      case Err(m) => Err(m)
      case Ok(vars) =>
        Ok(Message(Substitute(JsString(resolved.value.subject), vars),
                   layouts.wrap(Substitute(JsString(resolved.value.body), vars))))
    else Ok(Message("Registration Confirmed - " + Interpolated(data, "eventName"), layouts.registrationConfirmation(data)))
  }

  /** The action button of an admin notification, present only with a link. */
  function ActionButton(actionUrl: Value, actionText: string): string
  {
    if Truthy(actionUrl) then
      "<div style=\"text-align: center; margin: 30px 0;\"><a href=\"" + JsString(actionUrl) +
      "\" style=\"background-color: #2c5f2d; color: white; padding: 12px 30px; text-decoration: none; border-radius: 5px; font-weight: bold; display: inline-block;\">" +
      actionText + "</a></div>"
    else ""
  }

  /** `actionText = 'View Details'`. */
  function ActionText(actionText: Option<string>): string
  {
    if actionText.Some? then actionText.value else "View Details"
  }

  /** `sendAdminNotificationEmail`'s message. */
  function AdminMessage(resolved: Option<Resolved>, layouts: Layouts, title: Value, message: Value, actionUrl: Value, actionText: Option<string>): Message
  {
    if Customised(resolved) then
      var vars := [("title", title), ("message", message), ("actionButton", Str(ActionButton(actionUrl, ActionText(actionText))))];
      Message(Substitute(JsString(resolved.value.subject), vars),
              layouts.wrap(Substitute(JsString(resolved.value.body), vars)))
    else
      Message("Admin Notification - " + JsString(title),
              layouts.adminNotification(title, message, actionUrl, ActionText(actionText)))
  }

  /** With no active template stored, resolution never picks a stored one. */
  lemma NothingActiveNotCustomised(docs: seq<Doc>, defaults: seq<(string, DefaultTemplate)>, templateType: Value, eventId: Value)
    requires forall d :: d in docs ==> !MatchesField(d, "isActive", Bool(true))
    ensures !Customised(ResolveTemplate(docs, defaults, templateType, eventId))
  {
    forall d | d in docs ensures !Matches(d, ActiveQuery(templateType, eventId)) && !Matches(d, ActiveQuery(templateType, Null)) {
      ActiveQueryMatch(d, templateType, eventId);
      ActiveQueryMatch(d, templateType, Null);
    }
    CustomisedIffStored(docs, defaults, templateType, eventId);
  }

  /** Without an active stored template the built-in messages are sent. */
  lemma BuiltInMessages(docs: seq<Doc>, defaults: seq<(string, DefaultTemplate)>, layouts: Layouts, resetUrl: string, data: Doc, title: Value, message: Value, actionUrl: Value, actionText: Option<string>)
    requires forall d :: d in docs ==> !MatchesField(d, "isActive", Bool(true))
    ensures PasswordResetMessage(ResolveTemplate(docs, defaults, Str("password_reset"), Null), layouts, resetUrl) ==
      Message(ResetSubject, layouts.passwordReset(resetUrl))
    ensures RegistrationMessage(ResolveTemplate(docs, defaults, Str("registration_confirmation"), Field(data, "eventId")), layouts, data) ==
      Ok(Message("Registration Confirmed - " + Interpolated(data, "eventName"), layouts.registrationConfirmation(data)))
    ensures AdminMessage(ResolveTemplate(docs, defaults, Str("admin_notification"), Null), layouts, title, message, actionUrl, actionText) ==
      Message("Admin Notification - " + JsString(title), layouts.adminNotification(title, message, actionUrl, ActionText(actionText)))
  {
    NothingActiveNotCustomised(docs, defaults, Str("password_reset"), Null);
    NothingActiveNotCustomised(docs, defaults, Str("registration_confirmation"), Field(data, "eventId"));
    NothingActiveNotCustomised(docs, defaults, Str("admin_notification"), Null);
  }

  /** The e-mail data each message is sent with. */
  function ResetEmailData(userEmail: Value, m: Message, resetToken: Value, resetUrl: string): Doc
  {
    map["to" := userEmail, "subject" := Str(m.subject), "body" := Str(m.body), "bodyType" := Str("html"),
        "emailType" := Str("password_reset"), "templateData" := Obj([("resetToken", resetToken), ("resetUrl", Str(resetUrl))])]
  }

  function RegistrationEmailData(data: Doc, m: Message): Doc
  {
    map["to" := Field(data, "email"), "subject" := Str(m.subject), "body" := Str(m.body), "bodyType" := Str("html"),
        "emailType" := Str("registration_confirmation"),
        "templateData" := Obj((if "eventName" in data then [("eventName", data["eventName"])] else []) +
                              (if "eventId" in data then [("eventId", data["eventId"])] else []))] +
    (if "userId" in data then map["userId" := data["userId"]] else map[])
  }

  function AdminEmailData(to: Value, m: Message): Doc
  {
    map["to" := to, "subject" := Str(m.subject), "body" := Str(m.body), "bodyType" := Str("html"), "emailType" := Str("notification")]
  }

  // ---- the service ------------------------------------------------------------------------

  class EmailService {
    const service: EntityService
    const templates: Collection
    const defaults: seq<(string, DefaultTemplate)>
    const layouts: Layouts
    /** Whether the SMTP transporter could be created. */
    const ready: bool
    const smtpFrom: Value
    const smtpUser: Value

    ghost predicate Valid()
      reads service.model
    {
      service.Valid() && service.config.entityName == EmailEntity &&
      templates != service.model
    }

    constructor (service: EntityService, templates: Collection, defaults: seq<(string, DefaultTemplate)>, layouts: Layouts,
                 ready: bool, smtpFrom: Value, smtpUser: Value)
      ensures this.service == service && this.templates == templates && this.defaults == defaults && this.layouts == layouts
      ensures this.ready == ready && this.smtpFrom == smtpFrom && this.smtpUser == smtpUser
    {
      this.service := service;
      this.templates := templates;
      this.defaults := defaults;
      this.layouts := layouts;
      this.ready := ready;
      this.smtpFrom := smtpFrom;
      this.smtpUser := smtpUser;
    }

    function From(): Value
    {
      SenderAddress(smtpFrom, smtpUser)
    }

    /** The stored e-mails, the id the next one gets, and the announcements so far. */
    function Box(): Outbox
      reads service.model, service.emitter
    {
      Outbox(service.model.records, service.model.nextId, service.emitter.events)
    }

    /** `sendEmail(emailData, context)`; `deliver` is the transport. */
    method SendEmail(data: Doc, deliver: Mail -> Delivery, user: Option<Doc>, now: int) returns (r: Result<SendReceipt>)
      requires Valid()
      modifies service.model, service.emitter
      ensures Valid()
      ensures r == SendReply(ready, data, From(), deliver, old(service.model.nextId))
      ensures service.model.records == RecordsAfterSend(old(service.model.records), old(service.model.nextId), ready, data, From(), deliver, now)
      ensures service.emitter.events == old(service.emitter.events) + SendEvents(old(service.model.nextId), ready, data, From(), deliver, user, now)
      ensures service.model.nextId == if SendError(ready, data, From()).Some? then old(service.model.nextId) else old(service.model.nextId) + 1
    {
      var problem := SendError(ready, data, From());
      if problem.Some? {
        return Err(problem.value);
      }
      var from := From().s;
      r := Dispatch(data, from, deliver(MailFor(data, from)), user, now);
    }

    /** The write `sendEmail` makes around the hand-over, once its checks pass;
      * `delivery` is the transport's answer. */
    method Dispatch(data: Doc, from: string, delivery: Delivery, user: Option<Doc>, now: int) returns (r: Result<SendReceipt>)
      requires Valid() && "to" in data && data["to"].Str?
      modifies service.model, service.emitter
      ensures Valid()
      ensures r == if delivery.Delivered? then Ok(SendReceipt(delivery.messageId, old(service.model.nextId))) else Err(SendFailedPrefix + delivery.reason)
      ensures service.model.records == old(service.model.records)[old(service.model.nextId) := FinalRecord(data, from, delivery, old(service.model.nextId), now)]
      ensures service.model.nextId == old(service.model.nextId) + 1
      ensures service.emitter.events == old(service.emitter.events) +
        [Created(EmailEntity, Stamped(PendingRecord(data, from), old(service.model.nextId), now), user),
         Updated(EmailEntity, old(service.model.nextId), Some(Stamped(PendingRecord(data, from), old(service.model.nextId), now)),
                 FinalRecord(data, from, delivery, old(service.model.nextId), now), user)]
    {
      ghost var before: map<Id, Doc> := service.model.records;
      ghost var announced := service.emitter.events;
      var id := Open(data, from, user, now);
      ghost var pending := Stamped(PendingRecord(data, from), id, now);
      ghost var created := Created(EmailEntity, pending, user);
      Close(data, from, id, delivery, user, now);
      Overwrite(before, id, pending, FinalRecord(data, from, delivery, id, now));
      AppendTwo(announced, created, Updated(EmailEntity, id, Some(pending), FinalRecord(data, from, delivery, id, now), user));
      match delivery {
        case Delivered(messageId, _) =>
          r := Ok(SendReceipt(messageId, id));
        case Rejected(reason) =>
          r := Err(SendFailedPrefix + reason);
      }
    }

    /** Record the message as `pending`. */
    method Open(data: Doc, from: string, user: Option<Doc>, now: int) returns (id: Id)
      requires Valid() && "to" in data && data["to"].Str?
      modifies service.model, service.emitter
      ensures Valid() && id == old(service.model.nextId) && service.model.nextId == id + 1
      ensures service.model.records == old(service.model.records)[id := Stamped(PendingRecord(data, from), id, now)]
      ensures service.emitter.events == old(service.emitter.events) + [Created(EmailEntity, Stamped(PendingRecord(data, from), id, now), user)]
    {
      SchemasByName();
      PendingRecordConforms(data, from, now);
      var record := service.InsertEntity(PendingRecord(data, from), user, now);
      id := record["_id"].n;
    }

    /** Close a recorded message with the transport's answer. */
    method Close(data: Doc, from: string, id: Id, delivery: Delivery, user: Option<Doc>, now: int)
      requires Valid() && "to" in data && data["to"].Str?
      requires id in service.model.records && service.model.records[id] == Stamped(PendingRecord(data, from), id, now)
      modifies service.model, service.emitter
      ensures Valid() && service.model.nextId == old(service.model.nextId)
      ensures service.model.records == old(service.model.records)[id := FinalRecord(data, from, delivery, id, now)]
      ensures service.emitter.events == old(service.emitter.events) +
        [Updated(EmailEntity, id, Some(Stamped(PendingRecord(data, from), id, now)), FinalRecord(data, from, delivery, id, now), user)]
    {
      SchemasByName();
      CastPatchDeclared(EmailSchema, Outcome(delivery, now));
      var closed := service.UpdateEntity(id, Outcome(delivery, now), user, now);
    }

    /** `sendPasswordResetEmail(userEmail, resetToken, resetUrl, context)`. */
    method SendPasswordResetEmail(userEmail: Value, resetToken: Value, resetUrl: string, deliver: Mail -> Delivery, user: Option<Doc>, now: int)
      returns (r: Result<SendReceipt>)
      requires Valid()
      modifies service.model, service.emitter
      ensures Valid()
      ensures var d := ResetEmailData(userEmail, PasswordResetMessage(ResolveTemplate(templates.Documents(), defaults, Str("password_reset"), Null), layouts, resetUrl), resetToken, resetUrl);
        && r == SendReply(ready, d, From(), deliver, old(service.model.nextId))
        && service.model.records == RecordsAfterSend(old(service.model.records), old(service.model.nextId), ready, d, From(), deliver, now)
        && service.emitter.events == old(service.emitter.events) + SendEvents(old(service.model.nextId), ready, d, From(), deliver, user, now)
        && service.model.nextId == (if SendError(ready, d, From()).Some? then old(service.model.nextId) else old(service.model.nextId) + 1)
        && Box() == AfterSend(old(Box()), ready, d, From(), deliver, user, now)
    {
      var resolved := ResolveTemplate(templates.Documents(), defaults, Str("password_reset"), Null);
      var m := PasswordResetMessage(resolved, layouts, resetUrl);
      ghost var o := Box();
      r := SendEmail(ResetEmailData(userEmail, m, resetToken, resetUrl), deliver, user, now);
      AfterSendOf(o, ready, ResetEmailData(userEmail, m, resetToken, resetUrl), From(), deliver, user, now,
                  service.model.records, service.model.nextId, service.emitter.events);
    }

    /** `sendRegistrationConfirmationEmail(data, context)`. */
    method SendRegistrationConfirmationEmail(data: Doc, deliver: Mail -> Delivery, user: Option<Doc>, now: int) returns (r: Result<SendReceipt>)
      requires Valid()
      modifies service.model, service.emitter
      ensures Valid()
      ensures var m := RegistrationMessage(ResolveTemplate(templates.Documents(), defaults, Str("registration_confirmation"), Field(data, "eventId")), layouts, data);
        && (m.Err? ==> r == Err(m.msg) && service.model.records == old(service.model.records)
                       && service.model.nextId == old(service.model.nextId) && service.emitter.events == old(service.emitter.events))
        && (m.Ok? ==> service.model.nextId == if SendError(ready, RegistrationEmailData(data, m.value), From()).Some?
                                              then old(service.model.nextId) else old(service.model.nextId) + 1)
        && (m.Ok? ==> r == SendReply(ready, RegistrationEmailData(data, m.value), From(), deliver, old(service.model.nextId)))
        && (m.Ok? ==> service.model.records == RecordsAfterSend(old(service.model.records), old(service.model.nextId), ready,
                        RegistrationEmailData(data, m.value), From(), deliver, now))
        && (m.Ok? ==> service.emitter.events == old(service.emitter.events) +
                        SendEvents(old(service.model.nextId), ready, RegistrationEmailData(data, m.value), From(), deliver, user, now))
        && (m.Ok? ==> Box() == AfterSend(old(Box()), ready, RegistrationEmailData(data, m.value), From(), deliver, user, now))
    {
      var resolved := ResolveTemplate(templates.Documents(), defaults, Str("registration_confirmation"), Field(data, "eventId"));
      var m := RegistrationMessage(resolved, layouts, data);
      if m.Err? {
        return Err(m.msg);
      }
      ghost var o := Box();
      r := SendEmail(RegistrationEmailData(data, m.value), deliver, user, now);
      AfterSendOf(o, ready, RegistrationEmailData(data, m.value), From(), deliver, user, now,
                  service.model.records, service.model.nextId, service.emitter.events);
    }

    /** `sendAdminNotificationEmail(to, title, message, actionUrl, actionText, context)`. */
    method SendAdminNotificationEmail(to: Value, title: Value, message: Value, actionUrl: Value, actionText: Option<string>,
                                      deliver: Mail -> Delivery, user: Option<Doc>, now: int) returns (r: Result<SendReceipt>)
      requires Valid()
      modifies service.model, service.emitter
      ensures Valid()
      ensures var d := AdminEmailData(to, AdminMessage(ResolveTemplate(templates.Documents(), defaults, Str("admin_notification"), Null), layouts, title, message, actionUrl, actionText));
        && r == SendReply(ready, d, From(), deliver, old(service.model.nextId))
        && service.model.records == RecordsAfterSend(old(service.model.records), old(service.model.nextId), ready, d, From(), deliver, now)
        && service.emitter.events == old(service.emitter.events) + SendEvents(old(service.model.nextId), ready, d, From(), deliver, user, now)
        && service.model.nextId == (if SendError(ready, d, From()).Some? then old(service.model.nextId) else old(service.model.nextId) + 1)
        && Box() == AfterSend(old(Box()), ready, d, From(), deliver, user, now)
    {
      var resolved := ResolveTemplate(templates.Documents(), defaults, Str("admin_notification"), Null);
      var m := AdminMessage(resolved, layouts, title, message, actionUrl, actionText);
      ghost var o := Box();
      var d := AdminEmailData(to, m);
      r := SendEmail(d, deliver, user, now);
      assert resolved == ResolveTemplate(templates.Documents(), defaults, Str("admin_notification"), Null);
      AfterSendOf(o, ready, d, From(), deliver, user, now,
                  service.model.records, service.model.nextId, service.emitter.events);
    }
  }
}
