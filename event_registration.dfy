// Public event registration (api/services/eventRegistration.js and the
// EventRegistration schema and model).  A registration is checked, its
// registrant found or created as a lightweight user, refused when that user is
// already registered for the event, stored, announced, and then confirmed by
// e-mail to the registrant and to every active administrator; the e-mails never
// decide the outcome.

module EventRegistrations {
  import opened Wrappers
  import opened Strings
  import opened Values
  import opened DocOrdering
  import opened Store
  import opened Schemas
  import opened Lifecycle
  import opened EntityServices
  import opened ApiHelpers
  import opened EmailTemplates
  import opened Emails
  import opened EmailSends
  import Users

  const RegistrationEntity := "EventRegistration"

  const EventIdRequired := "Event ID is required!"
  const EmailRequired := "A valid email address is required!"
  const NamesRequired := "First name and last name are required!"
  const EventNotFound := "Event not found!"
  const RegistrationClosed := "Registration is not open for this event!"
  const AlreadyRegistered := "You are already registered for this event!"
  const CastFailed := "Cast to ObjectId failed"

  // ---- the checks before anything is written -----------------------------------------

  /** The event a registration is for, or the first check that fails: event id,
    * e-mail address, both names, the event's existence, then its being active and
    * open. */
  function CheckRegistration(data: Doc, events: map<Id, Doc>): (r: Result<Doc>)
    ensures r.Ok? <==>
      Truthy(Field(data, "eventId")) && IsValidEmail(Field(data, "email")) &&
      Truthy(Field(data, "firstName")) && Truthy(Field(data, "lastName")) &&
      Field(data, "eventId").Num? && Field(data, "eventId").n >= 0 && Field(data, "eventId").n in events &&
      FieldTruthy(events[Field(data, "eventId").n], "isActive") &&
      FieldTruthy(events[Field(data, "eventId").n], "registrationOpen")
    ensures r.Ok? ==> r.value == events[Field(data, "eventId").n]
    ensures !Truthy(Field(data, "eventId")) ==> r == Err(EventIdRequired)
    ensures Truthy(Field(data, "eventId")) && !IsValidEmail(Field(data, "email")) ==> r == Err(EmailRequired)
  {
    var eventId := Field(data, "eventId");
    if !Truthy(eventId) then Err(EventIdRequired)
    else if !IsValidEmail(Field(data, "email")) then Err(EmailRequired)
    else if !Truthy(Field(data, "firstName")) || !Truthy(Field(data, "lastName")) then Err(NamesRequired)
    else if !(eventId.Num? && eventId.n >= 0) then Err(CastFailed)
    else if eventId.n !in events then Err(EventNotFound)
    else
      var event := events[eventId.n];
      if !FieldTruthy(event, "isActive") || !FieldTruthy(event, "registrationOpen") then Err(RegistrationClosed)
      else Ok(event)
  }

  /** A registration for a closed or inactive event is refused with its own message
    * once the earlier checks pass. */
  lemma ClosedEventRefused(data: Doc, events: map<Id, Doc>)
    requires Truthy(Field(data, "eventId")) && IsValidEmail(Field(data, "email"))
    requires Truthy(Field(data, "firstName")) && Truthy(Field(data, "lastName"))
    requires Field(data, "eventId").Num? && Field(data, "eventId").n >= 0 && Field(data, "eventId").n in events
    ensures var event := events[Field(data, "eventId").n];
      !FieldTruthy(event, "isActive") || !FieldTruthy(event, "registrationOpen") <==>
      CheckRegistration(data, events) == Err(RegistrationClosed)
  {
  }

  // ---- what is written ---------------------------------------------------------------------

  function EmailOf(data: Doc): string
  {
    if Field(data, "email").Str? then Field(data, "email").s else ""
  }

  /** `formData || {}`. */
  function FormDataOf(data: Doc): Value
  {
    if Truthy(Field(data, "formData")) then data["formData"] else Obj([])
  }

  function Metadata(data: Doc): Value
  {
    Obj((if "registrationIp" in data then [("registrationIp", data["registrationIp"])] else []) +
        (if "userAgent" in data then [("userAgent", data["userAgent"])] else []))
  }

  /** The lightweight account made for a new registrant: a lower-cased address,
    * the hash of a random password, and the plain user role. */
  function NewUserData(data: Doc, hashedPassword: string): Doc
  {
    map["email" := Str(ToLower(EmailOf(data))), "password" := Str(hashedPassword),
        "firstName" := Field(data, "firstName"), "lastName" := Field(data, "lastName"),
        "role" := Str("user"), "metadata" := Metadata(data)]
  }

  /** The lightweight user always carries a password, so the save's required check passes. */
  lemma NewUserValidates(schema: Users.UserSchema, data: Doc, hashedPassword: string, key: string)
    ensures Users.Validate(schema, Users.WithDefaults(NewUserData(data, hashedPassword), key)).None?
  {
    assert "password" in NewUserData(data, hashedPassword);
  }

  function NewUserRecord(schema: Users.UserSchema, data: Doc, hashedPassword: string, key: string, id: Id, now: int): Doc
  {
    Stamped(Users.Strict(schema, Users.WithDefaults(NewUserData(data, hashedPassword), key)), id, now)
  }

  /** So the save of the lightweight user always stores it. */
  lemma NewUserInserted(schema: Users.UserSchema, data: Doc, hashedPassword: string, key: string, id: Id, now: int)
    ensures Users.Inserted(schema, NewUserData(data, hashedPassword), key, id, now)
      == Ok(NewUserRecord(schema, data, hashedPassword, key, id, now))
  {
    NewUserValidates(schema, data, hashedPassword, key);
  }

  function CopyIfGiven(d: Doc, src: Doc, k: string): (r: Doc)
    ensures d.Keys <= r.Keys
    ensures forall j :: j in d && j != k ==> r[j] == d[j]
  {
    if k in src then d[k := src[k]] else d
  }

  /** The registration record: confirmed, with the given form answers or none. */
  function NewRegistration(data: Doc, userId: Value, key: string): (r: Doc)
    ensures "status" in r && "eventId" in r && "userId" in r && "formData" in r
    ensures r["status"] == Str("confirmed") && r["eventId"] == Field(data, "eventId") && r["userId"] == userId
    ensures r["formData"] == if Truthy(Field(data, "formData")) then data["formData"] else Obj([])
  {
    var base := map["key" := Str(key), "eventId" := Field(data, "eventId"), "userId" := userId,
                    "formData" := FormDataOf(data), "status" := Str("confirmed")];
    CopyIfGiven(CopyIfGiven(base, data, "registrationIp"), data, "userAgent")
  }

  /** The record the service builds already has the schema's shape, so the save
    * stores it as built. */
  lemma NewRegistrationConforms(data: Doc, userId: Value, key: string, now: int)
    ensures Cast(RegistrationSchema, NewRegistration(data, userId, key), now) == NewRegistration(data, userId, key)
  {
    var base := map["key" := Str(key), "eventId" := Field(data, "eventId"), "userId" := userId,
                    "formData" := FormDataOf(data), "status" := Str("confirmed")];
    assert NewRegistration(data, userId, key).Keys <= base.Keys + {"registrationIp", "userAgent"};
    CastConforming(RegistrationSchema, NewRegistration(data, userId, key), now);
  }

  function RegistrationQuery(eventId: Value, userId: Value): Doc
  {
    map["eventId" := eventId, "userId" := userId]
  }

  /** `getRegistrationByEventAndUser(eventId, userId)` finds a record. */
  predicate AlreadyIn(docs: seq<Doc>, eventId: Value, userId: Value)
  {
    |Find(docs, RegistrationQuery(eventId, userId))| > 0
  }

  /** The id of the registrant: the found user's, or the one the new user gets. */
  function RegistrantId(found: Option<Doc>, nextUserId: Id): Value
  {
    if found.Some? then FieldValue(found.value, "_id") else Num(nextUserId)
  }

  /** The registrant: the user found by e-mail, or else the one created. */
  function Registrant(found: Option<Doc>, created: Doc): Doc
  {
    if found.Some? then found.value else created
  }

  /** The user in the reply: the registrant with the password and the other
    * private fields removed; a found user is read without its hidden fields. */
  function PublicRegistrant(schema: Users.UserSchema, found: Option<Doc>, u: Doc): (r: Doc)
    ensures forall k :: k in r ==> k in u && k !in PrivateUserFields && r[k] == u[k]
    ensures found.None? ==> forall k :: k in u && k !in PrivateUserFields ==> k in r
    ensures found.Some? ==> forall k :: k in r <==> k in u && k !in PrivateUserFields && k !in schema.hidden
  {
    SanitizeUserForPublic(if found.Some? then Users.Selected(schema, u, {}) else u)
  }

  /** Two registrations of one user for one event. */
  predicate SamePair(a: Doc, b: Doc)
  {
    "eventId" in a && "eventId" in b && "userId" in a && "userId" in b &&
    a["eventId"] == b["eventId"] && a["userId"] == b["userId"]
  }

  ghost predicate UniqueRegistrations(records: map<Id, Doc>)
  {
    forall i, j :: i in records && j in records && i != j ==> !SamePair(records[i], records[j])
  }

  lemma RecordListed(c: Collection, id: Id)
    requires c.Valid() && id in c.records
    ensures c.records[id] in c.Documents()
  {
  }

  lemma PairFound(c: Collection, i: Id, reg: Doc)
    requires c.Valid() && i in c.records && "eventId" in reg && "userId" in reg
    ensures SamePair(c.records[i], reg) ==> AlreadyIn(c.Documents(), reg["eventId"], reg["userId"])
  {
    RecordListed(c, i);
    var q := RegistrationQuery(reg["eventId"], reg["userId"]);
    if SamePair(c.records[i], reg) {
      assert Matches(c.records[i], q);
      assert c.records[i] in Find(c.Documents(), q);
    }
  }

  /** A registration no stored record matches keeps every pair unique. */
  lemma RegisterKeepsUnique(c: Collection, id: Id, reg: Doc)
    requires c.Valid() && UniqueRegistrations(c.records) && id !in c.records
    requires "eventId" in reg && "userId" in reg
    requires !AlreadyIn(c.Documents(), reg["eventId"], reg["userId"])
    ensures UniqueRegistrations(c.records[id := reg])
  {
    var q := RegistrationQuery(reg["eventId"], reg["userId"]);
    forall i | i in c.records ensures !SamePair(c.records[i], reg) {
      PairFound(c, i, reg);
    }
  }

  // ---- the notifications ------------------------------------------------------------------

  /** `${v}` for a field that may be missing. */
  function Text(d: Doc, k: string): string
  {
    if k in d then JsString(d[k]) else "undefined"
  }

  function ConfirmationData(data: Doc, user: Doc, event: Doc): Doc
  {
    var base := map[
      "email" := FieldValue(user, "email"), "userId" := FieldValue(user, "_id"), "eventId" := FieldValue(event, "_id"),
      "registrantName" := Str(JsString(Field(data, "firstName")) + " " + JsString(Field(data, "lastName"))),
      "formData" := FormDataOf(data),
      "registrationFields" := if FieldTruthy(event, "registrationFields") then event["registrationFields"] else Arr([])];
    CopyIfGiven(CopyIfGiven(CopyIfGiven(base, event, "eventName"), event, "eventDate"), event, "eventDescription")
  }

  const AdminTitle := "New Event Registration"

  function AdminNote(data: Doc, event: Doc): string
  {
    JsString(Field(data, "firstName")) + " " + JsString(Field(data, "lastName")) + " (" + JsString(Field(data, "email")) +
    ") has registered for <strong>" + Text(event, "eventName") + "</strong>."
  }

  /** `getAdminUsers()`: active users whose role is admin or superadmin. */
  predicate IsAdminRecord(u: Doc)
  {
    (MatchesField(u, "role", Str("admin")) || MatchesField(u, "role", Str("superadmin"))) &&
    MatchesField(u, "isActive", Bool(true))
  }

  /** The announcements after `before` all concern e-mail records. */
  predicate EmailTail(before: seq<Event>, after: seq<Event>)
  {
    |before| <= |after| && after[..|before|] == before &&
    forall i :: |before| <= i < |after| ==> after[i].entityType == EmailEntity
  }

  lemma EmailTailTrans(a: seq<Event>, b: seq<Event>, c: seq<Event>)
    requires EmailTail(a, b) && EmailTail(b, c)
    ensures EmailTail(a, c)
  {
    assert c[..|a|] == c[..|b|][..|a|];
  }

  /** A send announces only e-mail records, whether or not it delivers. */
  lemma SendTail(before: seq<Event>, id: Id, ready: bool, data: Doc, from: Value, deliver: Mail -> Delivery,
                 user: Option<Doc>, now: int)
    ensures EmailTail(before, before + SendEvents(id, ready, data, from, deliver, user, now))
  {
    SendEventsAreEmail(id, ready, data, from, deliver, user, now);
    EmailOnlyTail(before, SendEvents(id, ready, data, from, deliver, user, now));
  }

  /** A confirmation announces only e-mail records, whether or not its message renders. */
  lemma MessageTail(before: seq<Event>, after: seq<Event>, m: Result<Message>, id: Id, ready: bool,
                    confirmation: Doc, from: Value, deliver: Mail -> Delivery, now: int)
    requires m.Err? ==> after == before
    requires m.Ok? ==> after == before + SendEvents(id, ready, RegistrationEmailData(confirmation, m.value), from, deliver, None, now)
    ensures EmailTail(before, after)
  {
    if m.Ok? {
      SendTail(before, id, ready, RegistrationEmailData(confirmation, m.value), from, deliver, None, now);
    } else {
      assert after[..|before|] == before;
    }
  }

  lemma EmailOnlyTail(before: seq<Event>, tail: seq<Event>)
    requires forall e :: e in tail ==> e.entityType == EmailEntity
    ensures EmailTail(before, before + tail)
  {
    assert (before + tail)[..|before|] == before;
    forall i | |before| <= i < |before + tail| ensures (before + tail)[i].entityType == EmailEntity {
      assert (before + tail)[i] == tail[i - |before|];
    }
  }

  // ---- the e-mail round --------------------------------------------------------------------

  /** What the mailer brings to every send: whether the transport exists, the sender,
    * the stored templates, the built-in ones and the layouts. */
  datatype MailSetup = MailSetup(ready: bool, from: Value, templates: seq<Doc>,
                                 defaults: seq<(string, DefaultTemplate)>, layouts: Layouts)

  /** The message `sendAdminNotificationEmail` sends to one administrator. */
  function AdminMail(setup: MailSetup, admin: Doc, data: Doc, event: Doc): Doc
  {
    AdminEmailData(FieldValue(admin, "email"),
      AdminMessage(ResolveTemplate(setup.templates, setup.defaults, Str("admin_notification"), Null), setup.layouts,
                   Str(AdminTitle), Str(AdminNote(data, event)), Null, None))
  }

  /** The notifications for `admins`, in order. */
  function AdminMails(setup: MailSetup, admins: seq<Doc>, data: Doc, event: Doc): (r: seq<Doc>)
    ensures |r| == |admins| && forall k :: 0 <= k < |admins| ==> r[k] == AdminMail(setup, admins[k], data, event)
  {
    seq(|admins|, k requires 0 <= k < |admins| => AdminMail(setup, admins[k], data, event))
  }

  /** A send that passes its checks and that the transport accepts. */
  predicate Delivers(ready: bool, from: Value, d: Doc, deliver: Mail -> Delivery)
  {
    SendError(ready, d, from).None? && deliver(MailFor(d, from.s)).Delivered?
  }

  /** `sendEmail` succeeds exactly when the send passes its checks and is delivered. */
  lemma ReplyDelivers(ready: bool, d: Doc, from: Value, deliver: Mail -> Delivery, id: Id)
    ensures SendReply(ready, d, from, deliver, id).Ok? <==> Delivers(ready, from, d, deliver)
  {
  }

  /** The outbox after the registrant's confirmation: nothing is sent when its
    * message cannot be rendered. */
  function Confirmed(setup: MailSetup, o: Outbox, confirmation: Doc, deliver: Mail -> Delivery, now: int): (r: Outbox)
    ensures EmailTail(o.events, r.events)
  {
    var m := RegistrationMessage(ResolveTemplate(setup.templates, setup.defaults, Str("registration_confirmation"),
                                                 Field(confirmation, "eventId")), setup.layouts, confirmation);
    if m.Err? then o
    else
      var d := RegistrationEmailData(confirmation, m.value);
      SendTail(o.events, o.nextId, setup.ready, d, setup.from, deliver, None, now);
      AfterSend(o, setup.ready, d, setup.from, deliver, None, now)
  }

  /** The outbox after sending `mails` in turn: each gets one send, and the first
    * send that fails ends the round (its record and announcements stay). */
  function Round(ready: bool, from: Value, o: Outbox, mails: seq<Doc>, deliver: Mail -> Delivery, now: int): (r: Outbox)
    ensures EmailTail(o.events, r.events)
    ensures o.nextId <= r.nextId <= o.nextId + |mails|
    decreases |mails|
  {
    if |mails| == 0 then o
    else
      var next := AfterSend(o, ready, mails[0], from, deliver, None, now);
      SendTail(o.events, o.nextId, ready, mails[0], from, deliver, None, now);
      if Delivers(ready, from, mails[0], deliver) then
        var rest := Round(ready, from, next, mails[1..], deliver, now);
        EmailTailTrans(o.events, next.events, rest.events);
        rest
      else next
  }

  /** One step of the round: the first message is sent, and the round goes on only
    * when that send went through. */
  lemma RoundStep(ready: bool, from: Value, o: Outbox, mails: seq<Doc>, deliver: Mail -> Delivery, now: int)
    requires |mails| > 0
    ensures Round(ready, from, o, mails, deliver, now) ==
      (if Delivers(ready, from, mails[0], deliver)
       then Round(ready, from, AfterSend(o, ready, mails[0], from, deliver, None, now), mails[1..], deliver, now)
       else AfterSend(o, ready, mails[0], from, deliver, None, now))
  {
  }

  /** Every message in `mails` passes its checks and is accepted by the transport. */
  predicate AllDelivered(ready: bool, from: Value, mails: seq<Doc>, deliver: Mail -> Delivery)
    decreases |mails|
  {
    |mails| == 0 || (Delivers(ready, from, mails[0], deliver) && AllDelivered(ready, from, mails[1..], deliver))
  }

  /** When every send goes through, each message gets the next id, and nothing
    * stored before changes. */
  lemma {:induction false} RoundDelivered(ready: bool, from: Value, o: Outbox, mails: seq<Doc>, deliver: Mail -> Delivery, now: int)
    requires AllDelivered(ready, from, mails, deliver)
    ensures var r := Round(ready, from, o, mails, deliver, now);
      && r.nextId == o.nextId + |mails|
      && Kept(o.records, r.records, o.nextId)
    decreases |mails|
  {
    if |mails| > 0 {
      RoundStep(ready, from, o, mails, deliver, now);
      var next := AfterSend(o, ready, mails[0], from, deliver, None, now);
      SendKeeps(o, ready, mails[0], from, deliver, None, now);
      RoundDelivered(ready, from, next, mails[1..], deliver, now);
      KeptTrans(o.records, next.records, Round(ready, from, next, mails[1..], deliver, now).records, o.nextId, next.nextId);
    }
  }

  /** When every send goes through, each message, in order, has the next record. */
  lemma {:induction false} RoundRecords(ready: bool, from: Value, o: Outbox, mails: seq<Doc>, deliver: Mail -> Delivery, now: int)
    requires AllDelivered(ready, from, mails, deliver)
    ensures Filed(Round(ready, from, o, mails, deliver, now).records, o.nextId, ready, from, mails, deliver, now)
    decreases |mails|
  {
    if |mails| > 0 {
      RoundStep(ready, from, o, mails, deliver, now);
      var next := AfterSend(o, ready, mails[0], from, deliver, None, now);
      SendFiles(ready, from, o, mails[0], deliver, now);
      RoundKeeps(ready, from, next, mails[1..], deliver, now, mails[0]);
      RoundRecords(ready, from, next, mails[1..], deliver, now);
    }
  }

  /** A round that goes through leaves the record filed just before it alone. */
  lemma RoundKeeps(ready: bool, from: Value, o: Outbox, mails: seq<Doc>, deliver: Mail -> Delivery, now: int, d: Doc)
    requires AllDelivered(ready, from, mails, deliver)
    requires o.nextId > 0
    requires SentRecord(o.records, o.nextId - 1, ready, from, d, deliver, now)
    ensures SentRecord(Round(ready, from, o, mails, deliver, now).records, o.nextId - 1, ready, from, d, deliver, now)
  {
    RoundDelivered(ready, from, o, mails, deliver, now);
  }

  /** `records` holds, from `id` on, the record of each message of `mails` in turn. */
  predicate Filed(records: map<Id, Doc>, id: Id, ready: bool, from: Value, mails: seq<Doc>, deliver: Mail -> Delivery, now: int)
    decreases |mails|
  {
    |mails| == 0 ||
    (SentRecord(records, id, ready, from, mails[0], deliver, now) && Filed(records, id + 1, ready, from, mails[1..], deliver, now))
  }

  /** A send that fails ends the round: the messages after it are never sent. */
  lemma {:induction false} RoundStops(ready: bool, from: Value, o: Outbox, mails: seq<Doc>, deliver: Mail -> Delivery, now: int, k: int)
    requires 0 <= k < |mails|
    requires !Delivers(ready, from, mails[k], deliver)
    ensures Round(ready, from, o, mails, deliver, now) == Round(ready, from, o, mails[..k + 1], deliver, now)
    ensures Round(ready, from, o, mails, deliver, now).nextId <= o.nextId + k + 1
    decreases k
  {
    var front := mails[..k + 1];
    RoundStep(ready, from, o, mails, deliver, now);
    RoundStep(ready, from, o, front, deliver, now);
    assert front[0] == mails[0];
    if k > 0 {
      var next := AfterSend(o, ready, mails[0], from, deliver, None, now);
      assert mails[1..][k - 1] == mails[k];
      assert front[1..] == mails[1..][..k];
      RoundStops(ready, from, next, mails[1..], deliver, now, k - 1);
    }
  }

  /** The outbox after `registerForEvent`'s e-mails: the confirmation, then the
    * round of administrator notifications. */
  function Notified(setup: MailSetup, o: Outbox, confirmation: Doc, admins: seq<Doc>, data: Doc, event: Doc,
                    deliver: Mail -> Delivery, now: int): (r: Outbox)
    ensures EmailTail(o.events, r.events)
    ensures o.nextId <= r.nextId <= o.nextId + 1 + |admins|
  {
    var c := Confirmed(setup, o, confirmation, deliver, now);
    var r := Round(setup.ready, setup.from, c, AdminMails(setup, admins, data, event), deliver, now);
    EmailTailTrans(o.events, c.events, r.events);
    r
  }

  // ---- listing ------------------------------------------------------------------------------

  /** `getAllRegistrations(filters)`: only a truthy event id and a truthy status
    * become query conditions. */
  function FilterQuery(filters: Doc): (q: Doc)
    ensures q.Keys <= {"eventId", "status"}
    ensures "eventId" in q <==> FieldTruthy(filters, "eventId")
    ensures "status" in q <==> FieldTruthy(filters, "status")
    ensures forall k :: k in q ==> q[k] == filters[k]
  {
    (if FieldTruthy(filters, "eventId") then map["eventId" := filters["eventId"]] else map[]) +
    (if FieldTruthy(filters, "status") then map["status" := filters["status"]] else map[])
  }

  /** Keys other than the event id and the status change nothing. */
  lemma FilterQueryIgnoresRest(filters: Doc, extra: Doc)
    requires forall k :: k in extra ==> k != "eventId" && k != "status"
    ensures FilterQuery(filters + extra) == FilterQuery(filters)
  {
  }

  function AllRegistrations(docs: seq<Doc>, filters: Doc): seq<Doc>
  {
    SortDocs(Find(docs, FilterQuery(filters)), NewestFirst)
  }

  /** The listing holds exactly the registrations of the filtered event with the
    * filtered status, newest first. */
  lemma AllRegistrationsFiltered(docs: seq<Doc>, filters: Doc)
    ensures var r := AllRegistrations(docs, filters);
      (forall d :: d in r <==> (d in docs &&
        (FieldTruthy(filters, "eventId") ==> MatchesField(d, "eventId", filters["eventId"])) &&
        (FieldTruthy(filters, "status") ==> MatchesField(d, "status", filters["status"])))) &&
      Sorted(r, NewestFirst) && multiset(r) == multiset(Find(docs, FilterQuery(filters)))
  {
    var q := FilterQuery(filters);
    SortDocsMembers(Find(docs, q), NewestFirst);
    SortDocsSorted(Find(docs, q), NewestFirst);
  }

  function ByField(docs: seq<Doc>, k: string, v: Value): seq<Doc>
  {
    SortDocs(Find(docs, map[k := v]), NewestFirst)
  }

  /** `getRegistrationsByEvent` / `getRegistrationsByUser`: the matching
    * registrations, newest first. */
  lemma ByFieldNewestFirst(docs: seq<Doc>, k: string, v: Value)
    ensures forall d :: d in ByField(docs, k, v) <==> d in docs && MatchesField(d, k, v)
    ensures Sorted(ByField(docs, k, v), NewestFirst)
  {
    SortDocsMembers(Find(docs, map[k := v]), NewestFirst);
    SortDocsSorted(Find(docs, map[k := v]), NewestFirst);
    forall d ensures Matches(d, map[k := v]) <==> MatchesField(d, k, v) {
      assert k in map[k := v];
    }
  }

  /** `getRegistrationCounts()`: the number of registrations per event id (a
    * record without one counts under null). */
  function Counts(docs: seq<Doc>): (m: map<Value, nat>)
  {
    if |docs| == 0 then map[]
    else
      var m := Counts(docs[..|docs| - 1]);
      var k := FieldValue(docs[|docs| - 1], "eventId");
      m[k := if k in m then m[k] + 1 else 1]
  }

  /** The registrations of the event `v`, as a filter. */
  function OfEvent(v: Value): Doc -> bool
  {
    d => FieldValue(d, "eventId") == v
  }

  function CountOf(docs: seq<Doc>, v: Value): nat
  {
    |Select(docs, OfEvent(v))|
  }

  lemma CountOfSnoc(docs: seq<Doc>, v: Value)
    requires |docs| > 0
    ensures CountOf(docs, v) ==
      CountOf(docs[..|docs| - 1], v) + (if FieldValue(docs[|docs| - 1], "eventId") == v then 1 else 0)
  {
  }

  predicate Occurs(docs: seq<Doc>, v: Value)
  {
    exists d :: d in docs && FieldValue(d, "eventId") == v
  }

  lemma OccursSnoc(docs: seq<Doc>, v: Value)
    requires |docs| > 0
    ensures Occurs(docs, v) <==> Occurs(docs[..|docs| - 1], v) || FieldValue(docs[|docs| - 1], "eventId") == v
  {
    var front := docs[..|docs| - 1];
    assert docs == front + [docs[|docs| - 1]];
    if Occurs(docs, v) && FieldValue(docs[|docs| - 1], "eventId") != v {
      var d :| d in docs && FieldValue(d, "eventId") == v;
      assert d in front;
    }
    if Occurs(front, v) {
      var d :| d in front && FieldValue(d, "eventId") == v;
      assert d in docs;
    }
  }

  /** Every group's count is the number of registrations with that event id, and a
    * group exists exactly for the event ids that occur. */
  lemma {:induction false} CountsExact(docs: seq<Doc>, v: Value)
    ensures v in Counts(docs) <==> Occurs(docs, v)
    ensures v in Counts(docs) ==> Counts(docs)[v] == CountOf(docs, v)
    ensures v !in Counts(docs) ==> CountOf(docs, v) == 0
  {
    if |docs| > 0 {
      CountsExact(docs[..|docs| - 1], v);
      CountOfSnoc(docs, v);
      OccursSnoc(docs, v);
    }
  }

  // ---- the service ------------------------------------------------------------------------

  datatype Registered = Registered(registration: Doc, user: Doc, isNewUser: bool)

  class RegistrationService {
    const regs: EntityService
    const eventStore: Collection
    const userModel: Users.UserModel
    const mailer: EmailService

    /** The registrations, events, users and e-mail records are four stores; the
      * service and the mailer announce on one shared channel. */
    ghost predicate Valid()
      reads regs.model, eventStore, userModel.users, mailer.service.model
    {
      Stores() && mailer.Valid()
    }

    /** Everything `Valid` asks of the stores other than the e-mail records. */
    ghost predicate Stores()
      reads regs.model, eventStore, userModel.users
    {
      regs.Valid() && regs.config.entityName == RegistrationEntity && eventStore.Valid() &&
      userModel.Valid() && regs.emitter == mailer.service.emitter &&
      regs.model != mailer.service.model && regs.model != userModel.users && regs.model != eventStore &&
      userModel.users != mailer.service.model && eventStore != mailer.service.model && eventStore != userModel.users &&
      mailer.templates != userModel.users && mailer.templates != regs.model &&
      UniqueRegistrations(regs.model.records)
    }

    /** The e-mail records, their next id and the shared announcements. */
    function Mail(): Outbox
      reads mailer.service.model, mailer.service.emitter
    {
      mailer.Box()
    }

    /** What every send of the mailer draws on. */
    function Setup(): MailSetup
      reads mailer.templates
    {
      MailSetup(mailer.ready, mailer.From(), mailer.templates.Documents(), mailer.defaults, mailer.layouts)
    }

    constructor (regs: EntityService, eventStore: Collection, userModel: Users.UserModel, mailer: EmailService)
      ensures this.regs == regs && this.eventStore == eventStore && this.userModel == userModel && this.mailer == mailer
    {
      this.regs := regs;
      this.eventStore := eventStore;
      this.userModel := userModel;
      this.mailer := mailer;
    }

    /** `registerForEvent(data)`; the random password's hash and the two generated
      * keys are parameters, `deliver` is the mail transport. */
    method RegisterForEvent(data: Doc, hashedPassword: string, userKey: string, regKey: string,
                            deliver: Mail -> Delivery, now: int) returns (r: Result<Registered>)
      requires Valid()
      modifies regs.model, regs.emitter, userModel.users, mailer.service.model
      ensures Valid()
      ensures CheckRegistration(data, old(eventStore.records)).Err? ==>
        && r == Err(CheckRegistration(data, old(eventStore.records)).msg)
        && userModel.users.records == old(userModel.users.records)
        && regs.model.records == old(regs.model.records) && regs.emitter.events == old(regs.emitter.events)
      ensures CheckRegistration(data, old(eventStore.records)).Ok? && old(userModel.ByEmail(EmailOf(data))).Some? ==>
        userModel.users.records == old(userModel.users.records)
      ensures CheckRegistration(data, old(eventStore.records)).Ok? && old(userModel.ByEmail(EmailOf(data))).None? ==>
        userModel.users.records == old(userModel.users.records)[old(userModel.users.nextId) :=
          NewUserRecord(userModel.schema, data, hashedPassword, userKey, old(userModel.users.nextId), now)]
      ensures r.Ok? <==>
        CheckRegistration(data, old(eventStore.records)).Ok? &&
        !AlreadyIn(old(regs.model.Documents()), Field(data, "eventId"),
                   RegistrantId(old(userModel.ByEmail(EmailOf(data))), old(userModel.users.nextId)))
      ensures r.Ok? ==>
        && r.value.isNewUser == old(userModel.ByEmail(EmailOf(data))).None?
        && r.value.registration == Stamped(NewRegistration(data,
             RegistrantId(old(userModel.ByEmail(EmailOf(data))), old(userModel.users.nextId)), regKey), old(regs.model.nextId), now)
        && regs.model.records == old(regs.model.records)[old(regs.model.nextId) := r.value.registration]
        && EmailTail(old(regs.emitter.events) + [Created(RegistrationEntity, r.value.registration, None)], regs.emitter.events)
      ensures r.Ok? ==> var u := Registrant(old(userModel.ByEmail(EmailOf(data))),
                                            NewUserRecord(userModel.schema, data, hashedPassword, userKey, old(userModel.users.nextId), now));
        && r.value.user == PublicRegistrant(userModel.schema, old(userModel.ByEmail(EmailOf(data))), u)
        && Mail() == Notified(Setup(), Outbox(old(mailer.service.model.records), old(mailer.service.model.nextId),
                                              old(regs.emitter.events) + [Created(RegistrationEntity, r.value.registration, None)]),
                              ConfirmationData(data, u, CheckRegistration(data, old(eventStore.records)).value),
                              Select(userModel.users.Documents(), IsAdminRecord), data,
                              CheckRegistration(data, old(eventStore.records)).value, deliver, now)
      ensures r.Err? ==> regs.model.records == old(regs.model.records) && regs.emitter.events == old(regs.emitter.events)
      ensures r.Err? ==> Mail() == old(Mail())
    {
      var check := CheckRegistration(data, eventStore.records);
      if check.Err? {
        return Err(check.msg);
      }
      r := Admit(data, check.value, hashedPassword, userKey, regKey, deliver, now);
    }

    /** Everything after the checks: the registrant, the duplicate check, the
      * record, its announcement and the e-mails. */
    method Admit(data: Doc, event: Doc, hashedPassword: string, userKey: string, regKey: string,
                 deliver: Mail -> Delivery, now: int) returns (r: Result<Registered>)
      requires Valid()
      modifies regs.model, regs.emitter, userModel.users, mailer.service.model
      ensures Valid()
      ensures old(userModel.ByEmail(EmailOf(data))).Some? ==> userModel.users.records == old(userModel.users.records)
      ensures old(userModel.ByEmail(EmailOf(data))).None? ==>
        userModel.users.records == old(userModel.users.records)[old(userModel.users.nextId) :=
          NewUserRecord(userModel.schema, data, hashedPassword, userKey, old(userModel.users.nextId), now)]
      ensures r.Ok? <==>
        !AlreadyIn(old(regs.model.Documents()), Field(data, "eventId"),
                   RegistrantId(old(userModel.ByEmail(EmailOf(data))), old(userModel.users.nextId)))
      ensures r.Ok? ==>
        && r.value.isNewUser == old(userModel.ByEmail(EmailOf(data))).None?
        && r.value.registration == Stamped(NewRegistration(data,
             RegistrantId(old(userModel.ByEmail(EmailOf(data))), old(userModel.users.nextId)), regKey), old(regs.model.nextId), now)
        && regs.model.records == old(regs.model.records)[old(regs.model.nextId) := r.value.registration]
        && EmailTail(old(regs.emitter.events) + [Created(RegistrationEntity, r.value.registration, None)], regs.emitter.events)
      ensures r.Ok? ==> var u := Registrant(old(userModel.ByEmail(EmailOf(data))),
                                            NewUserRecord(userModel.schema, data, hashedPassword, userKey, old(userModel.users.nextId), now));
        && r.value.user == PublicRegistrant(userModel.schema, old(userModel.ByEmail(EmailOf(data))), u)
        && Mail() == Notified(Setup(), Outbox(old(mailer.service.model.records), old(mailer.service.model.nextId),
                                              old(regs.emitter.events) + [Created(RegistrationEntity, r.value.registration, None)]),
                              ConfirmationData(data, u, event), Select(userModel.users.Documents(), IsAdminRecord), data, event, deliver, now)
      ensures r.Err? ==> r == Err(AlreadyRegistered) && regs.model.records == old(regs.model.records) && regs.emitter.events == old(regs.emitter.events)
      ensures r.Err? ==> Mail() == old(Mail())
    {
      var u, isNew := FindOrCreateUser(data, hashedPassword, userKey, now);
      r := Record(data, u, isNew, event, regKey, deliver, now);
    }

    /** The duplicate check for the registrant `u`, then the record, its
      * announcement and the e-mails. */
    method Record(data: Doc, u: Doc, isNew: bool, event: Doc, regKey: string, deliver: Mail -> Delivery, now: int)
      returns (r: Result<Registered>)
      requires Valid()
      modifies regs.model, regs.emitter, mailer.service.model
      ensures Valid()
      ensures r.Ok? <==> !AlreadyIn(old(regs.model.Documents()), Field(data, "eventId"), FieldValue(u, "_id"))
      ensures r.Ok? ==>
        && r.value.isNewUser == isNew
        && r.value.registration == Stamped(NewRegistration(data, FieldValue(u, "_id"), regKey), old(regs.model.nextId), now)
        && regs.model.records == old(regs.model.records)[old(regs.model.nextId) := r.value.registration]
        && EmailTail(old(regs.emitter.events) + [Created(RegistrationEntity, r.value.registration, None)], regs.emitter.events)
      ensures r.Ok? ==>
        && r.value.user == PublicRegistrant(userModel.schema, if isNew then None else Some(u), u)
        && Mail() == Notified(Setup(), Outbox(old(mailer.service.model.records), old(mailer.service.model.nextId),
                                              old(regs.emitter.events) + [Created(RegistrationEntity, r.value.registration, None)]),
                              ConfirmationData(data, u, event), Select(userModel.users.Documents(), IsAdminRecord), data, event, deliver, now)
      ensures r.Err? ==> r == Err(AlreadyRegistered) && regs.model.records == old(regs.model.records) && regs.emitter.events == old(regs.emitter.events)
      ensures r.Err? ==> Mail() == old(Mail())
    {
      var userId := FieldValue(u, "_id");
      if regs.model.FindOne(RegistrationQuery(Field(data, "eventId"), userId)).Some? {
        return Err(AlreadyRegistered);
      }
      var saved := Accept(data, userId, u, event, regKey, deliver, now);
      r := Ok(Registered(saved, PublicRegistrant(userModel.schema, if isNew then None else Some(u), u), isNew));
    }

    /** A new registration is stored and announced, then the confirmations go out. */
    method Accept(data: Doc, userId: Value, u: Doc, event: Doc, regKey: string, deliver: Mail -> Delivery, now: int)
      returns (saved: Doc)
      requires Valid() && !AlreadyIn(regs.model.Documents(), Field(data, "eventId"), userId)
      modifies regs.model, regs.emitter, mailer.service.model
      ensures Valid()
      ensures saved == Stamped(NewRegistration(data, userId, regKey), old(regs.model.nextId), now)
      ensures regs.model.records == old(regs.model.records)[old(regs.model.nextId) := saved]
      ensures EmailTail(old(regs.emitter.events) + [Created(RegistrationEntity, saved, None)], regs.emitter.events)
      ensures Mail() == Notified(Setup(), Outbox(old(mailer.service.model.records), old(mailer.service.model.nextId),
                                                 old(regs.emitter.events) + [Created(RegistrationEntity, saved, None)]),
                                 ConfirmationData(data, u, event), Select(userModel.users.Documents(), IsAdminRecord), data, event, deliver, now)
    {
      saved := Enroll(data, userId, regKey, now);
      Notify(data, u, event, deliver, now);
    }

    /** The registration record is stored and announced; no pair repeats. */
    method Enroll(data: Doc, userId: Value, regKey: string, now: int) returns (saved: Doc)
      requires Valid() && !AlreadyIn(regs.model.Documents(), Field(data, "eventId"), userId)
      modifies regs.model, regs.emitter
      ensures Valid()
      ensures Mail() == Outbox(old(mailer.service.model.records), old(mailer.service.model.nextId),
                               old(regs.emitter.events) + [Created(RegistrationEntity, saved, None)])
      ensures saved == Stamped(NewRegistration(data, userId, regKey), old(regs.model.nextId), now)
      ensures regs.model.records == old(regs.model.records)[old(regs.model.nextId) := saved]
      ensures regs.emitter.events == old(regs.emitter.events) + [Created(regs.EntityName(), saved, None)]
    {
      var reg := NewRegistration(data, userId, regKey);
      RegisterKeepsUnique(regs.model, regs.model.nextId, Stamped(reg, regs.model.nextId, now));
      SchemasByName();
      NewRegistrationConforms(data, userId, regKey, now);
      saved := regs.InsertEntity(reg, None, now);
    }

    /** `getUserByEmail(email)`, and a new lightweight user when there is none. */
    method FindOrCreateUser(data: Doc, hashedPassword: string, userKey: string, now: int) returns (u: Doc, isNew: bool)
      requires userModel.Valid()
      modifies userModel.users
      ensures userModel.Valid()
      ensures isNew <==> old(userModel.ByEmail(EmailOf(data))).None?
      ensures FieldValue(u, "_id") == RegistrantId(old(userModel.ByEmail(EmailOf(data))), old(userModel.users.nextId))
      ensures !isNew ==> u == old(userModel.ByEmail(EmailOf(data))).value && userModel.users.records == old(userModel.users.records)
      ensures isNew ==>
        u == NewUserRecord(userModel.schema, data, hashedPassword, userKey, old(userModel.users.nextId), now) &&
        userModel.users.records == old(userModel.users.records)[old(userModel.users.nextId) := u]
    {
      var found := userModel.ByEmail(EmailOf(data));
      if found.Some? {
        return found.value, false;
      }
      u := CreateUser(data, hashedPassword, userKey, now);
      isNew := true;
    }

    /** A new lightweight user; the record always carries a password, so it
      * always validates. */
    method CreateUser(data: Doc, hashedPassword: string, userKey: string, now: int) returns (u: Doc)
      requires userModel.Valid()
      modifies userModel.users
      ensures userModel.Valid()
      ensures u == NewUserRecord(userModel.schema, data, hashedPassword, userKey, old(userModel.users.nextId), now)
      ensures userModel.users.records == old(userModel.users.records)[old(userModel.users.nextId) := u]
    {
      NewUserInserted(userModel.schema, data, hashedPassword, userKey, userModel.users.nextId, now);
      var ins := userModel.Insert(NewUserData(data, hashedPassword), userKey, now);
      u := ins.value;
    }

    /** The confirmation to the registrant; its outcome is ignored. */
    method SendConfirmation(data: Doc, user: Doc, event: Doc, deliver: Mail -> Delivery, now: int)
      requires mailer.Valid()
      modifies mailer.service.model, mailer.service.emitter
      ensures mailer.Valid()
      ensures Mail() == Confirmed(Setup(), old(Mail()), ConfirmationData(data, user, event), deliver, now)
      ensures EmailTail(old(mailer.service.emitter.events), mailer.service.emitter.events)
    {
      SendConfirmationOf(ConfirmationData(data, user, event), deliver, now);
    }

    /** The confirmation send for assembled confirmation data. */
    method SendConfirmationOf(confirmation: Doc, deliver: Mail -> Delivery, now: int)
      requires mailer.Valid()
      modifies mailer.service.model, mailer.service.emitter
      ensures mailer.Valid()
      ensures Mail() == Confirmed(Setup(), old(Mail()), confirmation, deliver, now)
      ensures EmailTail(old(mailer.service.emitter.events), mailer.service.emitter.events)
    {
      var sent := mailer.SendRegistrationConfirmationEmail(confirmation, deliver, None, now);
    }

    /** One administrator's notification; true when it was delivered. */
    method SendToAdmin(admin: Doc, data: Doc, event: Doc, deliver: Mail -> Delivery, now: int) returns (ok: bool)
      requires mailer.Valid()
      modifies mailer.service.model, mailer.service.emitter
      ensures mailer.Valid()
      ensures Mail() == AfterSend(old(Mail()), mailer.ready, AdminMail(Setup(), admin, data, event), mailer.From(), deliver, None, now)
      ensures ok <==> Delivers(mailer.ready, mailer.From(), AdminMail(Setup(), admin, data, event), deliver)
      ensures EmailTail(old(mailer.service.emitter.events), mailer.service.emitter.events)
    {
      ghost var o := Mail();
      var sent := mailer.SendAdminNotificationEmail(FieldValue(admin, "email"), Str(AdminTitle), Str(AdminNote(data, event)),
                                                    Null, None, deliver, None, now);
      ghost var d := AdminMail(Setup(), admin, data, event);
      SendTail(o.events, o.nextId, mailer.ready, d, mailer.From(), deliver, None, now);
      ReplyDelivers(mailer.ready, d, mailer.From(), deliver, o.nextId);
      ok := sent.Ok?;
    }

    /** The confirmation to the registrant, then one notification per active
      * administrator; a failed send is swallowed, and a failed admin send ends the
      * admin round. */
    method Notify(data: Doc, user: Doc, event: Doc, deliver: Mail -> Delivery, now: int)
      requires mailer.Valid() && userModel.users != mailer.service.model
      modifies mailer.service.model, mailer.service.emitter
      ensures mailer.Valid()
      ensures Mail() == Notified(Setup(), old(Mail()), ConfirmationData(data, user, event),
                                 Select(userModel.users.Documents(), IsAdminRecord), data, event, deliver, now)
      ensures EmailTail(old(mailer.service.emitter.events), mailer.service.emitter.events)
    {
      SendConfirmation(data, user, event, deliver, now);
      ghost var c := Mail();
      NotifyAdmins(Select(userModel.users.Documents(), IsAdminRecord), data, event, deliver, now);
      EmailTailTrans(old(mailer.service.emitter.events), c.events, mailer.service.emitter.events);
    }

    /** One notification per administrator in turn, until one fails. */
    method NotifyAdmins(admins: seq<Doc>, data: Doc, event: Doc, deliver: Mail -> Delivery, now: int)
      requires mailer.Valid()
      modifies mailer.service.model, mailer.service.emitter
      ensures mailer.Valid()
      ensures Mail() == Round(mailer.ready, mailer.From(), old(Mail()), AdminMails(Setup(), admins, data, event), deliver, now)
    {
      ghost var c := Mail();
      ghost var mails := AdminMails(Setup(), admins, data, event);
      var i := 0;
      var going := true;
      while i < |admins| && going
        invariant 0 <= i <= |admins|
        invariant mailer.Valid()
        invariant going ==> Round(mailer.ready, mailer.From(), c, mails, deliver, now) ==
                            Round(mailer.ready, mailer.From(), Mail(), mails[i..], deliver, now)
        invariant !going ==> Round(mailer.ready, mailer.From(), c, mails, deliver, now) == Mail()
      {
        ghost var before := Mail();
        var ok := SendToAdmin(admins[i], data, event, deliver, now);
        RoundStep(mailer.ready, mailer.From(), before, mails[i..], deliver, now);
        assert mails[i..][0] == mails[i] && mails[i..][1..] == mails[i + 1..];
        going := ok;
        i := i + 1;
      }
      assert going ==> mails[i..] == [];
    }

    method GetAllRegistrations(filters: Doc) returns (r: seq<Doc>)
      ensures r == AllRegistrations(regs.model.Documents(), filters)
      ensures forall d :: d in r <==> (d in regs.model.Documents() &&
        (FieldTruthy(filters, "eventId") ==> MatchesField(d, "eventId", filters["eventId"])) &&
        (FieldTruthy(filters, "status") ==> MatchesField(d, "status", filters["status"])))
      ensures Sorted(r, NewestFirst)
    {
      var query: Doc := map[];
      if FieldTruthy(filters, "eventId") {
        query := query["eventId" := filters["eventId"]];
      }
      if FieldTruthy(filters, "status") {
        query := query["status" := filters["status"]];
      }
      assert query == FilterQuery(filters);
      r := SortDocs(Find(regs.model.Documents(), query), NewestFirst);
      AllRegistrationsFiltered(regs.model.Documents(), filters);
    }

    /** The stored registrations for the event, newest first. */
    method GetRegistrationsByEvent(eventId: Value) returns (r: seq<Doc>)
      ensures forall d :: d in r <==> d in regs.model.Documents() && MatchesField(d, "eventId", eventId)
      ensures Sorted(r, NewestFirst)
    {
      r := ByField(regs.model.Documents(), "eventId", eventId);
      ByFieldNewestFirst(regs.model.Documents(), "eventId", eventId);
    }

    /** The stored registrations of the user, newest first. */
    method GetRegistrationsByUser(userId: Value) returns (r: seq<Doc>)
      ensures forall d :: d in r <==> d in regs.model.Documents() && MatchesField(d, "userId", userId)
      ensures Sorted(r, NewestFirst)
    {
      r := ByField(regs.model.Documents(), "userId", userId);
      ByFieldNewestFirst(regs.model.Documents(), "userId", userId);
    }

    /** One entry per event id that occurs among the stored registrations, holding
      * the number of registrations with that id. */
    method GetRegistrationCounts() returns (r: map<Value, nat>)
      ensures forall v :: v in r <==> Occurs(regs.model.Documents(), v)
      ensures forall v :: v in r ==> r[v] == CountOf(regs.model.Documents(), v)
    {
      r := Counts(regs.model.Documents());
      forall v ensures (v in r <==> Occurs(regs.model.Documents(), v)) && (v in r ==> r[v] == CountOf(regs.model.Documents(), v)) {
        CountsExact(regs.model.Documents(), v);
      }
    }
  }
}
