// The public registration page of one event
// (frontend/src/Pages/EventRegistration.jsx): loading the event by its key,
// the form state it starts with, the change handler, and the submission that
// splits the form into the person's details and the event's own fields.

module RegistrationPage {
  import opened Wrappers
  import opened Values
  import opened FormInputs
  import RegistrationFields

  type Field = RegistrationFields.Field

  /** The public event as the API answers it; an absent property is `None`.  The
    * registration fields are `None` when the property is not an array. */
  datatype EventAnswer = EventAnswer(error: Option<Value>, message: Option<Value>, id: Value,
                                     registrationFields: Option<seq<Field>>)

  /** What `API.getPublicEventByKey` gives back: a throw, nothing, or an answer. */
  datatype LoadOutcome = LoadThrew | NoAnswer | Answered(answer: EventAnswer)

  /** `x || fallback` for an optional property. */
  function OrElse(v: Option<Value>, fallback: string): (r: Value)
    ensures v.Some? && Truthy(v.value) ==> r == v.value
    ensures !(v.Some? && Truthy(v.value)) ==> r == Str(fallback)
  {
    if v.Some? && Truthy(v.value) then v.value else Str(fallback)
  }

  /** `response?.error` read as a truthy test. */
  predicate Flagged(v: Option<Value>)
  {
    v.Some? && Truthy(v.value)
  }

  /** `Array.isArray(fields) ? fields : []`. */
  function FieldsOf(registrationFields: Option<seq<Field>>): seq<Field>
  {
    if registrationFields.Some? then registrationFields.value else []
  }

  /** The order the form shows the fields in: by `sortOrder`, a permutation of them. */
  function RenderedFields(registrationFields: Option<seq<Field>>): (r: seq<Field>)
    ensures RegistrationFields.SortedBySortOrder(r)
    ensures multiset(r) == multiset(FieldsOf(registrationFields))
  {
    RegistrationFields.SortBySortOrder(FieldsOf(registrationFields))
  }

  // ---- the submission ----------------------------------------------------------------------

  /** The body sent to `API.registerForEvent`; an absent person field is `None`
    * (`undefined`, which JSON leaves out). */
  datatype Registration = Registration(eventId: Value, firstName: Option<Value>, lastName: Option<Value>,
                                       email: Option<Value>, formData: Doc)

  const PersonKeys: set<string> := {"firstName", "lastName", "email"}

  function Get(state: Doc, k: string): Option<Value>
  {
    if k in state then Some(state[k]) else None
  }

  /** `const {firstName, lastName, email, ...dynamicFields} = formState`. */
  function SplitForm(eventId: Value, state: Doc): (r: Registration)
    ensures r.formData.Keys !! PersonKeys
    ensures forall k :: k in state && k !in PersonKeys ==> k in r.formData && r.formData[k] == state[k]
  {
    Registration(eventId, Get(state, "firstName"), Get(state, "lastName"), Get(state, "email"),
                 map k | k in state && k !in PersonKeys :: state[k])
  }

  /** The form state a registration was split from. */
  function Rejoined(r: Registration): Doc
  {
    var person := (if r.firstName.Some? then map["firstName" := r.firstName.value] else map[])
      + (if r.lastName.Some? then map["lastName" := r.lastName.value] else map[])
      + (if r.email.Some? then map["email" := r.email.value] else map[]);
    r.formData + person
  }

  /** Splitting loses nothing: the person's details and the event's fields together
    * give back the whole form state, and the event's fields never hold the person's
    * details. */
  lemma SplitRoundTrip(eventId: Value, state: Doc)
    ensures Rejoined(SplitForm(eventId, state)) == state
    ensures SplitForm(eventId, state).eventId == eventId
  {
    var r := SplitForm(eventId, state);
    var back := Rejoined(r);
    forall k | k in state ensures k in back && back[k] == state[k] {
    }
    forall k | k in back ensures k in state {
    }
  }

  /** A submission straight after loading sends the three empty person fields and
    * one blank entry per event field whose name is not one of theirs. */
  lemma LoadedSubmission(eventId: Value, fs: seq<Field>)
    ensures var r := SplitForm(eventId, RegistrationFields.InitialFormState(fs));
      && (forall k :: k in r.formData <==> k !in PersonKeys && exists i :: 0 <= i < |fs| && fs[i].name == k)
      && r.firstName.Some? && r.lastName.Some? && r.email.Some?
      && ((forall i :: 0 <= i < |fs| ==> fs[i].name != "email") ==> r.email == Some(Str("")))
  {
    RegistrationFields.InitialStateShape(fs);
  }

  /** What `API.registerForEvent` gives back: a throw or a response (`Null` for none). */
  datatype SubmitOutcome = SubmitThrew | Responded(response: Value)

  /** `response?.error` on a parsed response. */
  function Prop(v: Value, k: string): Option<Value>
  {
    if v.Obj? then ObjGet(v.entries, k) else None
  }

  // ---- the page ----------------------------------------------------------------------------

  /** The page's state: `error` and `result` are `null` (`Null`) until set. */
  class Page {
    var event: Option<EventAnswer>
    var loading: bool
    var formState: Doc
    var submitting: bool
    var result: Value
    var error: Value

    constructor()
      ensures event.None? && loading && formState == map[] && !submitting && result == Null && error == Null
    {
      event := None;
      loading := true;
      formState := map[];
      submitting := false;
      result := Null;
      error := Null;
    }

    /** `loadEvent()`: an error answer, no answer or a throw leaves the page without
      * an event and with a message; an event answer sets the form to its blank state. */
    method Load(outcome: LoadOutcome)
      modifies this
      ensures !loading && submitting == old(submitting) && result == old(result)
      ensures event.Some? <==> outcome.Answered? && !Flagged(outcome.answer.error)
      ensures event.Some? ==>
        (event.value == outcome.answer && error == Null &&
         formState == RegistrationFields.InitialFormState(FieldsOf(outcome.answer.registrationFields)))
      ensures event.None? ==> formState == old(formState)
      ensures outcome.LoadThrew? ==> error == Str("Failed to load event.")
      ensures outcome.NoAnswer? ==> error == Str("Event not found.")
      ensures outcome.Answered? && Flagged(outcome.answer.error) ==>
        error == OrElse(outcome.answer.message, "Event not found.")
    {
      loading := true;
      error := Null;
      event := None;
      match outcome {
        case LoadThrew =>
          error := Str("Failed to load event.");
        case NoAnswer =>
          error := Str("Event not found.");
        case Answered(a) =>
          if Flagged(a.error) {
            error := OrElse(a.message, "Event not found.");
          } else {
            var fs := FieldsOf(a.registrationFields);
            var defaults := RegistrationFields.ResetPreview(fs);
            formState := defaults;
            event := Some(a);
          }
      }
      loading := false;
    }

    /** `handleFieldChange(e)`. */
    method FieldChange(e: InputEvent)
      modifies this
      ensures formState == ChangeEntry(old(formState), e)
      ensures event == old(event) && error == old(error) && result == old(result)
      ensures loading == old(loading) && submitting == old(submitting)
    {
      formState := ChangeEntry(formState, e);
    }

    /** `handleSubmit()`: returns the registration sent, if one was.  Without a
      * loaded event, reading its id throws inside the `try`, so nothing is sent and
      * the generic message shows. */
    method Submit(outcome: SubmitOutcome) returns (sent: Option<Registration>)
      modifies this
      ensures !submitting && formState == old(formState) && event == old(event) && loading == old(loading)
      ensures sent.Some? <==> old(event).Some?
      ensures sent.Some? ==> sent.value == SplitForm(old(event).value.id, old(formState))
      ensures old(event).None? || outcome.SubmitThrew? ==>
        error == Str("Registration failed. Please try again.") && result == old(result)
      ensures old(event).Some? && outcome.Responded? && Flagged(Prop(outcome.response, "error")) ==>
        error == OrElse(Prop(outcome.response, "message"), "Registration failed.") && result == old(result)
      ensures old(event).Some? && outcome.Responded? && !Flagged(Prop(outcome.response, "error")) ==>
        error == Null && result == outcome.response
    {
      submitting := true;
      error := Null;
      sent := None;
      if event.None? {
        error := Str("Registration failed. Please try again.");
      } else {
        sent := Some(SplitForm(event.value.id, formState));
        match outcome {
          case SubmitThrew =>
            error := Str("Registration failed. Please try again.");
          case Responded(response) =>
            if Flagged(Prop(response, "error")) {
              error := OrElse(Prop(response, "message"), "Registration failed.");
            } else {
              result := response;
            }
        }
      }
      submitting := false;
    }
  }
}
