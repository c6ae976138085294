// The change handler the pages with free-form state share
// (frontend/src/Components/Modal/EntityFormModal.jsx, the registration page and
// the builder's preview): the input named by the event is set to its `checked`
// flag for a checkbox and to its text otherwise.

module FormInputs {
  import opened Values

  /** The parts of a DOM change event the handlers read. */
  datatype InputEvent = InputEvent(name: string, value: string, inputType: string, checked: bool)

  /** The value an input contributes: a boolean for a checkbox, its text otherwise. */
  function InputValue(e: InputEvent): Value
  {
    if e.inputType == "checkbox" then Bool(e.checked) else Str(e.value)
  }

  /** `setFormState(prev => ({...prev, [name]: type === 'checkbox' ? checked : value}))`. */
  function ChangeEntry(state: Doc, e: InputEvent): Doc
  {
    state[e.name := InputValue(e)]
  }

  /** A change sets exactly the named entry and leaves every other one as it was. */
  lemma ChangeTouchesOne(state: Doc, e: InputEvent)
    ensures var r := ChangeEntry(state, e);
      && r.Keys == state.Keys + {e.name}
      && r[e.name] == (if e.inputType == "checkbox" then Bool(e.checked) else Str(e.value))
      && (forall k :: k in state && k != e.name ==> r[k] == state[k])
  {
  }

  /** Two changes to the same input: the later one wins. */
  lemma LastChangeWins(state: Doc, e1: InputEvent, e2: InputEvent)
    requires e1.name == e2.name
    ensures ChangeEntry(ChangeEntry(state, e1), e2) == ChangeEntry(state, e2)
  {
  }

  /** Changes to different inputs do not interfere. */
  lemma ChangesCommute(state: Doc, e1: InputEvent, e2: InputEvent)
    requires e1.name != e2.name
    ensures ChangeEntry(ChangeEntry(state, e1), e2) == ChangeEntry(ChangeEntry(state, e2), e1)
  {
  }
}
