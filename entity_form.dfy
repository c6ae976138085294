// The generic create/edit dialog of the admin pages
// (frontend/src/Components/Modal/EntityFormModal.jsx): its initial state built
// from the field list and the initial values, the change handler, and the
// submit and cancel buttons.

module EntityForms {
  import opened Wrappers
  import opened Values
  import opened FormInputs

  /** A field of the dialog: its name and its `defaultValue` (absent = `undefined`). */
  datatype FormField = FormField(name: string, defaultValue: Option<Value>)

  /** `field.defaultValue ?? ''`: `null` and `undefined` both give the empty string. */
  function FallbackOf(f: FormField): Value
  {
    if f.defaultValue.None? || f.defaultValue.value == Null then Str("") else f.defaultValue.value
  }

  /** One field's initial entry: the initial value unless it is `undefined`. */
  function EntryFor(f: FormField, initialValues: Option<Doc>): Value
  {
    if initialValues.Some? && f.name in initialValues.value then initialValues.value[f.name] else FallbackOf(f)
  }

  function DefaultState(fields: seq<FormField>, initialValues: Option<Doc>): (d: Doc)
    ensures forall k :: k in d <==> exists i :: 0 <= i < |fields| && fields[i].name == k
  {
    if fields == [] then map[]
    else
      var front := fields[..|fields| - 1];
      assert forall i :: 0 <= i < |front| ==> front[i] == fields[i];
      var f := fields[|fields| - 1];
      DefaultState(front, initialValues)[f.name := EntryFor(f, initialValues)]
  }

  /** `buildDefaultState()`. */
  method BuildDefaultState(fields: seq<FormField>, initialValues: Option<Doc>) returns (state: Doc)
    ensures state == DefaultState(fields, initialValues)
  {
    state := map[];
    var i := 0;
    while i < |fields|
      invariant 0 <= i <= |fields|
      invariant state == DefaultState(fields[..i], initialValues)
    {
      assert fields[..i + 1][..i] == fields[..i];
      var f := fields[i];
      if initialValues.Some? && f.name in initialValues.value {
        state := state[f.name := initialValues.value[f.name]];
      } else {
        state := state[f.name := FallbackOf(f)];
      }
      i := i + 1;
    }
    assert fields[..|fields|] == fields;
  }

  lemma {:induction false} DefaultStateLast(fields: seq<FormField>, initialValues: Option<Doc>, i: int)
    requires 0 <= i < |fields|
    requires forall j :: i < j < |fields| ==> fields[j].name != fields[i].name
    ensures DefaultState(fields, initialValues)[fields[i].name] == EntryFor(fields[i], initialValues)
  {
    if i < |fields| - 1 {
      var front := fields[..|fields| - 1];
      assert front[i] == fields[i];
      DefaultStateLast(front, initialValues, i);
    }
  }

  /** The state has one entry per field name and no other; each entry is the
    * initial value when one is given (even `null`), else the field's default, else
    * the empty string. */
  lemma DefaultStateShape(fields: seq<FormField>, initialValues: Option<Doc>, i: int)
    requires 0 <= i < |fields|
    requires forall j :: i < j < |fields| ==> fields[j].name != fields[i].name
    ensures var s := DefaultState(fields, initialValues); var f := fields[i];
      && f.name in s
      && (initialValues.Some? && f.name in initialValues.value ==> s[f.name] == initialValues.value[f.name])
      && (!(initialValues.Some? && f.name in initialValues.value) && f.defaultValue.Some? && f.defaultValue.value != Null ==>
            s[f.name] == f.defaultValue.value)
      && (!(initialValues.Some? && f.name in initialValues.value) && (f.defaultValue.None? || f.defaultValue.value == Null) ==>
            s[f.name] == Str(""))
  {
    DefaultStateLast(fields, initialValues, i);
  }

  /** The dialog's state. */
  class EntityFormModal {
    const fields: seq<FormField>
    const initialValues: Option<Doc>
    var formState: Doc
    var saving: bool
    var isOpen: bool

    constructor(fields: seq<FormField>, initialValues: Option<Doc>)
      ensures this.fields == fields && this.initialValues == initialValues
      ensures formState == DefaultState(fields, initialValues) && !saving && !isOpen
    {
      this.fields := fields;
      this.initialValues := initialValues;
      var s := BuildDefaultState(fields, initialValues);
      formState := s;
      saving := false;
      isOpen := false;
    }

    /** The effect run when the dialog opens: the state is rebuilt. */
    method Open()
      modifies this
      ensures isOpen && formState == DefaultState(fields, initialValues) && saving == old(saving)
    {
      isOpen := true;
      formState := BuildDefaultState(fields, initialValues);
    }

    /** `handleFieldChange(e)`. */
    method FieldChange(e: InputEvent)
      modifies this
      ensures formState == ChangeEntry(old(formState), e)
      ensures saving == old(saving) && isOpen == old(isOpen)
    {
      formState := formState[e.name := if e.inputType == "checkbox" then Bool(e.checked) else Str(e.value)];
    }

    /** `handleSubmit()`: the state goes to `onSubmit`; the dialog closes only when
      * it resolves, and `saving` is cleared either way. */
    method Submit(resolved: bool) returns (submitted: Doc)
      modifies this
      ensures submitted == old(formState) && formState == old(formState)
      ensures isOpen == (old(isOpen) && !resolved) && !saving
    {
      saving := true;
      submitted := formState;
      if resolved {
        isOpen := false;
      }
      saving := false;
    }

    /** `handleCancel()`: the edits are thrown away and the dialog closes. */
    method Cancel()
      modifies this
      ensures formState == DefaultState(fields, initialValues) && !isOpen && saving == old(saving)
    {
      formState := BuildDefaultState(fields, initialValues);
      isOpen := false;
    }
  }

  /** Changes only add or overwrite entries: after any number of them every field
    * of the dialog still has an entry, and the only new keys are the changed names. */
  lemma ChangesKeepFields(fields: seq<FormField>, initialValues: Option<Doc>, changes: seq<InputEvent>)
    ensures forall i :: 0 <= i < |fields| ==> fields[i].name in Replay(DefaultState(fields, initialValues), changes)
    ensures forall k :: k in Replay(DefaultState(fields, initialValues), changes) ==>
      (exists i :: 0 <= i < |fields| && fields[i].name == k) || (exists j :: 0 <= j < |changes| && changes[j].name == k)
  {
    ReplayKeys(DefaultState(fields, initialValues), changes);
  }

  /** The state after a sequence of changes. */
  function Replay(state: Doc, changes: seq<InputEvent>): Doc
    decreases |changes|
  {
    if changes == [] then state else Replay(ChangeEntry(state, changes[0]), changes[1..])
  }

  lemma {:induction false} ReplayKeys(state: Doc, changes: seq<InputEvent>)
    ensures Replay(state, changes).Keys == state.Keys + set i | 0 <= i < |changes| :: changes[i].name
    decreases |changes|
  {
    if changes != [] {
      ReplayKeys(ChangeEntry(state, changes[0]), changes[1..]);
      var rest := set i | 0 <= i < |changes[1..]| :: changes[1..][i].name;
      var all := set i | 0 <= i < |changes| :: changes[i].name;
      assert all == {changes[0].name} + rest by {
        forall k | k in all ensures k in {changes[0].name} + rest {
          var i :| 0 <= i < |changes| && changes[i].name == k;
          if i > 0 {
            assert changes[1..][i - 1].name == k;
          }
        }
      }
    }
  }
}
