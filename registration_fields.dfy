// The registration-form field editor shared by the inline builder
// (frontend/src/Components/RegistrationFormBuilder.jsx) and the modal
// (frontend/src/Components/Modal/RegistrationFieldsModal.jsx): the field-name
// generator, the list operations with their `sortOrder` renumbering, the
// loading order and the preview's default form state.  Both components carry
// the same handlers; the editor state is one class, and the modal adds its
// open flag and the `registrationOpen` switch around it.

module RegistrationFields {
  import opened Wrappers
  import opened Strings
  import opened Values

  datatype FieldOption = FieldOption(value: string, caption: string)

  /** One configured registration field. */
  datatype Field = Field(name: string, caption: string, fieldType: string, required: bool,
                         placeholder: string, options: seq<FieldOption>, sortOrder: int)

  /** `emptyField()`. */
  function EmptyField(): Field
  {
    Field("", "", "text", false, "", [], 0)
  }

  // ---- generateFieldName ------------------------------------------------------------

  /** What survives `.replace(/[^a-z0-9\s]/g, '')`. */
  predicate NameSourceChar(c: char) { IsLower(c) || IsDigit(c) || IsSpace(c) }

  /** What a generated name is made of. */
  predicate NameChar(c: char) { IsLower(c) || IsDigit(c) || c == '_' }

  function KeepNameChars(s: string): (r: string)
    ensures forall i :: 0 <= i < |r| ==> NameSourceChar(r[i])
  {
    if s == [] then [] else (if NameSourceChar(s[0]) then [s[0]] else []) + KeepNameChars(s[1..])
  }

  /** `.replace(/\s+/g, '_')`: each run of white space becomes one underscore. */
  function SpacesToUnderscores(s: string): (r: string)
  {
    if s == [] then []
    else if IsSpace(s[0]) then
      (if |s| > 1 && IsSpace(s[1]) then SpacesToUnderscores(s[1..]) else "_" + SpacesToUnderscores(s[1..]))
    else [s[0]] + SpacesToUnderscores(s[1..])
  }

  /** The leading half of `.replace(/^_+|_+$/g, '')`. */
  function DropLeading(s: string): (r: string)
    ensures |r| <= |s| && r == s[|s| - |r|..]
    ensures r == [] || r[0] != '_'
  {
    if s != [] && s[0] == '_' then DropLeading(s[1..]) else s
  }

  /** The trailing half of `.replace(/^_+|_+$/g, '')`. */
  function DropTrailing(s: string): (r: string)
    ensures |r| <= |s| && r == s[..|r|]
    ensures r == [] || r[|r| - 1] != '_'
  {
    if s != [] && s[|s| - 1] == '_' then DropTrailing(s[..|s| - 1]) else s
  }

  /** `generateFieldName(label)`. */
  function GenerateFieldName(text: string): string
  {
    DropTrailing(DropLeading(SpacesToUnderscores(KeepNameChars(ToLower(text)))))
  }

  predicate NoDoubleUnderscore(s: string)
  {
    forall i :: 0 <= i < |s| - 1 ==> !(s[i] == '_' && s[i + 1] == '_')
  }

  lemma {:induction false} SpacesShape(s: string)
    requires forall i :: 0 <= i < |s| ==> NameSourceChar(s[i])
    ensures var r := SpacesToUnderscores(s);
      && (forall i :: 0 <= i < |r| ==> NameChar(r[i]))
      && NoDoubleUnderscore(r)
      && (|r| > 0 && r[0] == '_' ==> IsSpace(s[0]))
  {
    if s != [] {
      SpacesShape(s[1..]);
      var rest := SpacesToUnderscores(s[1..]);
      if IsSpace(s[0]) && !(|s| > 1 && IsSpace(s[1])) {
        var r := "_" + rest;
        assert rest == [] || rest[0] != '_';
        assert forall i :: 1 <= i < |r| ==> r[i] == rest[i - 1];
      } else if !IsSpace(s[0]) {
        var r := [s[0]] + rest;
        assert forall i :: 1 <= i < |r| ==> r[i] == rest[i - 1];
      }
    }
  }

  /** A generated name uses only lower-case letters, digits and underscores, has no
    * underscore at either end and never two in a row. */
  lemma FieldNameShape(text: string)
    ensures var r := GenerateFieldName(text);
      && (forall i :: 0 <= i < |r| ==> NameChar(r[i]))
      && (r == [] || (r[0] != '_' && r[|r| - 1] != '_'))
      && NoDoubleUnderscore(r)
  {
    var u := SpacesToUnderscores(KeepNameChars(ToLower(text)));
    SpacesShape(KeepNameChars(ToLower(text)));
    var l := DropLeading(u);
    SliceShape(u, |u| - |l|, |u|);
    var r := DropTrailing(l);
    SliceShape(l, 0, |r|);
  }

  /** A slice of a name-character string without double underscores is one too. */
  lemma SliceShape(u: string, a: int, b: int)
    requires 0 <= a <= b <= |u|
    requires forall i :: 0 <= i < |u| ==> NameChar(u[i])
    requires NoDoubleUnderscore(u)
    ensures forall i :: 0 <= i < b - a ==> NameChar(u[a..b][i])
    ensures NoDoubleUnderscore(u[a..b])
  {
    var v := u[a..b];
    forall i | 0 <= i < |v| - 1 ensures !(v[i] == '_' && v[i + 1] == '_') {
      assert v[i] == u[a + i] && v[i + 1] == u[a + i + 1];
    }
  }

  /** A name already made of lower-case letters and digits is generated unchanged. */
  lemma {:induction false} PlainNameUnchanged(s: string)
    requires PlainName(s)
    ensures GenerateFieldName(s) == s
  {
    LowerPlain(s);
    KeepPlain(s);
    SpacesPlain(s);
  }

  lemma {:induction false} LowerPlain(s: string)
    requires forall i :: 0 <= i < |s| ==> !IsUpper(s[i])
    ensures ToLower(s) == s
  {
  }

  lemma {:induction false} KeepPlain(s: string)
    requires forall i :: 0 <= i < |s| ==> NameSourceChar(s[i])
    ensures KeepNameChars(s) == s
  {
    if s != [] {
      KeepPlain(s[1..]);
    }
  }

  lemma {:induction false} SpacesPlain(s: string)
    requires PlainName(s)
    ensures SpacesToUnderscores(s) == s
  {
    if s != [] {
      SpacesPlain(s[1..]);
    }
  }

  predicate PlainName(s: string)
  {
    forall i :: 0 <= i < |s| ==> IsLower(s[i]) || IsDigit(s[i])
  }

  lemma Pipeline(t: string, k: string, u: string)
    requires ToLower(t) == t && KeepNameChars(t) == k && SpacesToUnderscores(k) == u
    requires u != [] && u[0] != '_' && u[|u| - 1] != '_'
    ensures GenerateFieldName(t) == u
  {
    assert DropLeading(u) == u;
    assert DropTrailing(u) == u;
  }

  lemma JoinedPlain(a: string, sep: string, b: string)
    requires PlainName(a) && PlainName(b) && forall i :: 0 <= i < |sep| ==> !IsUpper(sep[i])
    ensures forall i :: 0 <= i < |a + sep + b| ==> !IsUpper((a + sep + b)[i])
  {
  }

  lemma KeepDropsUnderscore(a: string, b: string)
    requires PlainName(a) && PlainName(b)
    ensures KeepNameChars(a + "_" + b) == a + b
  {
    var c := "_" + b;
    assert a + "_" + b == a + c;
    KeepAppend(a, c);
    assert c[0] == '_' && c[1..] == b;
    assert KeepNameChars(c) == KeepNameChars(b);
    KeepPlain(a);
    KeepPlain(b);
  }

  lemma PlainJoin(a: string, b: string)
    requires PlainName(a) && PlainName(b)
    ensures PlainName(a + b)
  {
  }

  /** Underscores are removed before white space turns into them, so a name with
    * an underscore in it is not reproduced: `first_name` becomes `firstname`. */
  lemma UnderscoresDropped(a: string, b: string)
    requires a != [] && b != [] && PlainName(a) && PlainName(b)
    ensures GenerateFieldName(a + "_" + b) == a + b
  {
    var t := a + "_" + b;
    JoinedPlain(a, "_", b);
    LowerPlain(t);
    KeepDropsUnderscore(a, b);
    PlainJoin(a, b);
    SpacesPlain(a + b);
    Pipeline(t, a + b, a + b);
  }

  /** A single space between two plain words becomes an underscore. */
  lemma SpaceBecomesUnderscore(a: string, b: string)
    requires a != [] && b != [] && PlainName(a) && PlainName(b)
    ensures GenerateFieldName(a + " " + b) == a + "_" + b
  {
    var t := a + " " + b;
    JoinedPlain(a, " ", b);
    LowerPlain(t);
    KeepPlain(t);
    assert SpacesToUnderscores(t) == a + "_" + b by {
      assert t == a + (" " + b);
      SpacesPlainPrefix(a, " " + b);
      SpacesPlain(b);
      assert (" " + b)[1..] == b;
    }
    Pipeline(t, t, a + "_" + b);
  }

  /** So generating a name twice is not the same as generating it once. */
  lemma NotIdempotent(a: string, b: string)
    requires a != [] && b != [] && PlainName(a) && PlainName(b)
    ensures GenerateFieldName(GenerateFieldName(a + " " + b)) == a + b
    ensures GenerateFieldName(GenerateFieldName(a + " " + b)) != GenerateFieldName(a + " " + b)
  {
    SpaceBecomesUnderscore(a, b);
    UnderscoresDropped(a, b);
    assert |a + b| < |a + "_" + b|;
  }

  lemma {:induction false} KeepAppend(a: string, b: string)
    ensures KeepNameChars(a + b) == KeepNameChars(a) + KeepNameChars(b)
  {
    if a != [] {
      assert (a + b)[1..] == a[1..] + b;
      KeepAppend(a[1..], b);
    } else {
      assert a + b == b;
    }
  }

  lemma {:induction false} SpacesPlainPrefix(a: string, b: string)
    requires PlainName(a)
    ensures SpacesToUnderscores(a + b) == a + SpacesToUnderscores(b)
  {
    if a != [] {
      assert (a + b)[1..] == a[1..] + b;
      SpacesPlainPrefix(a[1..], b);
      assert a == [a[0]] + a[1..];
    } else {
      assert a + b == b;
    }
  }

  // ---- the field list --------------------------------------------------------------

  /** `.map((f, i) => ({...f, sortOrder: i}))`. */
  function Renumbered(fs: seq<Field>): (r: seq<Field>)
    ensures |r| == |fs|
    ensures forall i :: 0 <= i < |r| ==> r[i] == fs[i].(sortOrder := i)
  {
    seq(|fs|, i requires 0 <= i < |fs| => fs[i].(sortOrder := i))
  }

  /** Every field's `sortOrder` is its position. */
  predicate Numbered(fs: seq<Field>)
  {
    forall i :: 0 <= i < |fs| ==> fs[i].sortOrder == i
  }

  /** `handleDeleteField(index)`: drop position `index` and renumber. */
  function DeleteAt(fs: seq<Field>, index: int): seq<Field>
  {
    Renumbered(if 0 <= index < |fs| then fs[..index] + fs[index + 1..] else fs)
  }

  /** Deleting removes exactly position `index`: the fields before it keep their
    * places, the ones after move up by one, and `sortOrder` runs 0..n-2. */
  lemma DeleteShape(fs: seq<Field>, index: int)
    requires 0 <= index < |fs|
    ensures var r := DeleteAt(fs, index);
      && |r| == |fs| - 1
      && Numbered(r)
      && (forall j :: 0 <= j < index ==> r[j] == fs[j].(sortOrder := j))
      && (forall j :: index <= j < |r| ==> r[j] == fs[j + 1].(sortOrder := j))
  {
    var kept := fs[..index] + fs[index + 1..];
    assert forall j :: index <= j < |kept| ==> kept[j] == fs[j + 1];
  }

  /** `handleMoveField(index, direction)`: a swap with the neighbour, then renumbering;
    * a target outside the list changes nothing. */
  function MoveField(fs: seq<Field>, index: int, direction: int): seq<Field>
    requires 0 <= index < |fs|
  {
    var target := index + direction;
    if target < 0 || target >= |fs| then fs
    else Renumbered(fs[index := fs[target]][target := fs[index]])
  }

  /** The field without its position. */
  function Unnumbered(fs: seq<Field>): (r: seq<Field>)
    ensures |r| == |fs|
    ensures forall i :: 0 <= i < |r| ==> r[i] == fs[i].(sortOrder := 0)
  {
    seq(|fs|, i requires 0 <= i < |fs| => fs[i].(sortOrder := 0))
  }

  /** A move within range exchanges the two fields, renumbers all of them and keeps
    * the same fields; one out of range is a no-op. */
  lemma MoveShape(fs: seq<Field>, index: int, direction: int)
    requires 0 <= index < |fs|
    ensures var target := index + direction; var r := MoveField(fs, index, direction);
      && (target < 0 || target >= |fs| ==> r == fs)
      && (0 <= target < |fs| ==>
            && |r| == |fs|
            && Numbered(r)
            && r[index] == fs[target].(sortOrder := index)
            && r[target] == fs[index].(sortOrder := target)
            && (forall j :: 0 <= j < |r| && j != index && j != target ==> r[j] == fs[j].(sortOrder := j))
            && multiset(Unnumbered(r)) == multiset(Unnumbered(fs)))
  {
    var target := index + direction;
    if 0 <= target < |fs| {
      var swapped := fs[index := fs[target]][target := fs[index]];
      var u := Unnumbered(fs);
      assert Unnumbered(Renumbered(swapped)) == u[index := u[target]][target := u[index]];
    }
  }

  /** A move within range is the swap, renumbered. */
  lemma MoveInRange(fs: seq<Field>, index: int, target: int, j: int)
    requires 0 <= index < |fs| && 0 <= target < |fs| && 0 <= j < |fs|
    ensures |MoveField(fs, index, target - index)| == |fs|
    ensures MoveField(fs, index, target - index)[j] ==
      (if j == index then fs[target] else if j == target then fs[index] else fs[j]).(sortOrder := j)
  {
  }

  /** Moving a field and moving it back restores the list, renumbered. */
  lemma MoveBack(fs: seq<Field>, index: int, direction: int)
    requires 0 <= index < |fs| && 0 <= index + direction < |fs|
    ensures MoveField(MoveField(fs, index, direction), index + direction, -direction) == Renumbered(fs)
  {
    var target := index + direction;
    var once := MoveField(fs, index, direction);
    MoveInRange(fs, index, target, 0);
    assert target + -direction == index;
    var twice := MoveField(once, target, -direction);
    forall j | 0 <= j < |fs| ensures twice[j] == Renumbered(fs)[j] {
      MoveInRange(once, target, index, j);
      MoveInRange(fs, index, target, j);
      if j == index {
        MoveInRange(fs, index, target, target);
      } else if j == target {
        MoveInRange(fs, index, target, index);
      }
    }
    MoveInRange(once, target, index, 0);
  }

  /** `handleSaveField()` on the list: an edit replaces its position, a new field is
    * appended with the next `sortOrder`. */
  function SaveInto(fs: seq<Field>, editing: Field, editingIndex: int): seq<Field>
    requires editingIndex < |fs|
  {
    if editingIndex >= 0 then fs[editingIndex := editing] else fs + [editing.(sortOrder := |fs|)]
  }

  /** Saving a new field appends it; saving an edit changes only its position; both
    * keep a numbered list numbered when an edited field keeps its own `sortOrder`. */
  lemma SaveShape(fs: seq<Field>, editing: Field, editingIndex: int)
    requires editingIndex < |fs|
    ensures var r := SaveInto(fs, editing, editingIndex);
      && (editingIndex < 0 ==> r[..|fs|] == fs && |r| == |fs| + 1 && r[|fs|] == editing.(sortOrder := |fs|))
      && (editingIndex >= 0 ==> (|r| == |fs| && r[editingIndex] == editing &&
            forall j :: 0 <= j < |fs| && j != editingIndex ==> r[j] == fs[j]))
      && (Numbered(fs) && (editingIndex >= 0 ==> editing.sortOrder == editingIndex) ==> Numbered(r))
  {
  }

  // ---- loading order ----------------------------------------------------------------

  predicate SortedBySortOrder(fs: seq<Field>)
  {
    forall i, j :: 0 <= i < j < |fs| ==> fs[i].sortOrder <= fs[j].sortOrder
  }

  /** Where a stable sort puts `x`: after every field whose `sortOrder` is not larger. */
  function InsertPos(s: seq<Field>, x: Field): (p: int)
    requires SortedBySortOrder(s)
    ensures 0 <= p <= |s|
    ensures forall k :: 0 <= k < p ==> s[k].sortOrder <= x.sortOrder
    ensures forall k :: p <= k < |s| ==> s[k].sortOrder > x.sortOrder
  {
    if s == [] then 0
    else if s[|s| - 1].sortOrder <= x.sortOrder then |s|
    else InsertPos(s[..|s| - 1], x)
  }

  function InsertByOrder(s: seq<Field>, x: Field): (r: seq<Field>)
    requires SortedBySortOrder(s)
    ensures SortedBySortOrder(r)
    ensures multiset(r) == multiset(s) + multiset{x}
  {
    var p := InsertPos(s, x);
    InsertAtFacts(s, x, p);
    s[..p] + [x] + s[p..]
  }

  lemma InsertAtFacts(s: seq<Field>, x: Field, p: int)
    requires SortedBySortOrder(s) && 0 <= p <= |s|
    requires forall k :: 0 <= k < p ==> s[k].sortOrder <= x.sortOrder
    requires forall k :: p <= k < |s| ==> s[k].sortOrder > x.sortOrder
    ensures SortedBySortOrder(s[..p] + [x] + s[p..])
    ensures multiset(s[..p] + [x] + s[p..]) == multiset(s) + multiset{x}
  {
    var r := s[..p] + [x] + s[p..];
    assert forall k :: 0 <= k < p ==> r[k] == s[k];
    assert r[p] == x;
    assert forall k :: p < k < |r| ==> r[k] == s[k - 1];
    forall i, j | 0 <= i < j < |r| ensures r[i].sortOrder <= r[j].sortOrder {
      if j < p {
      } else if j == p {
      } else if i < p {
        assert s[i].sortOrder <= s[j - 1].sortOrder;
      } else if i == p {
      } else {
        assert s[i - 1].sortOrder <= s[j - 1].sortOrder;
      }
    }
    assert s == s[..p] + s[p..];
  }

  /** `[...fields].sort((a, b) => a.sortOrder - b.sortOrder)`. */
  function SortBySortOrder(fs: seq<Field>): (r: seq<Field>)
    ensures SortedBySortOrder(r)
    ensures multiset(r) == multiset(fs)
  {
    if fs == [] then []
    else
      assert fs == fs[..|fs| - 1] + [fs[|fs| - 1]];
      InsertByOrder(SortBySortOrder(fs[..|fs| - 1]), fs[|fs| - 1])
  }

  lemma InsertAtEnd(s: seq<Field>, x: Field)
    requires SortedBySortOrder(s)
    requires s == [] || s[|s| - 1].sortOrder <= x.sortOrder
    ensures InsertByOrder(s, x) == s + [x]
  {
    assert InsertPos(s, x) == |s|;
    assert s[..|s|] == s;
  }

  lemma SortStep(front: seq<Field>, x: Field)
    requires SortedBySortOrder(front) && SortBySortOrder(front) == front
    requires front == [] || front[|front| - 1].sortOrder <= x.sortOrder
    ensures SortBySortOrder(front + [x]) == front + [x]
  {
    var fs := front + [x];
    assert fs[..|fs| - 1] == front && fs[|fs| - 1] == x;
    InsertAtEnd(front, x);
  }

  /** Loading a list that is already in order keeps it as it is. */
  lemma {:induction false} SortKeepsSorted(fs: seq<Field>)
    requires SortedBySortOrder(fs)
    ensures SortBySortOrder(fs) == fs
  {
    if fs != [] {
      var front := fs[..|fs| - 1];
      var x := fs[|fs| - 1];
      assert fs == front + [x];
      SortedFront(fs);
      SortKeepsSorted(front);
      SortStep(front, x);
    }
  }

  lemma SortedFront(fs: seq<Field>)
    requires fs != [] && SortedBySortOrder(fs)
    ensures SortedBySortOrder(fs[..|fs| - 1])
    ensures |fs| == 1 || fs[|fs| - 2].sortOrder <= fs[|fs| - 1].sortOrder
  {
    var front := fs[..|fs| - 1];
    forall i, j | 0 <= i < j < |front| ensures front[i].sortOrder <= front[j].sortOrder {
      assert front[i] == fs[i] && front[j] == fs[j];
    }
  }

  // ---- default form state ------------------------------------------------------------

  /** A field's initial value: `false` for a checkbox, `''` otherwise. */
  function DefaultFor(f: Field): Value
  {
    if f.fieldType == "checkbox" then Bool(false) else Str("")
  }

  function FieldDefaults(fs: seq<Field>): (d: Doc)
    ensures forall k :: k in d <==> exists i :: 0 <= i < |fs| && fs[i].name == k
  {
    if fs == [] then map[]
    else
      var d := FieldDefaults(fs[..|fs| - 1]);
      assert forall i :: 0 <= i < |fs| - 1 ==> fs[..|fs| - 1][i] == fs[i];
      d[fs[|fs| - 1].name := DefaultFor(fs[|fs| - 1])]
  }

  /** `{firstName: '', lastName: '', email: '', ...defaults}`. */
  function InitialFormState(fs: seq<Field>): Doc
  {
    map["firstName" := Str(""), "lastName" := Str(""), "email" := Str("")] + FieldDefaults(fs)
  }

  lemma {:induction false} FieldDefaultsLast(fs: seq<Field>, i: int)
    requires 0 <= i < |fs|
    requires forall j :: i < j < |fs| ==> fs[j].name != fs[i].name
    ensures fs[i].name in FieldDefaults(fs) && FieldDefaults(fs)[fs[i].name] == DefaultFor(fs[i])
  {
    if i < |fs| - 1 {
      var front := fs[..|fs| - 1];
      assert front[i] == fs[i];
      FieldDefaultsLast(front, i);
    }
  }

  /** The initial state holds the three person fields and one entry per field name,
    * and nothing else; a field's entry is its type's default when no later field
    * has the same name, and the person fields stay empty unless a field reuses
    * their name. */
  lemma InitialStateShape(fs: seq<Field>)
    ensures var s := InitialFormState(fs);
      && (forall k :: k in s <==> k in {"firstName", "lastName", "email"} || exists i :: 0 <= i < |fs| && fs[i].name == k)
      && (forall i :: 0 <= i < |fs| && (forall j :: i < j < |fs| ==> fs[j].name != fs[i].name) ==>
            s[fs[i].name] == DefaultFor(fs[i]))
      && (forall k :: k in {"firstName", "lastName", "email"} && (forall i :: 0 <= i < |fs| ==> fs[i].name != k) ==>
            s[k] == Str(""))
      && (forall k :: k in s ==> s[k] == Str("") || s[k] == Bool(false))
  {
    var s := InitialFormState(fs);
    forall i | 0 <= i < |fs| && (forall j :: i < j < |fs| ==> fs[j].name != fs[i].name)
      ensures s[fs[i].name] == DefaultFor(fs[i])
    {
      FieldDefaultsLast(fs, i);
      InitialEntry(fs, fs[i].name);
    }
    forall k | k in {"firstName", "lastName", "email"} && (forall i :: 0 <= i < |fs| ==> fs[i].name != k)
      ensures s[k] == Str("")
    {
      InitialEntry(fs, k);
    }
    forall k | k in s ensures s[k] == Str("") || s[k] == Bool(false) {
      InitialEntry(fs, k);
      if k in FieldDefaults(fs) {
        DefaultsAreBlank(fs, k);
      }
    }
  }

  /** An entry of the initial state comes from the field defaults when a field has
    * that name, else from the three person fields. */
  lemma InitialEntry(fs: seq<Field>, k: string)
    ensures k in InitialFormState(fs) <==> k in FieldDefaults(fs) || k in {"firstName", "lastName", "email"}
    ensures k in FieldDefaults(fs) ==> InitialFormState(fs)[k] == FieldDefaults(fs)[k]
    ensures k !in FieldDefaults(fs) && k in {"firstName", "lastName", "email"} ==> InitialFormState(fs)[k] == Str("")
  {
  }

  /** `resetPreview(currentFields)`: the defaults collected field by field, laid over
    * the three person fields. */
  method ResetPreview(fs: seq<Field>) returns (state: Doc)
    ensures state == InitialFormState(fs)
  {
    var defaults: Doc := map[];
    var i := 0;
    while i < |fs|
      invariant 0 <= i <= |fs|
      invariant defaults == FieldDefaults(fs[..i])
    {
      assert fs[..i + 1][..i] == fs[..i];
      defaults := defaults[fs[i].name := DefaultFor(fs[i])];
      i := i + 1;
    }
    assert fs[..|fs|] == fs;
    state := map["firstName" := Str(""), "lastName" := Str(""), "email" := Str("")] + defaults;
  }

  lemma {:induction false} DefaultsAreBlank(fs: seq<Field>, k: string)
    requires k in FieldDefaults(fs)
    ensures FieldDefaults(fs)[k] == Str("") || FieldDefaults(fs)[k] == Bool(false)
  {
    if k != fs[|fs| - 1].name {
      DefaultsAreBlank(fs[..|fs| - 1], k);
    }
  }

  // ---- the editor ---------------------------------------------------------------------

  /** The keys `handleFieldFormChange` is called with. */
  datatype FieldChange = SetType(t: string) | SetName(n: string) | SetPlaceholder(p: string) | SetRequired(b: bool)

  function ApplyChange(f: Field, c: FieldChange): Field
  {
    match c
    case SetType(t) => f.(fieldType := t)
    case SetName(n) => f.(name := n)
    case SetPlaceholder(p) => f.(placeholder := p)
    case SetRequired(b) => f.(required := b)
  }

  /** The label edit: a new field's name is generated from the label, an existing
    * field's name is left alone. */
  function Relabel(f: Field, text: string, isNew: bool): (r: Field)
    ensures r.caption == text
    ensures isNew ==> r.name == GenerateFieldName(text)
    ensures !isNew ==> r.name == f.name
    ensures r.(caption := f.caption, name := f.name) == f
  {
    f.(caption := text, name := if isNew then GenerateFieldName(text) else f.name)
  }

  datatype OptionKey = OptionValue | OptionLabel

  /** The field list, the field being edited (with its position, or -1 for a new
    * one) and the saving flag.  The list's buttons are shown only while no field
    * is being edited, and the field form only while one is. */
  class FieldEditor {
    var fields: seq<Field>
    var editing: Option<Field>
    var editingIndex: int
    var saving: bool

    ghost predicate Valid()
      reads this
    {
      -1 <= editingIndex < |fields| && (editing.None? ==> editingIndex == -1)
    }

    constructor()
      ensures Valid() && fields == [] && editing.None? && !saving
    {
      fields := [];
      editing := None;
      editingIndex := -1;
      saving := false;
    }

    /** The effect run when an event is given: its fields in `sortOrder`, nothing edited. */
    method Load(registrationFields: seq<Field>)
      modifies this
      ensures Valid()
      ensures fields == SortBySortOrder(registrationFields) && editing.None? && saving == old(saving)
    {
      fields := SortBySortOrder(registrationFields);
      editing := None;
      editingIndex := -1;
    }

    /** `handleAddField()`: a blank field whose `sortOrder` is the list's length. */
    method AddField()
      requires Valid() && editing.None?
      modifies this
      ensures Valid()
      ensures editing == Some(EmptyField().(sortOrder := |fields|)) && editingIndex == -1
      ensures fields == old(fields) && saving == old(saving)
    {
      var f := EmptyField();
      f := f.(sortOrder := |fields|);
      editing := Some(f);
      editingIndex := -1;
    }

    /** `handleEditField(field, index)`. */
    method EditField(index: int)
      requires Valid() && editing.None? && 0 <= index < |fields|
      modifies this
      ensures Valid()
      ensures fields == old(fields) && saving == old(saving)
      ensures editing == Some(fields[index]) && editingIndex == index
    {
      editing := Some(fields[index]);
      editingIndex := index;
    }

    method DeleteField(index: int)
      requires Valid() && editing.None?
      modifies this
      ensures Valid()
      ensures fields == DeleteAt(old(fields), index)
      ensures editing == old(editing) && editingIndex == old(editingIndex) && saving == old(saving)
    {
      var kept: seq<Field> := [];
      var i := 0;
      while i < |fields|
        invariant 0 <= i <= |fields|
        invariant kept == (if index < i && 0 <= index then fields[..index] + fields[index + 1..i] else fields[..i])
      {
        if i != index {
          kept := kept + [fields[i]];
        }
        i := i + 1;
      }
      assert index < |fields| && 0 <= index ==> fields[index + 1..|fields|] == fields[index + 1..];
      assert fields[..|fields|] == fields;
      fields := Renumbered(kept);
    }

    method MoveFieldBy(index: int, direction: int)
      requires Valid() && editing.None? && 0 <= index < |fields|
      modifies this
      ensures Valid()
      ensures fields == MoveField(old(fields), index, direction)
      ensures editing == old(editing) && editingIndex == old(editingIndex) && saving == old(saving)
    {
      var target := index + direction;
      if target < 0 || target >= |fields| {
        return;
      }
      var updated := fields;
      var temp := updated[index];
      updated := updated[index := updated[target]];
      updated := updated[target := temp];
      fields := Renumbered(updated);
    }

    method FieldFormChange(c: FieldChange)
      requires Valid() && editing.Some?
      modifies this
      ensures Valid()
      ensures editing == Some(ApplyChange(old(editing).value, c))
      ensures fields == old(fields) && editingIndex == old(editingIndex) && saving == old(saving)
    {
      editing := Some(ApplyChange(editing.value, c));
    }

    /** `handleLabelChange(value)`: the name follows the label only for a new field. */
    method LabelChange(value: string)
      requires Valid() && editing.Some?
      modifies this
      ensures Valid()
      ensures editing == Some(Relabel(old(editing).value, value, editingIndex == -1))
      ensures fields == old(fields) && editingIndex == old(editingIndex) && saving == old(saving)
    {
      editing := Some(Relabel(editing.value, value, editingIndex == -1));
    }

    method AddOption()
      requires Valid() && editing.Some?
      modifies this
      ensures Valid()
      ensures editing == Some(old(editing).value.(options := old(editing).value.options + [FieldOption("", "")]))
      ensures fields == old(fields) && editingIndex == old(editingIndex) && saving == old(saving)
    {
      var prev := editing.value;
      editing := Some(prev.(options := prev.options + [FieldOption("", "")]));
    }

    method OptionChange(optIndex: int, key: OptionKey, value: string)
      requires Valid() && editing.Some? && 0 <= optIndex < |editing.value.options|
      modifies this
      ensures Valid() && editing.Some?
      ensures var o := old(editing).value.options[optIndex];
        editing.value == old(editing).value.(options := old(editing).value.options[optIndex :=
          if key == OptionValue then o.(value := value) else o.(caption := value)])
      ensures fields == old(fields) && editingIndex == old(editingIndex) && saving == old(saving)
    {
      var prev := editing.value;
      var o := prev.options[optIndex];
      var changed := if key == OptionValue then o.(value := value) else o.(caption := value);
      editing := Some(prev.(options := prev.options[optIndex := changed]));
    }

    method RemoveOption(optIndex: int)
      requires Valid() && editing.Some?
      modifies this
      ensures Valid() && editing.Some?
      ensures var opts := old(editing).value.options;
        editing.value == old(editing).value.(options :=
          if 0 <= optIndex < |opts| then opts[..optIndex] + opts[optIndex + 1..] else opts)
      ensures fields == old(fields) && editingIndex == old(editingIndex) && saving == old(saving)
    {
      var prev := editing.value;
      var opts := prev.options;
      if 0 <= optIndex < |opts| {
        opts := opts[..optIndex] + opts[optIndex + 1..];
      }
      editing := Some(prev.(options := opts));
    }

    /** `handleSaveField()`: without a label or a name nothing happens at all;
      * otherwise the field goes into the list and editing ends. */
    method SaveField()
      requires Valid() && editing.Some?
      modifies this
      ensures Valid()
      ensures old(editing).value.caption == "" || old(editing).value.name == "" ==>
        fields == old(fields) && editing == old(editing) && editingIndex == old(editingIndex)
      ensures old(editing).value.caption != "" && old(editing).value.name != "" ==>
        fields == SaveInto(old(fields), old(editing).value, old(editingIndex)) && editing.None?
      ensures saving == old(saving)
    {
      var f := editing.value;
      if f.caption == "" || f.name == "" {
        return;
      }
      fields := SaveInto(fields, f, editingIndex);
      editing := None;
      editingIndex := -1;
    }

    method CancelFieldEdit()
      requires Valid()
      modifies this
      ensures Valid()
      ensures editing.None? && fields == old(fields) && saving == old(saving)
    {
      editing := None;
      editingIndex := -1;
    }
  }

  /** What the builder and the modal hand to their `onSave`. */
  datatype SavePayload = SavePayload(registrationFields: seq<Field>, registrationOpen: Option<bool>)

  /** The builder's `handleSave`: the current list is sent; the saving flag is
    * cleared whatever the outcome. */
  method BuilderSave(editor: FieldEditor) returns (payload: SavePayload)
    modifies editor
    ensures payload == SavePayload(editor.fields, None)
    ensures editor.fields == old(editor.fields) && editor.editing == old(editor.editing)
    ensures editor.editingIndex == old(editor.editingIndex) && !editor.saving
  {
    editor.saving := true;
    payload := SavePayload(editor.fields, None);
    editor.saving := false;
  }

  /** `RegistrationFieldsModal`: the editor plus the modal's open state and the
    * registration switch. */
  class FieldsModal {
    const editor: FieldEditor
    var isOpen: bool
    var registrationOpen: bool

    ghost predicate Valid()
      reads this, editor
    {
      editor.Valid()
    }

    constructor()
      ensures Valid() && !isOpen && !registrationOpen && editor.fields == [] && fresh(editor)
    {
      editor := new FieldEditor();
      isOpen := false;
      registrationOpen := false;
    }

    /** The effect run on opening with an event: its fields sorted, its switch as a boolean. */
    method Open(registrationFields: Option<seq<Field>>, eventRegistrationOpen: Value)
      requires Valid()
      modifies this, editor
      ensures Valid() && isOpen
      ensures editor.fields == SortBySortOrder(if registrationFields.Some? then registrationFields.value else [])
      ensures editor.editing.None?
      ensures registrationOpen == Truthy(eventRegistrationOpen)
    {
      isOpen := true;
      editor.Load(if registrationFields.Some? then registrationFields.value else []);
      registrationOpen := Truthy(eventRegistrationOpen);
    }

    /** `handleSave()`: the fields and the switch go out together; the modal closes
      * only when `onSave` resolves. */
    method Save(resolved: bool) returns (payload: SavePayload)
      requires Valid()
      modifies this, editor
      ensures Valid()
      ensures payload == SavePayload(old(editor.fields), Some(old(registrationOpen)))
      ensures isOpen == (old(isOpen) && !resolved)
      ensures !editor.saving && editor.fields == old(editor.fields) && editor.editing == old(editor.editing)
      ensures registrationOpen == old(registrationOpen)
    {
      editor.saving := true;
      payload := SavePayload(editor.fields, Some(registrationOpen));
      if resolved {
        isOpen := false;
      }
      editor.saving := false;
    }

    /** `handleCancel()`: editing ends and the modal closes; the list is kept. */
    method Cancel()
      requires Valid()
      modifies this, editor
      ensures Valid() && !isOpen && editor.editing.None?
      ensures editor.fields == old(editor.fields) && registrationOpen == old(registrationOpen)
    {
      editor.CancelFieldEdit();
      isOpen := false;
    }
  }
}
