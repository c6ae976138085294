// The ordering a `$sort` stage puts documents in: field by field in the order
// the sort names them, each ascending (1) or descending (-1), values compared
// across types by the store's type order and within a type by their natural
// order; a missing field sorts as null.

module DocOrdering {
  import opened Values

  /** Position of each kind of value in the store's cross-type order. */
  function TypeRank(v: Value): int
  {
    match v
    case Null => 1
    case Num(_) => 2
    case Str(_) => 3
    case Obj(_) => 4
    case Arr(_) => 5
    case Bool(_) => 8
  }

  function CompareInts(a: int, b: int): int
  {
    if a < b then -1 else if a > b then 1 else 0
  }

  /** Binary (code-point) comparison of two strings. */
  function CompareStrings(a: string, b: string): int
  {
    if |a| == 0 && |b| == 0 then 0
    else if |a| == 0 then -1
    else if |b| == 0 then 1
    else if a[0] < b[0] then -1
    else if a[0] > b[0] then 1
    else CompareStrings(a[1..], b[1..])
  }

  /** Sign of the comparison of two values: -1, 0 or 1.  Arrays and objects are
    * not ordered among themselves. */
  function CompareValues(a: Value, b: Value): int
  {
    if TypeRank(a) != TypeRank(b) then CompareInts(TypeRank(a), TypeRank(b))
    else match a
      case Num(x) => CompareInts(x, b.n)
      case Str(x) => CompareStrings(x, b.s)
      case Bool(x) => CompareInts(if x then 1 else 0, if b.b then 1 else 0)
      case _ => 0
  }

  function FieldValue(d: Doc, k: string): Value
  {
    if k in d then d[k] else Null
  }

  /** A validated ordering: each field with its direction, 1 or -1. */
  type Ordering = seq<(string, int)>

  /** `{ createdAt: -1 }`: newest first, the order of every listing and search. */
  const NewestFirst: Ordering := [("createdAt", -1)]

  predicate ValidOrdering(keys: Ordering)
  {
    forall i :: 0 <= i < |keys| ==> keys[i].1 == 1 || keys[i].1 == -1
  }

  function CompareDocs(a: Doc, b: Doc, keys: Ordering): int
    requires ValidOrdering(keys)
  {
    if |keys| == 0 then 0
    else
      var v := CompareValues(FieldValue(a, keys[0].0), FieldValue(b, keys[0].0));
      var c := if keys[0].1 == 1 then v else -v;
      if c != 0 then c else CompareDocs(a, b, keys[1..])
  }

  predicate Le(a: Doc, b: Doc, keys: Ordering)
    requires ValidOrdering(keys)
  {
    CompareDocs(a, b, keys) <= 0
  }

  // ---- the comparisons form a total preorder ----------------------------------

  lemma {:induction false} CompareStringsFacts(a: string, b: string, c: string)
    ensures CompareStrings(a, b) == -CompareStrings(b, a)
    ensures CompareStrings(a, b) in {-1, 0, 1}
    ensures CompareStrings(a, b) <= 0 && CompareStrings(b, c) <= 0 ==> CompareStrings(a, c) <= 0
    ensures CompareStrings(a, b) == 0 ==> a == b
  {
    if |a| > 0 && |b| > 0 && |c| > 0 {
      CompareStringsFacts(a[1..], b[1..], c[1..]);
      if a[0] == b[0] && CompareStrings(a[1..], b[1..]) == 0 {
        assert a == [a[0]] + a[1..] && b == [b[0]] + b[1..];
      }
    } else if |a| > 0 && |b| > 0 {
      CompareStringsFacts(a[1..], b[1..], a[1..]);
      if a[0] == b[0] && CompareStrings(a[1..], b[1..]) == 0 {
        assert a == [a[0]] + a[1..] && b == [b[0]] + b[1..];
      }
    }
  }

  lemma CompareValuesFacts(a: Value, b: Value, c: Value)
    ensures CompareValues(a, b) == -CompareValues(b, a)
    ensures CompareValues(a, b) in {-1, 0, 1}
    ensures CompareValues(a, b) <= 0 && CompareValues(b, c) <= 0 ==> CompareValues(a, c) <= 0
  {
    if a.Str? && b.Str? && c.Str? {
      CompareStringsFacts(a.s, b.s, c.s);
    } else if a.Str? && b.Str? {
      CompareStringsFacts(a.s, b.s, a.s);
    }
  }

  lemma CompareValuesChain(x: Value, y: Value, z: Value)
    ensures CompareValues(x, y) < 0 && CompareValues(y, z) <= 0 ==> CompareValues(x, z) < 0
    ensures CompareValues(x, y) <= 0 && CompareValues(y, z) < 0 ==> CompareValues(x, z) < 0
    ensures CompareValues(x, y) == 0 && CompareValues(y, z) == 0 ==> CompareValues(x, z) == 0
  {
    CompareValuesFacts(x, y, z);
    CompareValuesFacts(y, z, x);
    CompareValuesFacts(z, x, y);
    CompareValuesFacts(x, z, y);
    CompareValuesFacts(z, y, x);
    CompareValuesFacts(y, x, z);
  }

  lemma {:induction false} CompareDocsFacts(a: Doc, b: Doc, c: Doc, keys: Ordering)
    requires ValidOrdering(keys)
    ensures CompareDocs(a, b, keys) == -CompareDocs(b, a, keys)
    ensures CompareDocs(a, b, keys) in {-1, 0, 1}
    ensures Le(a, b, keys) && Le(b, c, keys) ==> Le(a, c, keys)
  {
    if |keys| > 0 {
      var k := keys[0].0;
      var (x, y, z) := (FieldValue(a, k), FieldValue(b, k), FieldValue(c, k));
      CompareValuesFacts(x, y, z);
      CompareValuesFacts(x, z, y);
      CompareValuesFacts(y, z, x);
      CompareValuesChain(x, y, z);
      CompareValuesChain(z, y, x);
      CompareDocsFacts(a, b, c, keys[1..]);
      if Le(a, b, keys) && Le(b, c, keys) {
        if CompareValues(x, y) == 0 && CompareValues(y, z) == 0 {
          assert CompareValues(x, z) == 0;
          assert Le(a, b, keys[1..]) && Le(b, c, keys[1..]);
        }
      }
    }
  }

  // ---- stable insertion sort ---------------------------------------------------

  predicate Sorted(s: seq<Doc>, keys: Ordering)
    requires ValidOrdering(keys)
  {
    forall i, j :: 0 <= i < j < |s| ==> Le(s[i], s[j], keys)
  }

  /** Places `x` after the last element that does not sort after it. */
  function Insert(x: Doc, t: seq<Doc>, keys: Ordering): (r: seq<Doc>)
    requires ValidOrdering(keys)
    ensures multiset(r) == multiset(t) + multiset{x}
  {
    if |t| == 0 then [x]
    else if Le(t[|t| - 1], x, keys) then t + [x]
    else
      assert t == t[..|t| - 1] + [t[|t| - 1]];
      Insert(x, t[..|t| - 1], keys) + [t[|t| - 1]]
  }

  /** The documents in the requested order; documents that compare equal keep the
    * order they were given in. */
  function SortDocs(s: seq<Doc>, keys: Ordering): (r: seq<Doc>)
    requires ValidOrdering(keys)
    ensures multiset(r) == multiset(s)
  {
    if |s| == 0 then []
    else
      assert s == s[..|s| - 1] + [s[|s| - 1]];
      Insert(s[|s| - 1], SortDocs(s[..|s| - 1], keys), keys)
  }

  lemma SortDocsMembers(s: seq<Doc>, keys: Ordering)
    requires ValidOrdering(keys)
    ensures forall d :: d in SortDocs(s, keys) <==> d in s
  {
    var r := SortDocs(s, keys);
    forall d ensures d in r <==> d in s {
      assert d in r <==> d in multiset(r);
      assert d in s <==> d in multiset(s);
    }
  }

  lemma {:induction false} InsertSorted(x: Doc, t: seq<Doc>, keys: Ordering)
    requires ValidOrdering(keys)
    requires Sorted(t, keys)
    ensures Sorted(Insert(x, t, keys), keys)
  {
    if |t| == 0 {
    } else if Le(t[|t| - 1], x, keys) {
      forall e | e in t ensures Le(e, x, keys) {
        var i :| 0 <= i < |t| && t[i] == e;
        if i < |t| - 1 {
          CompareDocsFacts(t[i], t[|t| - 1], x, keys);
        }
      }
      AppendAfterAll(t, x, keys);
    } else {
      var last := t[|t| - 1];
      var front := t[..|t| - 1];
      SortedPrefix(t, keys);
      InsertSorted(x, front, keys);
      CompareDocsFacts(x, last, x, keys);
      var ins := Insert(x, front, keys);
      InsertedBelow(x, t, front, last, keys);
      AppendAfterAll(ins, last, keys);
      assert Insert(x, t, keys) == ins + [last];
    }
  }

  lemma SortedPrefix(t: seq<Doc>, keys: Ordering)
    requires ValidOrdering(keys) && Sorted(t, keys) && |t| > 0
    ensures Sorted(t[..|t| - 1], keys)
  {
    var front := t[..|t| - 1];
    forall i, j | 0 <= i < j < |front| ensures Le(front[i], front[j], keys) {
      assert front[i] == t[i] && front[j] == t[j];
    }
  }

  /** Appending an element no smaller than any other keeps a list sorted. */
  lemma AppendAfterAll(s: seq<Doc>, y: Doc, keys: Ordering)
    requires ValidOrdering(keys) && Sorted(s, keys)
    requires forall e :: e in s ==> Le(e, y, keys)
    ensures Sorted(s + [y], keys)
  {
    var r := s + [y];
    forall i, j | 0 <= i < j < |r| ensures Le(r[i], r[j], keys) {
      if j == |s| {
        assert r[i] in s;
      } else {
        assert r[i] == s[i] && r[j] == s[j];
      }
    }
  }

  /** Inserting below the last element keeps every element no larger than it. */
  lemma InsertedBelow(x: Doc, t: seq<Doc>, front: seq<Doc>, last: Doc, keys: Ordering)
    requires ValidOrdering(keys) && Sorted(t, keys) && |t| > 0
    requires front == t[..|t| - 1] && last == t[|t| - 1]
    requires Le(x, last, keys)
    ensures forall e :: e in Insert(x, front, keys) ==> Le(e, last, keys)
  {
    var ins := Insert(x, front, keys);
    forall e | e in ins ensures Le(e, last, keys) {
      assert e in multiset(ins);
      if e != x {
        assert e in multiset(front);
        var i :| 0 <= i < |front| && front[i] == e;
        assert t[i] == e;
      }
    }
  }

  lemma {:induction false} SortDocsSorted(s: seq<Doc>, keys: Ordering)
    requires ValidOrdering(keys)
    ensures Sorted(SortDocs(s, keys), keys)
  {
    if |s| > 0 {
      SortDocsSorted(s[..|s| - 1], keys);
      InsertSorted(s[|s| - 1], SortDocs(s[..|s| - 1], keys), keys);
    }
  }
}
