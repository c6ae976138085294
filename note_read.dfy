// Per-user read marks for notes (api/models/noteRead.js and the NoteRead schema).
// The collection keeps at most one record per (note, user) pair — the schema's
// unique compound index — in insertion order; marking a note read upserts that
// pair's record.

module NoteReads {
  import opened Wrappers

  /** One read mark; note and user ids are the string forms of their ObjectIds. */
  datatype ReadRow = ReadRow(noteId: string, userId: string, readAt: int)

  predicate SamePair(a: ReadRow, b: ReadRow)
  {
    a.noteId == b.noteId && a.userId == b.userId
  }

  /** The unique index on (noteId, userId). */
  ghost predicate UniquePairs(rows: seq<ReadRow>)
  {
    forall i, j :: 0 <= i < j < |rows| ==> !SamePair(rows[i], rows[j])
  }

  /** The (note, user) pairs that are read. */
  function ReadPairs(rows: seq<ReadRow>): set<(string, string)>
  {
    set r | r in rows :: (r.noteId, r.userId)
  }

  /** The position of the pair's record, if it has one. */
  function IndexOfPair(rows: seq<ReadRow>, noteId: string, userId: string): (r: Option<nat>)
    ensures r.Some? ==> r.value < |rows| && rows[r.value].noteId == noteId && rows[r.value].userId == userId
    ensures r.None? ==> forall i :: 0 <= i < |rows| ==> !(rows[i].noteId == noteId && rows[i].userId == userId)
  {
    if |rows| == 0 then None
    else if rows[0].noteId == noteId && rows[0].userId == userId then Some(0)
    else
      match IndexOfPair(rows[1..], noteId, userId)
      case None => None
      case Some(i) => Some(i + 1)
  }

  /** `findOneAndUpdate({noteId, userId}, {noteId, userId, readAt}, {upsert: true})`:
    * the pair's record gets the new time, or a record is appended. */
  function Upsert(rows: seq<ReadRow>, noteId: string, userId: string, now: int): seq<ReadRow>
  {
    match IndexOfPair(rows, noteId, userId)
    case Some(i) => rows[i := ReadRow(noteId, userId, now)]
    case None => rows + [ReadRow(noteId, userId, now)]
  }

  /** The bulk write of `markManyAsRead`: one upsert per id, in order. */
  function UpsertAll(rows: seq<ReadRow>, noteIds: seq<string>, userId: string, now: int): seq<ReadRow>
  {
    if |noteIds| == 0 then rows
    else Upsert(UpsertAll(rows, noteIds[..|noteIds| - 1], userId, now), noteIds[|noteIds| - 1], userId, now)
  }

  /** Marking one pair adds exactly that pair, keeps the index unique, adds at most
    * one record, and leaves every other record as it was. */
  lemma UpsertShape(rows: seq<ReadRow>, noteId: string, userId: string, now: int)
    requires UniquePairs(rows)
    ensures var after := Upsert(rows, noteId, userId, now);
      && UniquePairs(after)
      && ReadPairs(after) == ReadPairs(rows) + {(noteId, userId)}
      && ReadRow(noteId, userId, now) in after
      && |after| == (if (noteId, userId) in ReadPairs(rows) then |rows| else |rows| + 1)
      && (forall r :: r in rows && !(r.noteId == noteId && r.userId == userId) ==> r in after)
      && (forall r :: r in after && !(r.noteId == noteId && r.userId == userId) ==> r in rows)
  {
    var after := Upsert(rows, noteId, userId, now);
    var row := ReadRow(noteId, userId, now);
    match IndexOfPair(rows, noteId, userId)
    case Some(i) =>
      assert (noteId, userId) == (rows[i].noteId, rows[i].userId);
      forall r | r in rows && !(r.noteId == noteId && r.userId == userId) ensures r in after {
        var k :| 0 <= k < |rows| && rows[k] == r;
        assert after[k] == r;
      }
      forall r | r in after ensures (r.noteId, r.userId) in ReadPairs(rows) {
        var k :| 0 <= k < |after| && after[k] == r;
        if k != i { assert rows[k] == r; }
      }
      forall r | r in after && !(r.noteId == noteId && r.userId == userId) ensures r in rows {
        var k :| 0 <= k < |after| && after[k] == r;
        assert k != i && rows[k] == r;
      }
      forall p | p in ReadPairs(rows) ensures p in ReadPairs(after) {
        var r :| r in rows && p == (r.noteId, r.userId);
        if !(r.noteId == noteId && r.userId == userId) {
          assert r in after;
        } else {
          assert after[i] == row;
        }
      }
      assert after[i] == row;
    case None =>
      assert (noteId, userId) !in ReadPairs(rows);
      assert after[|rows|] == row;
      forall r | r in after && !(r.noteId == noteId && r.userId == userId) ensures r in rows {
        var k :| 0 <= k < |after| && after[k] == r;
        assert k < |rows|;
      }
  }

  /** Marking many notes for one user reads exactly those notes for that user in
    * addition to what was read before. */
  lemma {:induction false} UpsertAllPairs(rows: seq<ReadRow>, noteIds: seq<string>, userId: string, now: int)
    requires UniquePairs(rows)
    ensures UniquePairs(UpsertAll(rows, noteIds, userId, now))
    ensures ReadPairs(UpsertAll(rows, noteIds, userId, now)) == ReadPairs(rows) + PairsFor(noteIds, userId)
  {
    if |noteIds| > 0 {
      var front := noteIds[..|noteIds| - 1];
      var last := noteIds[|noteIds| - 1];
      UpsertAllPairs(rows, front, userId, now);
      UpsertShape(UpsertAll(rows, front, userId, now), last, userId, now);
      PairsForSnoc(noteIds, userId);
    }
  }

  /** The pairs of the listed notes with one user. */
  function PairsFor(noteIds: seq<string>, userId: string): set<(string, string)>
  {
    set id | id in noteIds :: (id, userId)
  }

  lemma PairsForSnoc(noteIds: seq<string>, userId: string)
    requires |noteIds| > 0
    ensures PairsFor(noteIds, userId) == PairsFor(noteIds[..|noteIds| - 1], userId) + {(noteIds[|noteIds| - 1], userId)}
  {
    assert noteIds == noteIds[..|noteIds| - 1] + [noteIds[|noteIds| - 1]];
  }

  /** Another user's records, in order. */
  function RowsOf(rows: seq<ReadRow>, userId: string): seq<ReadRow>
  {
    if |rows| == 0 then []
    else (if rows[0].userId == userId then [rows[0]] else []) + RowsOf(rows[1..], userId)
  }

  lemma {:induction false} RowsOfAppend(a: seq<ReadRow>, b: seq<ReadRow>, userId: string)
    ensures RowsOf(a + b, userId) == RowsOf(a, userId) + RowsOf(b, userId)
  {
    if |a| > 0 {
      assert (a + b)[1..] == a[1..] + b;
      RowsOfAppend(a[1..], b, userId);
    } else {
      assert a + b == b;
    }
  }

  lemma {:induction false} RowsOfUpdate(rows: seq<ReadRow>, i: nat, row: ReadRow, userId: string)
    requires i < |rows| && rows[i].userId != userId && row.userId != userId
    ensures RowsOf(rows[i := row], userId) == RowsOf(rows, userId)
  {
    if i > 0 {
      assert rows[i := row][1..] == rows[1..][i - 1 := row];
      RowsOfUpdate(rows[1..], i - 1, row, userId);
    } else {
      assert rows[i := row][1..] == rows[1..];
    }
  }

  /** Marking notes for one user never changes another user's records. */
  lemma {:induction false} OtherUsersUntouched(rows: seq<ReadRow>, noteIds: seq<string>, userId: string, other: string, now: int)
    requires other != userId
    ensures RowsOf(UpsertAll(rows, noteIds, userId, now), other) == RowsOf(rows, other)
  {
    if |noteIds| > 0 {
      var front := noteIds[..|noteIds| - 1];
      var last := noteIds[|noteIds| - 1];
      var mid := UpsertAll(rows, front, userId, now);
      OtherUsersUntouched(rows, front, userId, other, now);
      match IndexOfPair(mid, last, userId)
      case Some(i) =>
        RowsOfUpdate(mid, i, ReadRow(last, userId, now), other);
      case None =>
        RowsOfAppend(mid, [ReadRow(last, userId, now)], other);
        assert RowsOf([ReadRow(last, userId, now)], other) == [];
    }
  }

  /** Repeating `markManyAsRead` with the same ids, at any later time, reads
    * nothing new. */
  lemma MarkManyIdempotent(rows: seq<ReadRow>, noteIds: seq<string>, userId: string, t1: int, t2: int)
    requires UniquePairs(rows)
    ensures var once := UpsertAll(rows, noteIds, userId, t1);
      ReadPairs(UpsertAll(once, noteIds, userId, t2)) == ReadPairs(once)
  {
    var once := UpsertAll(rows, noteIds, userId, t1);
    UpsertAllPairs(rows, noteIds, userId, t1);
    UpsertAllPairs(once, noteIds, userId, t2);
  }

  // ---- reads ------------------------------------------------------------------------

  /** `getReadNoteIds(userId, noteIds)`: the ids of the user's records whose note is
    * listed, in the collection's order. */
  function ReadNoteIds(rows: seq<ReadRow>, userId: string, noteIds: seq<string>): (r: seq<string>)
    ensures |r| <= |rows|
  {
    if |rows| == 0 then []
    else
      (if rows[0].userId == userId && rows[0].noteId in noteIds then [rows[0].noteId] else []) +
      ReadNoteIds(rows[1..], userId, noteIds)
  }

  /** The read ids are exactly the listed notes the user has read, each once. */
  lemma {:induction false} ReadNoteIdsExact(rows: seq<ReadRow>, userId: string, noteIds: seq<string>)
    requires UniquePairs(rows)
    ensures forall x :: x in ReadNoteIds(rows, userId, noteIds) <==> x in noteIds && (x, userId) in ReadPairs(rows)
    ensures forall i, j :: 0 <= i < j < |ReadNoteIds(rows, userId, noteIds)| ==>
      ReadNoteIds(rows, userId, noteIds)[i] != ReadNoteIds(rows, userId, noteIds)[j]
  {
    if |rows| > 0 {
      var rest := rows[1..];
      assert UniquePairs(rest) by {
        forall i, j | 0 <= i < j < |rest| ensures !SamePair(rest[i], rest[j]) {
          assert rest[i] == rows[i + 1] && rest[j] == rows[j + 1];
        }
      }
      ReadNoteIdsExact(rest, userId, noteIds);
      assert ReadPairs(rows) == {(rows[0].noteId, rows[0].userId)} + ReadPairs(rest) by {
        assert rows == [rows[0]] + rest;
      }
      if rows[0].userId == userId && rows[0].noteId in noteIds {
        assert (rows[0].noteId, userId) !in ReadPairs(rest) by {
          forall r | r in rest ensures (r.noteId, r.userId) != (rows[0].noteId, userId) {
            var k :| 0 <= k < |rest| && rest[k] == r;
            assert !SamePair(rows[0], rows[k + 1]);
          }
        }
      }
    }
  }

  /** A list without repeats is as long as the set of its elements. */
  lemma {:induction false} DistinctCard(s: seq<string>)
    requires forall i, j :: 0 <= i < j < |s| ==> s[i] != s[j]
    ensures |set x | x in s| == |s|
  {
    if |s| > 0 {
      var rest := s[1..];
      DistinctCard(rest);
      assert (set x | x in s) == {s[0]} + set x | x in rest;
      assert s[0] !in rest;
    }
  }

  lemma {:induction false} SetOfSeqCard(s: seq<string>)
    ensures |set x | x in s| <= |s|
  {
    if |s| > 0 {
      SetOfSeqCard(s[1..]);
      assert (set x | x in s) == {s[0]} + set x | x in s[1..];
    }
  }

  /** `getUnreadCount(userId, allNoteIds)`. */
  function UnreadCount(rows: seq<ReadRow>, userId: string, allNoteIds: seq<string>): int
  {
    if |allNoteIds| == 0 then 0 else |allNoteIds| - |ReadNoteIds(rows, userId, allNoteIds)|
  }

  /** The unread count lies between 0 and the number of notes; with distinct ids
    * it is the number of listed notes the user has not read. */
  lemma UnreadCountBounds(rows: seq<ReadRow>, userId: string, allNoteIds: seq<string>)
    requires UniquePairs(rows)
    ensures 0 <= UnreadCount(rows, userId, allNoteIds) <= |allNoteIds|
    ensures (forall i, j :: 0 <= i < j < |allNoteIds| ==> allNoteIds[i] != allNoteIds[j]) ==>
      UnreadCount(rows, userId, allNoteIds) == |set x | x in allNoteIds && (x, userId) !in ReadPairs(rows)|
  {
    var read := ReadNoteIds(rows, userId, allNoteIds);
    ReadNoteIdsExact(rows, userId, allNoteIds);
    DistinctCard(read);
    SetOfSeqCard(allNoteIds);
    var readSet := set x | x in read;
    var all := set x | x in allNoteIds;
    assert readSet <= all;
    SubsetCard(readSet, all);
    if forall i, j :: 0 <= i < j < |allNoteIds| ==> allNoteIds[i] != allNoteIds[j] {
      DistinctCard(allNoteIds);
      var unread := set x | x in allNoteIds && (x, userId) !in ReadPairs(rows);
      assert unread == all - readSet;
    }
  }

  lemma SubsetCard(a: set<string>, b: set<string>)
    requires a <= b
    ensures |a| <= |b|
    ensures |b - a| == |b| - |a|
  {
    assert b == a + (b - a);
  }

  // ---- the model ----------------------------------------------------------------------

  class NoteReadModel {
    var rows: seq<ReadRow>

    ghost predicate Valid()
      reads this
    {
      UniquePairs(rows)
    }

    constructor ()
      ensures Valid() && rows == []
    {
      rows := [];
    }

    /** `markAsRead(noteId, userId)`; the upserted record is returned. */
    method MarkAsRead(noteId: string, userId: string, now: int) returns (row: ReadRow)
      requires Valid()
      modifies this
      ensures Valid()
      ensures rows == Upsert(old(rows), noteId, userId, now)
      ensures row == ReadRow(noteId, userId, now) && row in rows
      ensures ReadPairs(rows) == ReadPairs(old(rows)) + {(noteId, userId)}
    {
      UpsertShape(rows, noteId, userId, now);
      rows := Upsert(rows, noteId, userId, now);
      row := ReadRow(noteId, userId, now);
    }

    /** `markManyAsRead(noteIds, userId)`: the ordered bulk write of one upsert per id. */
    method MarkManyAsRead(noteIds: seq<string>, userId: string, now: int)
      requires Valid()
      modifies this
      ensures Valid()
      ensures rows == UpsertAll(old(rows), noteIds, userId, now)
      ensures ReadPairs(rows) == ReadPairs(old(rows)) + PairsFor(noteIds, userId)
    {
      ghost var rows0 := rows;
      var i := 0;
      while i < |noteIds|
        invariant 0 <= i <= |noteIds|
        invariant Valid()
        invariant rows == UpsertAll(rows0, noteIds[..i], userId, now)
      {
        assert noteIds[..i + 1][..i] == noteIds[..i];
        var _ := MarkAsRead(noteIds[i], userId, now);
        i := i + 1;
      }
      assert noteIds[..i] == noteIds;
      UpsertAllPairs(rows0, noteIds, userId, now);
    }

    /** Exactly the listed notes the user has read, each once. */
    method GetReadNoteIds(userId: string, noteIds: seq<string>) returns (r: seq<string>)
      requires Valid()
      ensures forall x :: x in r <==> x in noteIds && (x, userId) in ReadPairs(rows)
      ensures forall i, j :: 0 <= i < j < |r| ==> r[i] != r[j]
    {
      r := ReadNoteIds(rows, userId, noteIds);
      ReadNoteIdsExact(rows, userId, noteIds);
    }

    /** The number of listed notes less the number the user has read. */
    method GetUnreadCount(userId: string, allNoteIds: seq<string>) returns (r: int)
      requires Valid()
      ensures r == UnreadCount(rows, userId, allNoteIds)
      ensures 0 <= r <= |allNoteIds|
      ensures (forall i, j :: 0 <= i < j < |allNoteIds| ==> allNoteIds[i] != allNoteIds[j]) ==>
        r == |set x | x in allNoteIds && (x, userId) !in ReadPairs(rows)|
    {
      UnreadCountBounds(rows, userId, allNoteIds);
      if |allNoteIds| == 0 {
        return 0;
      }
      var readCount := |ReadNoteIds(rows, userId, allNoteIds)|;
      r := |allNoteIds| - readCount;
    }
  }
}
