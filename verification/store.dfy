/** The relational store behind the handlers' `Session`: one map per table,
    keyed by primary key. A handler reads rows as values, edits its copy,
    and `session.add(row)` followed by `session.commit()` writes the copy
    back over the stored row. */
module Store {
  import opened Base
  import opened Models

  /** A snapshot of every table the core touches. */
  datatype Tables = Tables(
    users: map<Uuid, User>,
    devices: map<Uuid, Device>,
    trips: map<Uuid, Trip>,
    segments: map<Uuid, Segment>,
    uploads: map<Uuid, UploadSession>,
    storedFiles: map<Uuid, StoredFile>)

  /** The integrity the handlers rely on: rows are stored under their own
      primary key, every upload session's trip row exists (the `upload.trip`
      relationship is dereferenced without a check), and no session's offset
      is negative (it is used as a file position). */
  predicate Consistent(t: Tables) {
    && (forall id :: id in t.trips ==> t.trips[id].id == id)
    && (forall id :: id in t.segments ==> t.segments[id].id == id)
    && (forall id :: id in t.uploads ==>
          t.uploads[id].id == id && t.uploads[id].tripId in t.trips && t.uploads[id].offset >= 0)
  }

  /** Rewriting one session in place keeps the store consistent as long as
      the session keeps its trip and a non-negative offset. */
  lemma SessionUpdateKeepsConsistent(t: Tables, u: UploadSession)
    requires Consistent(t) && u.id in t.uploads
    requires u.tripId == t.uploads[u.id].tripId && u.offset >= 0
    ensures Consistent(t.(uploads := t.uploads[u.id := u]))
  {
  }

  /** Rewriting one segment in place keeps the store consistent as long as
      the segment keeps its key. */
  lemma SegmentUpdateKeepsConsistent(t: Tables, s: Segment)
    requires Consistent(t)
    ensures Consistent(t.(segments := t.segments[s.id := s]))
  {
  }

  class Database {
    var users: map<Uuid, User>
    var devices: map<Uuid, Device>
    var trips: map<Uuid, Trip>
    var segments: map<Uuid, Segment>
    var uploads: map<Uuid, UploadSession>
    var storedFiles: map<Uuid, StoredFile>

    function Snapshot(): Tables
      reads this
    {
      Tables(users, devices, trips, segments, uploads, storedFiles)
    }

    predicate Valid()
      reads this
    {
      Consistent(Snapshot())
    }
  }

  // -------------------------------------------------------------- ORDER BY

  /** Whether a row with key `a` may precede a row with key `b`. */
  predicate InOrder(a: int, b: int, descending: bool) {
    if descending then a >= b else a <= b
  }

  /** `ids` lists every key of `keep` exactly once, ordered by `key` of the
      row (rows with equal keys in any order, as SQL leaves them). */
  predicate OrderedListing<T>(rows: map<Uuid, T>, keep: set<Uuid>, key: T -> int, descending: bool, ids: seq<Uuid>)
    requires keep <= rows.Keys
  {
    && (forall i :: 0 <= i < |ids| ==> ids[i] in keep)
    && (forall id :: id in keep ==> id in ids)
    && (forall i, j :: 0 <= i < j < |ids| ==> ids[i] != ids[j])
    && (forall i, j :: 0 <= i < j < |ids| ==>
          InOrder(key(rows[ids[i]]), key(rows[ids[j]]), descending))
  }

  /** A non-empty set of rows has a row that may come first. */
  lemma {:induction false} FirstExists<T>(rows: map<Uuid, T>, s: set<Uuid>, key: T -> int, descending: bool)
    requires s != {} && s <= rows.Keys
    ensures exists x :: x in s && forall y :: y in s ==> InOrder(key(rows[x]), key(rows[y]), descending)
  {
    var x :| x in s;
    if s != {x} {
      FirstExists(rows, s - {x}, key, descending);
      var z :| z in s - {x} && forall y :: y in s - {x} ==> InOrder(key(rows[z]), key(rows[y]), descending);
      if InOrder(key(rows[x]), key(rows[z]), descending) {
        assert forall y :: y in s ==> InOrder(key(rows[x]), key(rows[y]), descending);
      } else {
        assert forall y :: y in s ==> InOrder(key(rows[z]), key(rows[y]), descending);
      }
    } else {
      assert forall y :: y in s ==> y == x;
    }
  }

  /** `select ... where ... order_by(key)`: the ids of the rows in `keep`,
      ordered by `key` (descending or ascending). */
  method OrderBy<T>(rows: map<Uuid, T>, keep: set<Uuid>, key: T -> int, descending: bool) returns (ids: seq<Uuid>)
    requires keep <= rows.Keys
    ensures OrderedListing(rows, keep, key, descending, ids)
  {
    ids := [];
    var remaining := keep;
    while remaining != {}
      invariant remaining <= keep
      invariant forall i :: 0 <= i < |ids| ==> ids[i] in keep && ids[i] !in remaining
      invariant forall id :: id in keep ==> id in remaining || id in ids
      invariant forall i, j :: 0 <= i < j < |ids| ==> ids[i] != ids[j]
      invariant forall i, j :: 0 <= i < j < |ids| ==> InOrder(key(rows[ids[i]]), key(rows[ids[j]]), descending)
      invariant forall i, r :: 0 <= i < |ids| && r in remaining ==> InOrder(key(rows[ids[i]]), key(rows[r]), descending)
      decreases remaining
    {
      FirstExists(rows, remaining, key, descending);
      var next :| next in remaining && forall r :: r in remaining ==> InOrder(key(rows[next]), key(rows[r]), descending);
      ids := ids + [next];
      remaining := remaining - {next};
    }
  }
}
