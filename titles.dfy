/** The `titles` table: an append-only store of generated titles, with a validating insert
    (`generate`) and a query by user and video (`list`). */
module Titles {

  /** A document id. Ids are issued from a counter that starts at 1, so every id is truthy. */
  type Id = nat

  /** One stored document of the `titles` table. */
  datatype Row = Row(id: Id, videoId: string, userId: string, title: string)

  /** What the `generate` mutation does: it returns the new document's id or throws. */
  datatype InsertResult = Inserted(id: Id) | Threw(message: string)

  const MissingRequiredFields := "Missing required fields"

  /** Ids are positive, below the next id to issue, and strictly increasing in insertion order. */
  predicate IdsOrdered(rows: seq<Row>, nextId: Id)
  {
    0 < nextId &&
    (forall i :: 0 <= i < |rows| ==> 0 < rows[i].id < nextId) &&
    (forall i, j :: 0 <= i < j < |rows| ==> rows[i].id < rows[j].id)
  }

  /** The rows of `rows` stored for this user and video, in insertion order: what the
      `by_user_and_video` index yields for equal (userId, videoId) keys. */
  function Matching(rows: seq<Row>, videoId: string, userId: string): seq<Row>
  {
    if rows == [] then []
    else
      var last := rows[|rows| - 1];
      Matching(rows[..|rows| - 1], videoId, userId) +
      (if last.userId == userId && last.videoId == videoId then [last] else [])
  }

  /** `Matching` keeps exactly the rows whose user and video both match, and no others. */
  lemma {:induction false} MatchingMembers(rows: seq<Row>, videoId: string, userId: string)
    ensures forall x :: x in Matching(rows, videoId, userId) <==>
      x in rows && x.userId == userId && x.videoId == videoId
  {
    if rows != [] {
      var init := rows[..|rows| - 1];
      MatchingMembers(init, videoId, userId);
      assert rows == init + [rows[|rows| - 1]];
    }
  }

  /** `Matching` keeps the order of the table: with ordered ids the result is ordered too. */
  lemma {:induction false} MatchingOrdered(rows: seq<Row>, nextId: Id, videoId: string, userId: string)
    requires IdsOrdered(rows, nextId)
    ensures IdsOrdered(Matching(rows, videoId, userId), nextId)
  {
    if rows != [] {
      var init := rows[..|rows| - 1];
      var last := rows[|rows| - 1];
      MatchingOrdered(init, nextId, videoId, userId);
      MatchingMembers(init, videoId, userId);
      var m := Matching(init, videoId, userId);
      forall i | 0 <= i < |m| ensures m[i].id < last.id {
        assert m[i] in init;
      }
    }
  }

  /** A new row matching the query appears at the end of the query's result; any other
      new row leaves the result as it was. */
  lemma MatchingAppend(rows: seq<Row>, row: Row, videoId: string, userId: string)
    ensures Matching(rows + [row], videoId, userId) ==
      Matching(rows, videoId, userId) + (if row.userId == userId && row.videoId == videoId then [row] else [])
  {
    assert (rows + [row])[..|rows|] == rows;
  }

  class TitleTable {
    /** The stored documents, in insertion order. */
    var rows: seq<Row>
    /** The id the next insert will issue. */
    var nextId: Id

    ghost predicate Valid()
      reads this
    {
      IdsOrdered(rows, nextId)
    }

    /** An empty table. */
    constructor ()
      ensures Valid() && rows == [] && nextId == 1
    {
      rows := [];
      nextId := 1;
    }

    /** The `generate` mutation: reject an empty field, otherwise always insert one new row,
        even when an identical row exists, and return its fresh id. */
    method Generate(videoId: string, userId: string, title: string) returns (r: InsertResult)
      requires Valid()
      modifies this
      ensures Valid()
      ensures r.Threw? <==> videoId == "" || userId == "" || title == ""
      ensures r.Threw? ==> r.message == MissingRequiredFields && rows == old(rows) && nextId == old(nextId)
      ensures r.Inserted? ==> r.id == old(nextId) && rows == old(rows) + [Row(r.id, videoId, userId, title)]
      ensures r.Inserted? ==> 0 < r.id && forall x :: x in old(rows) ==> x.id != r.id
    {
      if videoId == "" || userId == "" || title == "" {
        return Threw(MissingRequiredFields);
      }
      r := Inserted(nextId);
      rows := rows + [Row(nextId, videoId, userId, title)];
      nextId := nextId + 1;
    }

    /** The `list` query: the stored rows of this user and video, in insertion order. */
    method List(videoId: string, userId: string) returns (rs: seq<Row>)
      requires Valid()
      ensures forall x :: x in rs <==> x in rows && x.userId == userId && x.videoId == videoId
      ensures forall i, j :: 0 <= i < j < |rs| ==> rs[i].id < rs[j].id
      ensures rs == Matching(rows, videoId, userId)
    {
      rs := Matching(rows, videoId, userId);
      MatchingMembers(rows, videoId, userId);
      MatchingOrdered(rows, nextId, videoId, userId);
    }
  }
}
