/**
 * The AsyncSheets table: one row per monthly async sheet, with an auto-increment id, the
 * Google Sheets id, the creation time and the Drive folder id. `GetLatest` orders by
 * DateCreated descending and takes the first row; `Save` (the generic repository insert)
 * appends a row whose id the database assigns.
 *
 * The table is a sequence of records in insertion order; DateCreated is a tick count.
 */
module AsyncSheetRepository {
  import opened Wrappers

  /** One row of AsyncSheets (AsyncSheetEntity). */
  datatype AsyncSheetEntity = AsyncSheetEntity(id: nat, sheetId: string, dateCreated: int, folderId: string)

  /**
   * GetLatest: a row with the greatest DateCreated, or None for an empty table. Among rows
   * with the same DateCreated the earliest stored wins; callers rely only on maximality.
   */
  function GetLatest(records: seq<AsyncSheetEntity>): (r: Option<AsyncSheetEntity>)
    ensures r.None? <==> records == []
    ensures r.Some? ==> r.value in records
    ensures r.Some? ==> forall x :: x in records ==> x.dateCreated <= r.value.dateCreated
  {
    if records == [] then None
    else
      var last := records[|records| - 1];
      var before := records[..|records| - 1];
      assert records == before + [last];
      match GetLatest(before)
      case None => Some(last)
      case Some(best) => if last.dateCreated > best.dateCreated then Some(last) else Some(best)
  }

  /** Ids strictly increase in insertion order, as an auto-increment key assigns them. */
  predicate IdsIncreasing(records: seq<AsyncSheetEntity>) {
    forall i, j :: 0 <= i < j < |records| ==> records[i].id < records[j].id
  }

  /** The id the database gives the next row: one more than the largest so far (1 for an empty table). */
  function NextId(records: seq<AsyncSheetEntity>): (id: nat)
    ensures id > 0
    ensures forall x :: x in records ==> x.id < id
  {
    if records == [] then 1
    else
      var rest := NextId(records[..|records| - 1]);
      assert records == records[..|records| - 1] + [records[|records| - 1]];
      if records[|records| - 1].id + 1 > rest then records[|records| - 1].id + 1 else rest
  }

  /** Save: appends a row with the given fields; the caller never chooses the id. */
  function Save(records: seq<AsyncSheetEntity>, sheetId: string, dateCreated: int, folderId: string)
    : (r: seq<AsyncSheetEntity>)
    ensures |r| == |records| + 1 && r[..|records|] == records
    ensures r[|records|] == AsyncSheetEntity(r[|records|].id, sheetId, dateCreated, folderId)
    ensures forall x :: x in records ==> x.id < r[|records|].id
  {
    records + [AsyncSheetEntity(NextId(records), sheetId, dateCreated, folderId)]
  }

  /** Saving keeps the ids strictly increasing, so the new row's id is fresh. */
  lemma SaveKeepsIdsIncreasing(records: seq<AsyncSheetEntity>, sheetId: string, dateCreated: int, folderId: string)
    requires IdsIncreasing(records)
    ensures IdsIncreasing(Save(records, sheetId, dateCreated, folderId))
  {
    var r := Save(records, sheetId, dateCreated, folderId);
    forall i, j | 0 <= i < j < |r|
      ensures r[i].id < r[j].id
    {
      if j < |records| {
        assert r[i] == records[i] && r[j] == records[j];
      } else {
        assert r[i] == records[i] && r[i] in records;
      }
    }
  }

  /** A row saved with a DateCreated later than every stored one is what GetLatest returns next. */
  lemma SaveNewerIsLatest(records: seq<AsyncSheetEntity>, sheetId: string, dateCreated: int, folderId: string)
    requires forall x :: x in records ==> x.dateCreated < dateCreated
    ensures var r := Save(records, sheetId, dateCreated, folderId);
      GetLatest(r) == Some(r[|records|])
  {
    var r := Save(records, sheetId, dateCreated, folderId);
    assert r[..|r| - 1] == records;
  }

  /** GetLatest depends only on the rows, not on the id the database assigned: the latest of a table after a Save is either the old latest or the new row. */
  lemma LatestAfterSave(records: seq<AsyncSheetEntity>, sheetId: string, dateCreated: int, folderId: string)
    ensures var r := Save(records, sheetId, dateCreated, folderId);
      GetLatest(r) == Some(r[|records|]) || GetLatest(r) == GetLatest(records)
  {
    var r := Save(records, sheetId, dateCreated, folderId);
    assert r[..|r| - 1] == records;
  }
}
