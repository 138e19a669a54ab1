/** What the two queries of pending work list, and in which order. */
module Listings {
  import opened Records
  import opened Common
  import opened Selection
  import opened Backend

  // ----- finalizations -----

  /** What a listing of pending finalizations tells its caller: the current tuples of
      attempts that await it, each once, earliest deadline first, all unless the limit is reached. */
  ghost predicate FinalizationsListed(db: Db, limit: nat, refs: seq<Ref>) {
    && |refs| <= limit
    && (forall i | 0 <= i < |refs| :: IsPendingFinalization(db, refs[i]))
    && (forall i, j | 0 <= i < j < |refs| :: refs[i].attempt != refs[j].attempt && DueNoLater(db, refs[i], refs[j]))
    && (forall ref | IsPendingFinalization(db, ref) && ref !in refs ::
          |refs| == limit && forall i | 0 <= i < |refs| :: DueNoLater(db, refs[i], ref))
  }

  ghost predicate IsPendingFinalization(db: Db, ref: Ref) {
    AwaitsFinalization(db, ref.attempt) && ref == RefOf(ref.attempt, db.attempts[ref.attempt])
  }

  ghost predicate DueNoLater(db: Db, x: Ref, y: Ref) {
    && x.attempt in db.attempts && y.attempt in db.attempts
    && db.attempts[x.attempt].expiresAt <= db.attempts[y.attempt].expiresAt
  }

  lemma RowAwaits(db: Db, row: Row)
    requires row in FinalizationRows(db)
    ensures row == Plain(db.attempts[row.attempt].expiresAt, row.attempt, 0)
    ensures IsPendingFinalization(db, RefOf(row.attempt, db.attempts[row.attempt]))
  {
    hide CleanlyDestroyed;
  }

  lemma AwaitingHasRow(db: Db, ref: Ref)
    requires IsPendingFinalization(db, ref)
    ensures ref.attempt in db.attempts && Plain(db.attempts[ref.attempt].expiresAt, ref.attempt, 0) in FinalizationRows(db)
  {
    hide CleanlyDestroyed;
  }

  lemma SelectedRefs(db: Db, limit: nat, i: nat)
    requires i < |Select(FinalizationRows(db), limit)|
    ensures var row := Select(FinalizationRows(db), limit)[i];
      && row == Plain(db.attempts[row.attempt].expiresAt, row.attempt, 0)
      && IsPendingFinalization(db, RefOf(row.attempt, db.attempts[row.attempt]))
      && RowRefs(db, Select(FinalizationRows(db), limit))[i] == RefOf(row.attempt, db.attempts[row.attempt])
  {
    hide IsPendingFinalization, FinalizationRows;
    RowAwaits(db, Select(FinalizationRows(db), limit)[i]);
  }

  lemma RowListsItsRef(db: Db, rows: seq<Row>, ref: Ref)
    requires RowsKnown(db, rows) && IsPendingFinalization(db, ref)
    ensures Plain(db.attempts[ref.attempt].expiresAt, ref.attempt, 0) in rows ==> ref in RowRefs(db, rows)
  {
    hide CleanlyDestroyed;
    var row := Plain(db.attempts[ref.attempt].expiresAt, ref.attempt, 0);
    if row in rows {
      var i :| 0 <= i < |rows| && rows[i] == row;
      assert RowRefs(db, rows)[i] == ref;
    }
  }

  lemma UnlistedIsLater(db: Db, limit: nat, ref: Ref)
    requires IsPendingFinalization(db, ref) && ref !in RowRefs(db, Select(FinalizationRows(db), limit))
    ensures |Select(FinalizationRows(db), limit)| == limit
    ensures forall i | 0 <= i < limit :: DueNoLater(db, RowRefs(db, Select(FinalizationRows(db), limit))[i], ref)
  {
    hide FinalizationRows, Select, AwaitsFinalization;
    var rows := Select(FinalizationRows(db), limit);
    var refs := RowRefs(db, rows);
    AwaitingHasRow(db, ref);
    var row := Plain(db.attempts[ref.attempt].expiresAt, ref.attempt, 0);
    RowListsItsRef(db, rows, ref);
    forall i | 0 <= i < limit
      ensures DueNoLater(db, refs[i], ref)
    {
      SelectedRefs(db, limit, i);
      assert Before(rows[i], row);
    }
  }

  lemma FinalizationsAreListed(db: Db, limit: nat)
    ensures FinalizationsListed(db, limit, RowRefs(db, Select(FinalizationRows(db), limit)))
  {
    hide FinalizationRows, Select, IsPendingFinalization;
    var rows := Select(FinalizationRows(db), limit);
    var refs := RowRefs(db, rows);
    SelectIsOrdered(FinalizationRows(db), limit);
    forall i | 0 <= i < |refs|
      ensures IsPendingFinalization(db, refs[i])
    {
      SelectedRefs(db, limit, i);
    }
    forall i, j | 0 <= i < j < |refs|
      ensures refs[i].attempt != refs[j].attempt && DueNoLater(db, refs[i], refs[j])
    {
      SelectedRefs(db, limit, i);
      SelectedRefs(db, limit, j);
      assert rows[i] != rows[j] && Before(rows[i], rows[j]);
    }
    forall ref | IsPendingFinalization(db, ref) && ref !in refs
      ensures |refs| == limit && forall i | 0 <= i < |refs| :: DueNoLater(db, refs[i], ref)
    {
      UnlistedIsLater(db, limit, ref);
    }
  }

  // ----- resets -----

  /** The operation is a reset to the attempt's current sandbox, which awaits provisioning. */
  ghost predicate IsPendingReset(db: Db, k: OpKey) {
    && k in db.operations && IsResetOperation(db.operations[k])
    && AwaitsResetProvisioning(db, db.operations[k].ref.attempt)
    && db.operations[k].ref == RefOf(db.operations[k].ref.attempt, db.attempts[db.operations[k].ref.attempt])
  }

  /** What a listing of resets to resume tells its caller: their receipts, each once,
      earliest deadline first, all unless the limit is reached. */
  ghost predicate ResetsListed(db: Db, limit: nat, receipts: seq<Receipt>) {
    && |receipts| <= limit
    && (forall i | 0 <= i < |receipts| :: IsPendingReceipt(db, receipts[i]))
    && (forall i, j | 0 <= i < j < |receipts| ::
          receipts[i] != receipts[j] && DueNoLater(db, receipts[i].ref, receipts[j].ref))
    && (forall r | IsPendingReceipt(db, r) && r !in receipts ::
          |receipts| == limit && forall i | 0 <= i < |receipts| :: DueNoLater(db, receipts[i].ref, r.ref))
  }

  ghost predicate IsPendingReceipt(db: Db, r: Receipt) {
    exists k :: IsPendingReset(db, k) && r == ReceiptOf(db.operations[k])
  }

  function RowOfReceipt(db: Db, r: Receipt): Row
    requires r.ref.attempt in db.attempts
  {
    Row(db.attempts[r.ref.attempt].expiresAt, r.ref.attempt, 0, r.operation, r.version)
  }

  lemma RowIsOfReset(db: Db, row: Row)
    requires row in ResetRows(db)
    ensures row.attempt in db.attempts
    ensures var r := ResetReceipts(db, [row])[0];
      IsPendingReceipt(db, r) && r.ref.attempt == row.attempt && row == RowOfReceipt(db, r)
  {
    hide CleanlyDestroyed, ResetCandidateUntouched;
    var id, k :| id in db.attempts && k in db.operations && AwaitsResetProvisioning(db, id)
      && IsResetOperation(db.operations[k]) && db.operations[k].ref == RefOf(id, db.attempts[id])
      && row == Row(db.attempts[id].expiresAt, id, 0, db.operations[k].id, db.operations[k].version);
    assert IsPendingReset(db, k);
  }

  lemma ReceiptHasRow(db: Db, r: Receipt)
    requires IsPendingReceipt(db, r)
    ensures r.ref.attempt in db.attempts && RowOfReceipt(db, r) in ResetRows(db)
    ensures ResetReceipts(db, [RowOfReceipt(db, r)])[0] == r
  {
    hide CleanlyDestroyed, ResetCandidateUntouched;
    var k :| IsPendingReset(db, k) && r == ReceiptOf(db.operations[k]);
    assert db.operations[k].ref.attempt in db.attempts;
  }

  lemma SelectedReceipts(db: Db, limit: nat, i: nat)
    requires i < |Select(ResetRows(db), limit)|
    ensures var row, r := Select(ResetRows(db), limit)[i], ResetReceipts(db, Select(ResetRows(db), limit))[i];
      IsPendingReceipt(db, r) && r.ref.attempt == row.attempt && row == RowOfReceipt(db, r)
  {
    hide IsPendingReceipt, ResetRows;
    var row := Select(ResetRows(db), limit)[i];
    RowIsOfReset(db, row);
    assert ResetReceipts(db, [row])[0] == ResetReceipts(db, Select(ResetRows(db), limit))[i];
  }

  lemma RowListsItsReceipt(db: Db, rows: seq<Row>, r: Receipt)
    requires RowsKnown(db, rows) && IsPendingReceipt(db, r)
    ensures r.ref.attempt in db.attempts
    ensures RowOfReceipt(db, r) in rows ==> r in ResetReceipts(db, rows)
  {
    hide IsPendingReceipt;
    ReceiptHasRow(db, r);
    var row := RowOfReceipt(db, r);
    if row in rows {
      var i :| 0 <= i < |rows| && rows[i] == row;
      assert ResetReceipts(db, rows)[i] == ResetReceipts(db, [row])[0];
    }
  }

  lemma UnlistedReceiptIsLater(db: Db, limit: nat, r: Receipt)
    requires IsPendingReceipt(db, r) && r !in ResetReceipts(db, Select(ResetRows(db), limit))
    ensures |Select(ResetRows(db), limit)| == limit
    ensures forall i | 0 <= i < limit :: DueNoLater(db, ResetReceipts(db, Select(ResetRows(db), limit))[i].ref, r.ref)
  {
    hide ResetRows, Select, IsPendingReceipt;
    var rows := Select(ResetRows(db), limit);
    var receipts := ResetReceipts(db, rows);
    ReceiptHasRow(db, r);
    var row := RowOfReceipt(db, r);
    RowListsItsReceipt(db, rows, r);
    forall i | 0 <= i < limit
      ensures DueNoLater(db, receipts[i].ref, r.ref)
    {
      SelectedReceipts(db, limit, i);
      assert Before(rows[i], row);
    }
  }

  lemma ResetsAreListed(db: Db, limit: nat)
    ensures ResetsListed(db, limit, ResetReceipts(db, Select(ResetRows(db), limit)))
  {
    hide ResetRows, Select, IsPendingReceipt;
    var rows := Select(ResetRows(db), limit);
    var receipts := ResetReceipts(db, rows);
    SelectIsOrdered(ResetRows(db), limit);
    forall i | 0 <= i < |receipts|
      ensures IsPendingReceipt(db, receipts[i])
    {
      SelectedReceipts(db, limit, i);
    }
    forall i, j | 0 <= i < j < |receipts|
      ensures receipts[i] != receipts[j] && DueNoLater(db, receipts[i].ref, receipts[j].ref)
    {
      SelectedReceipts(db, limit, i);
      SelectedReceipts(db, limit, j);
      assert rows[i] != rows[j] && Before(rows[i], rows[j]);
    }
    forall r | IsPendingReceipt(db, r) && r !in receipts
      ensures |receipts| == limit && forall i | 0 <= i < |receipts| :: DueNoLater(db, receipts[i].ref, r.ref)
    {
      UnlistedReceiptIsLater(db, limit, r);
    }
  }
}
