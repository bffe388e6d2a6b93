/**
 The stores over the database: `Documents` of the orchestrator and the OCR role's writes. Each
 method is one statement. The reply is the environment's: a statement may fail, and may fail to
 report that it took effect. Time passes between statements.
 */
module DocumentStore {
  import opened Wrappers
  import opened Seqs
  import opened Aggregate
  import opened Schema
  import opened Tables
  import opened Pipeline

  type Reply = o: Outcome | Possible(o) witness Outcome(true, true)

  // ---------- the others ----------

  /**
   What other activities may do to a document between two statements: anything, except turn it into
   another document, take back an attempt or delete an OCR text. No statement of the code does those.
   */
  predicate OthersWroteRow(r: Record, t: Record) {
    && t.doc.id == r.doc.id && t.doc.pdfPages == r.doc.pdfPages
    && t.doc.extractionAttempts >= r.doc.extractionAttempts
    && forall k :: k in r.ocr ==> k in t.ocr
  }

  predicate OthersWrote(before: map<DocId, Record>, after: map<DocId, Record>) {
    && after.Keys == before.Keys
    && forall d {:trigger OthersWroteRow(before[d], after[d])} :: d in before ==> OthersWroteRow(before[d], after[d])
  }

  /** seen is the table that a statement finds; alone means that nobody else is writing. */
  predicate Found(alone: bool, before: map<DocId, Record>, seen: map<DocId, Record>) {
    OthersWrote(before, seen) && (alone ==> seen == before)
  }

  /** No move of ours is one that the others may not make. */
  lemma ExecuteIsAllowed(stmt: Stmt, o: Outcome, now: Time, r: Record)
    ensures OthersWroteRow(r, After(stmt, o, now, r))
    ensures !stmt.ClaimForExtraction? ==> After(stmt, o, now, r).doc.extractionAttempts == r.doc.extractionAttempts
  {}

  /**
   Since before, we have brought document id to rec and spent no attempt. Others may have written as
   well; alone, the rows of id are all that has changed.
   */
  ghost predicate Brought(alone: bool, rec: Record, before: map<DocId, Record>, after: map<DocId, Record>, id: DocId) {
    && id in before && id in after && after[id] == rec && OthersWrote(before, after)
    && (alone ==> after == before[id := rec] && rec.doc.extractionAttempts == before[id].doc.extractionAttempts)
  }

  lemma BroughtNothing(alone: bool, rows: map<DocId, Record>, id: DocId)
    requires id in rows
    ensures Brought(alone, rows[id], rows, rows, id)
  {
    assert rows[id := rows[id]] == rows;
  }

  lemma FoundSame(alone: bool, rows: map<DocId, Record>)
    ensures Found(alone, rows, rows)
  {}

  lemma OthersTransitive(a: map<DocId, Record>, b: map<DocId, Record>, c: map<DocId, Record>)
    requires OthersWrote(a, b) && OthersWrote(b, c)
    ensures OthersWrote(a, c)
  {
    forall d | d in a
      ensures OthersWroteRow(a[d], c[d])
    {
      assert OthersWroteRow(a[d], b[d]) && OthersWroteRow(b[d], c[d]);
    }
  }

  lemma OneRowAllowed(seen: map<DocId, Record>, id: DocId, next: Record)
    requires id in seen && OthersWroteRow(seen[id], next)
    ensures OthersWrote(seen, seen[id := next])
  {}

  /** What a statement finds at document id, if rec is what we left there. */
  lemma SeenRow(alone: bool, rec: Record, before: map<DocId, Record>, rows: map<DocId, Record>, id: DocId, seen: map<DocId, Record>)
    requires Brought(alone, rec, before, rows, id) && Found(alone, rows, seen)
    ensures id in seen && OthersWroteRow(rec, seen[id]) && (alone ==> seen[id] == rec)
  {
    assert OthersWroteRow(rows[id], seen[id]);
  }

  lemma BroughtMore(alone: bool, rec: Record, before: map<DocId, Record>, rows: map<DocId, Record>, id: DocId,
                    seen: map<DocId, Record>, next: Record)
    requires Brought(alone, rec, before, rows, id) && Found(alone, rows, seen) && id in seen
    requires OthersWroteRow(seen[id], next) && next.doc.extractionAttempts == seen[id].doc.extractionAttempts
    ensures Brought(alone, next, before, seen[id := next], id)
  {
    OneRowAllowed(seen, id, next);
    OthersTransitive(before, rows, seen);
    OthersTransitive(before, seen, seen[id := next]);
    if alone {
      assert seen[id := next] == before[id := next];
    }
  }

  lemma BroughtMany(alone: bool, rec: Record, before: map<DocId, Record>, rows: map<DocId, Record>, id: DocId,
                    end: Record, after: map<DocId, Record>)
    requires Brought(alone, rec, before, rows, id) && Brought(alone, end, rows, after, id)
    ensures Brought(alone, end, before, after, id)
  {
    OthersTransitive(before, rows, after);
    if alone {
      assert after == before[id := end];
    }
  }

  class Database {
    var rows: map<DocId, Record>
    var now: Time
    const alone: bool

    constructor (alone: bool)
      ensures rows == map[] && this.alone == alone
    {
      rows, now, this.alone := map[], 0, alone;
    }

    /** Time passes before a statement, and others may write. */
    method Elapse()
      modifies this
      ensures now >= old(now) && Found(alone, old(rows), rows)
    {
      var later: nat :| true;
      var others: map<DocId, Record> := *;
      now := now + later;
      if !alone && OthersWrote(rows, others) {
        rows := others;
      }
    }
  }

  /** The table after a statement on one document; without a row there is nothing to write. */
  function Written(stmt: Stmt, o: Reply, now: Time, rows: map<DocId, Record>, id: DocId): map<DocId, Record> {
    if id in rows then rows[id := After(stmt, o, now, rows[id])] else rows
  }

  predicate HasStatus(rows: map<DocId, Record>, id: DocId, status: Status) {
    id in rows && rows[id].doc.status == status
  }

  /** Keys of the rows a statement's WHERE clause selects. */
  function ClaimableIds(rows: map<DocId, Record>, maxAttempts: nat, now: Time): set<DocId> {
    set d | d in rows && Claimable(rows[d].doc, maxAttempts, now)
  }

  function ExhaustedIds(rows: map<DocId, Record>, maxAttempts: nat): set<DocId> {
    set d | d in rows && Exhausted(rows[d].doc, maxAttempts)
  }

  predicate StuckBefore(d: Document, cutoff: Time) {
    (d.status == Processing || d.status == Extracting) && d.updatedAt < cutoff
  }

  function StuckIds(rows: map<DocId, Record>, cutoff: Time): set<DocId> {
    set d | d in rows && StuckBefore(rows[d].doc, cutoff)
  }

  lemma HasOldest(rows: map<DocId, Record>, ids: set<DocId>)
    requires ids != {} && ids <= rows.Keys
    ensures exists d :: d in ids && Oldest(rows, ids, d)
  {
    var d :| d in ids;
    if ids == {d} {
      assert Oldest(rows, ids, d);
    } else {
      HasOldest(rows, ids - {d});
      var m :| m in ids - {d} && Oldest(rows, ids - {d}, m);
      assert forall e :: e in ids ==> e == d || e in ids - {d};
      assert Oldest(rows, ids, if rows[m].doc.updatedAt < rows[d].doc.updatedAt then m else d);
    }
  }

  /** d is first in `ORDER BY updated_at`; among equals any row may be. */
  predicate Oldest(rows: map<DocId, Record>, ids: set<DocId>, d: DocId)
    requires ids <= rows.Keys
  {
    d in ids && forall e :: e in ids ==> rows[d].doc.updatedAt <= rows[e].doc.updatedAt
  }

  ghost predicate Lists(docs: seq<Document>, d: DocId) {
    exists i :: 0 <= i < |docs| && docs[i].id == d
  }

  lemma ListsMore(docs: seq<Document>, doc: Document, d: DocId)
    ensures Lists(docs + [doc], d) <==> Lists(docs, d) || doc.id == d
  {
    var more := docs + [doc];
    assert more[|docs|] == doc;
    if Lists(docs, d) {
      var i :| 0 <= i < |docs| && docs[i].id == d;
      assert more[i] == docs[i];
    }
  }

  /** A row of pages or ocr_results, as a query returns it. */
  datatype Row<T> = Row(number: nat, value: T)

  /** The rows of a table, by ascending number. */
  function RowsOf<T>(table: map<nat, T>): (r: seq<Row<T>>)
    ensures |r| == |Ascending(table.Keys)| == |OrderedValues(table)|
    ensures forall i :: 0 <= i < |r| ==> r[i] == Row(Ascending(table.Keys)[i], OrderedValues(table)[i])
  {
    var keys := Ascending(table.Keys);
    seq(|keys|, (i: nat) requires i < |keys| => Row(keys[i], table[keys[i]]))
  }

  lemma RowsExist<T>(table: map<nat, T>)
    ensures RowsOf(table) == [] <==> table == map[]
  {
    if table != map[] {
      var k :| k in table.Keys;
      assert k in Ascending(table.Keys);
    } else {
      assert table.Keys == {};
    }
  }

  /** `SELECT ... ORDER BY page_number`, scanned row by row. */
  method SelectOrdered<T>(table: map<nat, T>) returns (rows: seq<Row<T>>)
    ensures rows == RowsOf(table)
  {
    rows := [];
    var order := Ascending(table.Keys);
    for i := 0 to |order|
      invariant |rows| == i && forall j :: 0 <= j < i ==> rows[j] == RowsOf(table)[j]
    {
      assert order[i] in order;
      rows := rows + [Row(order[i], table[order[i]])];
    }
  }

  /** A row that has failed because its attempts are used up. */
  function GivenUpAt(r: Record, now: Time): Record {
    r.(doc := r.doc.(status := Failed, failedStage := Some(ExtractionStage),
      errorMessage := Some("extraction attempts exhausted"), updatedAt := now))
  }

  lemma ExhaustAllIs(maxAttempts: nat, before: map<DocId, Record>, after: map<DocId, Record>, now: Time)
    requires after.Keys == before.Keys
    requires forall d :: d in before ==>
      after[d] == if d in ExhaustedIds(before, maxAttempts) then GivenUpAt(before[d], now) else before[d]
    ensures after == ExhaustAll(before, maxAttempts, now)
  {}

  class Documents {
    const pool: Database

    constructor (pool: Database)
      ensures this.pool == pool
    {
      this.pool := pool;
    }

    method GetByID(id: DocId, readable: bool)
      returns (r: Result<Option<Document>, string>, ghost seen: map<DocId, Record>)
      modifies pool
      ensures pool.now >= old(pool.now) && Found(pool.alone, old(pool.rows), seen) && pool.rows == seen
      ensures r == if !readable then Failure("get document")
        else Success(if id in pool.rows then Some(pool.rows[id].doc) else None)
    {
      pool.Elapse();
      seen := pool.rows;
      if !readable {
        return Failure("get document"), seen;
      }
      r := Success(if id in pool.rows then Some(pool.rows[id].doc) else None);
    }

    method UpdateStatus(id: DocId, from: Status, to: Status, o: Reply)
      returns (r: Result<bool, string>, ghost seen: map<DocId, Record>)
      modifies pool
      ensures pool.now >= old(pool.now) && Found(pool.alone, old(pool.rows), seen)
      ensures pool.rows == Written(Stmt.UpdateStatus(from, to), o, pool.now, seen, id)
      ensures o.applied && HasStatus(seen, id, from) ==>
        pool.rows == seen[id := seen[id].(doc := seen[id].doc.(status := to, updatedAt := pool.now))]
      ensures !(o.applied && HasStatus(seen, id, from)) ==> pool.rows == seen
      ensures r == if o.acked then Success(HasStatus(seen, id, from)) else Failure("update status")
    {
      pool.Elapse();
      seen := pool.rows;
      var affected := 0;
      if o.applied && id in pool.rows && pool.rows[id].doc.status == from {
        var row := pool.rows[id];
        pool.rows := pool.rows[id := row.(doc := row.doc.(status := to, updatedAt := pool.now))];
        affected := 1;
      }
      r := if o.acked then Success(affected == 1) else Failure("update status");
    }

    method MarkFailed(id: DocId, from: Status, stage: Stage, message: string, o: Reply)
      returns (r: Result<bool, string>, ghost seen: map<DocId, Record>)
      modifies pool
      ensures pool.now >= old(pool.now) && Found(pool.alone, old(pool.rows), seen)
      ensures pool.rows == Written(Stmt.MarkFailed(from, stage, message), o, pool.now, seen, id)
      ensures o.applied && HasStatus(seen, id, from) ==>
        pool.rows == seen[id := seen[id].(doc := seen[id].doc.(
          status := Failed, failedStage := Some(stage), errorMessage := Some(message), updatedAt := pool.now))]
      ensures !(o.applied && HasStatus(seen, id, from)) ==> pool.rows == seen
      ensures r == if o.acked then Success(HasStatus(seen, id, from)) else Failure("mark failed")
    {
      pool.Elapse();
      seen := pool.rows;
      var affected := 0;
      if o.applied && id in pool.rows && pool.rows[id].doc.status == from {
        var row := pool.rows[id];
        pool.rows := pool.rows[id := row.(doc := row.doc.(
          status := Failed, failedStage := Some(stage), errorMessage := Some(message), updatedAt := pool.now))];
        affected := 1;
      }
      r := if o.acked then Success(affected == 1) else Failure("mark failed");
    }

    /** A page of an unknown document violates the foreign key, and the batch is one transaction. */
    method AddPages(id: DocId, objects: seq<PageObject>, o: Reply)
      returns (ok: bool, ghost seen: map<DocId, Record>)
      modifies pool
      ensures pool.now >= old(pool.now) && Found(pool.alone, old(pool.rows), seen)
      ensures pool.rows == Written(Stmt.AddPages(objects), o, pool.now, seen, id)
      ensures o.applied && id in seen ==>
        && id in pool.rows && pool.rows == seen[id := seen[id].(pages := pool.rows[id].pages)]
        && (forall k :: k in pool.rows[id].pages <==> k in seen[id].pages || 1 <= k <= |objects|)
        && (forall k :: k in pool.rows[id].pages ==>
              pool.rows[id].pages[k] == if k in seen[id].pages then seen[id].pages[k] else objects[k - 1])
      ensures !(o.applied && id in seen) ==> pool.rows == seen
      ensures ok <==> o.acked && (id in seen || objects == [])
    {
      pool.Elapse();
      seen := pool.rows;
      if o.applied && id in pool.rows {
        var row := pool.rows[id];
        var pages := row.pages;
        for i := 0 to |objects|
          invariant pages == InsertPages(row.pages, objects[..i])
        {
          assert objects[..i + 1][..i] == objects[..i];
          if i + 1 !in pages {
            pages := pages[i + 1 := objects[i]];
          }
        }
        assert objects[..|objects|] == objects;
        InsertPagesRows(row.pages, objects);
        pool.rows := pool.rows[id := row.(pages := pages)];
      }
      ok := o.acked && (id in pool.rows || objects == []);
    }

    method SetPageCount(id: DocId, n: nat, o: Reply)
      returns (ok: bool, ghost seen: map<DocId, Record>)
      modifies pool
      ensures pool.now >= old(pool.now) && Found(pool.alone, old(pool.rows), seen) && ok == o.acked
      ensures pool.rows == Written(Stmt.SetPageCount(n), o, pool.now, seen, id)
      ensures pool.rows == if o.applied && id in seen
        then seen[id := seen[id].(doc := seen[id].doc.(pageCount := Some(n), updatedAt := pool.now))] else seen
    {
      pool.Elapse();
      seen := pool.rows;
      if o.applied && id in pool.rows {
        var row := pool.rows[id];
        pool.rows := pool.rows[id := row.(doc := row.doc.(pageCount := Some(n), updatedAt := pool.now))];
      }
      ok := o.acked;
    }

    method PagesByDocument(id: DocId, readable: bool)
      returns (r: Result<seq<Row<PageObject>>, string>, ghost seen: map<DocId, Record>)
      modifies pool
      ensures pool.now >= old(pool.now) && Found(pool.alone, old(pool.rows), seen) && pool.rows == seen
      ensures r.Success? <==> readable
      ensures readable ==> r.value == RowsOf(if id in pool.rows then pool.rows[id].pages else map[])
    {
      pool.Elapse();
      seen := pool.rows;
      if !readable {
        return Failure("query pages"), seen;
      }
      var pages := SelectOrdered(if id in pool.rows then pool.rows[id].pages else map[]);
      r := Success(pages);
    }

    method SetOCRDispatched(id: DocId, o: Reply)
      returns (ok: bool, ghost seen: map<DocId, Record>)
      modifies pool
      ensures pool.now >= old(pool.now) && Found(pool.alone, old(pool.rows), seen) && ok == o.acked
      ensures pool.rows == Written(Stmt.SetOCRDispatched, o, pool.now, seen, id)
      ensures pool.rows == if o.applied && id in seen
        then seen[id := seen[id].(doc := seen[id].doc.(ocrDispatchedAt := Some(pool.now), updatedAt := pool.now))] else seen
    {
      pool.Elapse();
      seen := pool.rows;
      if o.applied && id in pool.rows {
        var row := pool.rows[id];
        pool.rows := pool.rows[id := row.(doc := row.doc.(ocrDispatchedAt := Some(pool.now), updatedAt := pool.now))];
      }
      ok := o.acked;
    }

    /**
     Claims a claimable row that no other transaction has locked, first in updated_at order. The
     row is returned as the statement left it, so its attempts include this claim.
     */
    method ClaimForExtraction(maxAttempts: nat, locked: set<DocId>, o: Reply)
      returns (r: Result<Option<Document>, string>, ghost claimed: Option<DocId>, ghost seen: map<DocId, Record>)
      modifies pool
      ensures pool.now >= old(pool.now) && Found(pool.alone, old(pool.rows), seen)
      ensures var free := ClaimableIds(seen, maxAttempts, pool.now) - locked;
        && (claimed.None? ==> pool.rows == seen && (o.applied ==> free == {}))
        && (claimed.Some? ==>
             && o.applied && Oldest(seen, free, claimed.value)
             && pool.rows == Written(Stmt.ClaimForExtraction(maxAttempts), o, pool.now, seen, claimed.value)
             && pool.rows == seen[claimed.value := seen[claimed.value].(doc := seen[claimed.value].doc.(
                  status := Extracting, extractionAttempts := seen[claimed.value].doc.extractionAttempts + 1,
                  updatedAt := pool.now))])
      ensures r.Success? <==> o.acked
      ensures r.Success? ==> (r.value.Some? <==> claimed.Some?)
      ensures r.Success? && r.value.Some? ==> claimed.value in pool.rows && r.value.value == pool.rows[claimed.value].doc
    {
      pool.Elapse();
      seen := pool.rows;
      claimed := None;
      if !o.applied {
        return Failure("claim for extraction"), None, seen;
      }
      var free := ClaimableIds(pool.rows, maxAttempts, pool.now) - locked;
      var found := None;
      if free != {} {
        HasOldest(pool.rows, free);
        var d :| d in free && Oldest(pool.rows, free, d);
        var row := pool.rows[d];
        var doc := row.doc.(
          status := Extracting, extractionAttempts := row.doc.extractionAttempts + 1, updatedAt := pool.now);
        pool.rows := pool.rows[d := row.(doc := doc)];
        found, claimed := Some(doc), Some(d);
      }
      r := if o.acked then Success(found) else Failure("claim for extraction");
    }

    method ReturnForRetry(id: DocId, backoff: int, o: Reply)
      returns (ok: bool, ghost seen: map<DocId, Record>)
      modifies pool
      ensures pool.now >= old(pool.now) && Found(pool.alone, old(pool.rows), seen) && ok == o.acked
      ensures pool.rows == Written(Stmt.ReturnForRetry(backoff), o, pool.now, seen, id)
      ensures pool.rows == if o.applied && HasStatus(seen, id, Extracting)
        then seen[id := seen[id].(doc := seen[id].doc.(
          status := OCRDone, nextExtractionAt := Some(pool.now + backoff), updatedAt := pool.now))] else seen
    {
      pool.Elapse();
      seen := pool.rows;
      if o.applied && id in pool.rows && pool.rows[id].doc.status == Extracting {
        var row := pool.rows[id];
        pool.rows := pool.rows[id := row.(doc := row.doc.(
          status := OCRDone, nextExtractionAt := Some(pool.now + backoff), updatedAt := pool.now))];
      }
      ok := o.acked;
    }

    /** The rows that the update selects, one after the other. */
    method FailRows(maxAttempts: nat) returns (n: nat)
      modifies pool`rows
      ensures pool.rows == ExhaustAll(old(pool.rows), maxAttempts, pool.now) && pool.rows.Keys == old(pool.rows).Keys
      ensures forall d :: d in pool.rows ==>
        pool.rows[d] == if d in ExhaustedIds(old(pool.rows), maxAttempts) then GivenUpAt(old(pool.rows)[d], pool.now)
          else old(pool.rows)[d]
      ensures n == |ExhaustedIds(old(pool.rows), maxAttempts)|
    {
      ghost var before := pool.rows;
      var todo := ExhaustedIds(pool.rows, maxAttempts);
      n := 0;
      while todo != {}
        invariant todo <= ExhaustedIds(before, maxAttempts) && n + |todo| == |ExhaustedIds(before, maxAttempts)|
        invariant pool.rows.Keys == before.Keys
        invariant forall d :: d in before ==>
            pool.rows[d] == if d in ExhaustedIds(before, maxAttempts) && d !in todo then GivenUpAt(before[d], pool.now) else before[d]
        decreases |todo|
      {
        var d :| d in todo;
        var row := pool.rows[d];
        pool.rows := pool.rows[d := row.(doc := row.doc.(
          status := Failed, failedStage := Some(ExtractionStage),
          errorMessage := Some("extraction attempts exhausted"), updatedAt := pool.now))];
        todo, n := todo - {d}, n + 1;
      }
      ExhaustAllIs(maxAttempts, before, pool.rows, pool.now);
    }

    /** Fails every exhausted row in one statement and counts them. */
    method FailExhausted(maxAttempts: nat, o: Reply)
      returns (r: Result<nat, string>, ghost seen: map<DocId, Record>)
      modifies pool
      ensures pool.now >= old(pool.now) && Found(pool.alone, old(pool.rows), seen)
      ensures pool.rows == if o.applied then ExhaustAll(seen, maxAttempts, pool.now) else seen
      ensures o.applied ==>
        && pool.rows.Keys == seen.Keys
        && forall d :: d in seen ==>
             pool.rows[d] == if d in ExhaustedIds(seen, maxAttempts) then GivenUpAt(seen[d], pool.now) else seen[d]
      ensures r == if o.acked then Success(|ExhaustedIds(seen, maxAttempts)|) else Failure("fail exhausted")
    {
      pool.Elapse();
      seen := pool.rows;
      if !o.applied {
        return Failure("fail exhausted"), seen;
      }
      var n := FailRows(maxAttempts);
      r := if o.acked then Success(n) else Failure("fail exhausted");
    }

    /** `ORDER BY updated_at` over the stuck rows. */
    static method ListStuck(rows: map<DocId, Record>, cutoff: Time) returns (docs: seq<Document>)
      requires forall d :: d in rows ==> rows[d].doc.id == d
      ensures forall i :: 0 <= i < |docs| ==> docs[i].id in StuckIds(rows, cutoff) && docs[i] == rows[docs[i].id].doc
      ensures forall d :: d in StuckIds(rows, cutoff) ==> Lists(docs, d)
      ensures forall i, j :: 0 <= i < j < |docs| ==>
        docs[i].id != docs[j].id && docs[i].updatedAt <= docs[j].updatedAt
    {
      var left := StuckIds(rows, cutoff);
      docs := [];
      while left != {}
        invariant left <= StuckIds(rows, cutoff)
        invariant forall i :: 0 <= i < |docs| ==>
            docs[i].id in StuckIds(rows, cutoff) - left && docs[i] == rows[docs[i].id].doc
        invariant forall d :: d in StuckIds(rows, cutoff) && d !in left ==> Lists(docs, d)
        invariant forall i, j :: 0 <= i < j < |docs| ==>
            docs[i].id != docs[j].id && docs[i].updatedAt <= docs[j].updatedAt
        invariant forall i, d :: 0 <= i < |docs| && d in left ==> docs[i].updatedAt <= rows[d].doc.updatedAt
        decreases |left|
      {
        HasOldest(rows, left);
        var d :| d in left && Oldest(rows, left, d);
        forall e
          ensures Lists(docs + [rows[d].doc], e) <==> Lists(docs, e) || e == d
        {
          ListsMore(docs, rows[d].doc, e);
        }
        docs, left := docs + [rows[d].doc], left - {d};
      }
    }

    /** Lists each stuck row once, in updated_at order. The cutoff comes from the caller's own clock. */
    method StuckDocuments(cutoff: Time, readable: bool) returns (r: Result<seq<Document>, string>, ghost seen: map<DocId, Record>)
      requires forall d :: d in pool.rows ==> pool.rows[d].doc.id == d
      modifies pool
      ensures pool.now >= old(pool.now) && Found(pool.alone, old(pool.rows), seen) && pool.rows == seen
      ensures r.Success? <==> readable
      ensures readable ==>
        && (forall i :: 0 <= i < |r.value| ==>
              r.value[i].id in StuckIds(pool.rows, cutoff) && r.value[i] == pool.rows[r.value[i].id].doc)
        && (forall d :: d in StuckIds(pool.rows, cutoff) ==> Lists(r.value, d))
        && (forall i, j :: 0 <= i < j < |r.value| ==>
              r.value[i].id != r.value[j].id && r.value[i].updatedAt <= r.value[j].updatedAt)
    {
      pool.Elapse();
      seen := pool.rows;
      if !readable {
        return Failure("list stuck documents"), seen;
      }
      forall d | d in pool.rows
        ensures pool.rows[d].doc.id == d
      {
        assert OthersWroteRow(old(pool.rows)[d], pool.rows[d]);
      }
      var docs := ListStuck(pool.rows, cutoff);
      r := Success(docs);
    }
  }

  /** The statements the OCR role is granted. */
  class OCRStore {
    const pool: Database

    constructor (pool: Database)
      ensures this.pool == pool
    {
      this.pool := pool;
    }

    method UpsertPage(id: DocId, number: nat, text: string, o: Reply)
      returns (ok: bool, ghost seen: map<DocId, Record>)
      modifies pool
      ensures pool.now >= old(pool.now) && Found(pool.alone, old(pool.rows), seen)
      ensures pool.rows == Written(Stmt.UpsertPage(number, text), o, pool.now, seen, id)
      ensures pool.rows == if o.applied && id in seen
        then seen[id := seen[id].(ocr := seen[id].ocr[number := text])] else seen
      ensures ok <==> o.acked && id in seen
    {
      pool.Elapse();
      seen := pool.rows;
      if o.applied && id in pool.rows {
        var row := pool.rows[id];
        pool.rows := pool.rows[id := row.(ocr := row.ocr[number := text])];
      }
      ok := o.acked && id in pool.rows;
    }

    method MarkOCRDone(id: DocId, o: Reply)
      returns (r: Result<bool, string>, ghost seen: map<DocId, Record>)
      modifies pool
      ensures pool.now >= old(pool.now) && Found(pool.alone, old(pool.rows), seen)
      ensures pool.rows == Written(Stmt.MarkOCRDone, o, pool.now, seen, id)
      ensures pool.rows == if o.applied && HasStatus(seen, id, Processing)
        then seen[id := seen[id].(doc := seen[id].doc.(status := OCRDone, updatedAt := pool.now))] else seen
      ensures r == if o.acked then Success(HasStatus(seen, id, Processing)) else Failure("mark ocr done")
    {
      pool.Elapse();
      seen := pool.rows;
      var affected := 0;
      if o.applied && id in pool.rows && pool.rows[id].doc.status == Processing {
        var row := pool.rows[id];
        pool.rows := pool.rows[id := row.(doc := row.doc.(status := OCRDone, updatedAt := pool.now))];
        affected := 1;
      }
      r := if o.acked then Success(affected == 1) else Failure("mark ocr done");
    }

    method MarkFailed(id: DocId, message: string, o: Reply)
      returns (ok: bool, ghost seen: map<DocId, Record>)
      modifies pool
      ensures pool.now >= old(pool.now) && Found(pool.alone, old(pool.rows), seen) && ok == o.acked
      ensures pool.rows == Written(Stmt.MarkFailed(Processing, OCRStage, message), o, pool.now, seen, id)
      ensures pool.rows == if o.applied && HasStatus(seen, id, Processing)
        then seen[id := seen[id].(doc := seen[id].doc.(
          status := Failed, failedStage := Some(OCRStage), errorMessage := Some(message), updatedAt := pool.now))] else seen
    {
      pool.Elapse();
      seen := pool.rows;
      if o.applied && id in pool.rows && pool.rows[id].doc.status == Processing {
        var row := pool.rows[id];
        pool.rows := pool.rows[id := row.(doc := row.doc.(
          status := Failed, failedStage := Some(OCRStage), errorMessage := Some(message), updatedAt := pool.now))];
      }
      ok := o.acked;
    }
  }

  /** What the database lets a transaction do: content the schema rejects is rolled back. */
  function Committed(content: ExtractedMatricula, o: Reply): Reply {
    if Storable(content) then o else Outcome(false, false)
  }

  /** The OCR text and the aggregate store, as the extraction service sees them. */
  class Aggregates {
    const pool: Database

    constructor (pool: Database)
      ensures this.pool == pool
    {
      this.pool := pool;
    }

    method ResultsByDocument(id: DocId, readable: bool)
      returns (r: Result<seq<Row<string>>, string>, ghost seen: map<DocId, Record>)
      modifies pool
      ensures pool.now >= old(pool.now) && Found(pool.alone, old(pool.rows), seen) && pool.rows == seen
      ensures r.Success? <==> readable
      ensures readable ==> r.value == RowsOf(if id in pool.rows then pool.rows[id].ocr else map[])
    {
      pool.Elapse();
      seen := pool.rows;
      if !readable {
        return Failure("query ocr results"), seen;
      }
      var results := SelectOrdered(if id in pool.rows then pool.rows[id].ocr else map[]);
      r := Success(results);
    }

    /** One transaction; the attempt is a history variable. */
    method SaveAggregate(id: DocId, attempt: nat, content: ExtractedMatricula, o: Reply)
      returns (ok: bool, ghost seen: map<DocId, Record>)
      modifies pool
      ensures pool.now >= old(pool.now) && Found(pool.alone, old(pool.rows), seen)
      ensures pool.rows == Written(Stmt.SaveAggregate(attempt, content), Committed(content, o), pool.now, seen, id)
      ensures pool.rows == if o.applied && Storable(content) && id in seen
        then seen[id := seen[id].(extractions := seen[id].extractions + [Extraction(attempt, content)])] else seen
      ensures ok <==> Storable(content) && o.acked && id in seen
    {
      pool.Elapse();
      seen := pool.rows;
      var done := o.applied && Storable(content);
      if done && id in pool.rows {
        var row := pool.rows[id];
        pool.rows := pool.rows[id := row.(extractions := row.extractions + [Extraction(attempt, content)])];
      }
      ok := done && o.acked && id in pool.rows;
    }
  }
}
