/**
 An OCR job as the worker runs it: the steps of the fan-out in whatever interleaving the scheduler
 chooses, each upsert a statement on the database, and then the verdict on the document.
 */
module OCRWorker {
  import opened Wrappers
  import opened Tables
  import opened Pipeline
  import opened DocumentStore
  import FanOut

  /** One step of the interleaving; text is what the engine read, when the step is an upsert. */
  datatype Turn = Turn(step: FanOut.Action, text: string)

  /** The schedule is possible from here, and ends with the return of the fan-out. */
  predicate Finishes(fan: FanOut.State, schedule: seq<Turn>)
    decreases |schedule|
  {
    if schedule == [] then fan.launcher.Returned?
    else FanOut.Enabled(fan, schedule[0].step) && Finishes(FanOut.Apply(fan, schedule[0].step), schedule[1..])
  }

  /** The pages that the fan-out has written are in ocr_results. */
  predicate Covered(fan: FanOut.State, pages: seq<PageRef>, r: Record) {
    fan.total == |pages| && forall p :: p in fan.upserted ==> p < |pages| && pages[p].number in r.ocr
  }

  /** Every page of the request is in ocr_results. */
  predicate AllThere(pages: seq<PageRef>, r: Record) {
    forall i :: 0 <= i < |pages| ==> pages[i].number in r.ocr
  }

  /** Others may overwrite a text but not remove it. */
  lemma CoveredKept(fan: FanOut.State, pages: seq<PageRef>, r: Record, t: Record)
    requires Covered(fan, pages, r) && OthersWroteRow(r, t)
    ensures Covered(fan, pages, t)
  {}

  lemma PageInRange(fan: FanOut.State, turn: Turn)
    requires FanOut.Inv(fan) && FanOut.Enabled(fan, turn.step) && turn.step.Upsert?
    ensures turn.step.page < fan.total
  {}

  lemma UpsertedMore(fan: FanOut.State, step: FanOut.Action)
    requires FanOut.Enabled(fan, step)
    ensures FanOut.Apply(fan, step).total == fan.total
    ensures FanOut.Apply(fan, step).upserted == if step.Upsert? && step.applied then fan.upserted + {step.page} else fan.upserted
  {}

  lemma CoveredMore(fan: FanOut.State, pages: seq<PageRef>, r: Record, turn: Turn)
    requires FanOut.Inv(fan) && Covered(fan, pages, r) && FanOut.Enabled(fan, turn.step)
    ensures FanOut.Inv(FanOut.Apply(fan, turn.step))
    ensures turn.step.Upsert? ==> turn.step.page < |pages|
    ensures !turn.step.Upsert? ==> Covered(FanOut.Apply(fan, turn.step), pages, r)
    ensures turn.step.Upsert? ==>
      Covered(FanOut.Apply(fan, turn.step), pages,
        if turn.step.applied then r.(ocr := r.ocr[pages[turn.step.page].number := turn.text]) else r)
  {
    FanOut.InvKept(fan, turn.step);
    if turn.step.Upsert? {
      PageInRange(fan, turn);
    }
    UpsertedMore(fan, turn.step);
  }

  // ---------- what a schedule says ----------

  function Steps(schedule: seq<Turn>): (r: seq<FanOut.Action>)
    ensures |r| == |schedule| && forall i :: 0 <= i < |r| ==> r[i] == schedule[i].step
  {
    seq(|schedule|, (i: nat) requires i < |schedule| => schedule[i].step)
  }

  /** The first page that reports an error could not be read. */
  ghost predicate PageFails(schedule: seq<Turn>) {
    exists i: nat, p: nat :: FanOut.FirstReport(Steps(schedule), i, p) && FanOut.PageBroke(Steps(schedule)[..i], p)
  }

  /** The first page that reports an error could not be stored. */
  ghost predicate StoreFails(schedule: seq<Turn>) {
    exists i: nat, p: nat :: FanOut.FirstReport(Steps(schedule), i, p) && FanOut.StoreBroke(Steps(schedule)[..i], p)
  }

  /** The deadline passes, and no page reports an error. */
  predicate Overruns(schedule: seq<Turn>) {
    FanOut.Expire in Steps(schedule) && !FanOut.Reported(Steps(schedule))
  }

  predicate AllWell(schedule: seq<Turn>) {
    FanOut.Expire !in Steps(schedule) && !FanOut.Reported(Steps(schedule))
  }

  /** The turn stores the text of page p. */
  predicate Writes(turn: Turn, p: nat) {
    turn.step.Upsert? && turn.step.applied && turn.step.page == p
  }

  predicate Distinct(pages: seq<PageRef>) {
    forall p, q :: 0 <= p < q < |pages| ==> pages[p].number != pages[q].number
  }

  /** Of the turns that store the text of page p, the last one carries this text. */
  predicate LastText(schedule: seq<Turn>, p: nat, text: string) {
    exists i :: 0 <= i < |schedule| && Writes(schedule[i], p) && schedule[i].text == text
      && forall j :: i < j < |schedule| ==> !Writes(schedule[j], p)
  }

  predicate Untouched(schedule: seq<Turn>, p: nat) {
    forall i :: 0 <= i < |schedule| ==> !Writes(schedule[i], p)
  }

  /** Nothing but the texts of the requested pages has changed, and no text is gone. */
  predicate OnlyTexts(pages: seq<PageRef>, r: Record, t: Record) {
    && t == r.(ocr := t.ocr) && (forall k :: k in r.ocr ==> k in t.ocr)
    && forall k :: k in t.ocr && (forall p :: 0 <= p < |pages| ==> pages[p].number != k) ==> k in r.ocr && t.ocr[k] == r.ocr[k]
  }

  /** The text of page p, whose number is k: what it was last given, or, if it was given none, what it had. */
  predicate TextOf(schedule: seq<Turn>, p: nat, k: nat, r: Record, t: Record) {
    if Untouched(schedule, p)
    then (k in t.ocr <==> k in r.ocr) && (k in r.ocr ==> t.ocr[k] == r.ocr[k])
    else k in t.ocr && LastText(schedule, p, t.ocr[k])
  }

  predicate Stored(pages: seq<PageRef>, schedule: seq<Turn>, r: Record, t: Record) {
    forall p :: 0 <= p < |pages| ==> TextOf(schedule, p, pages[p].number, r, t)
  }

  lemma TextMore(schedule: seq<Turn>, turn: Turn, p: nat)
    ensures Untouched(schedule + [turn], p) <==> Untouched(schedule, p) && !Writes(turn, p)
    ensures forall text :: LastText(schedule + [turn], p, text) <==>
      if Writes(turn, p) then turn.text == text else LastText(schedule, p, text)
  {
    var more := schedule + [turn];
    assert more[|schedule|] == turn && forall i :: 0 <= i < |schedule| ==> more[i] == schedule[i];
  }

  /** The row after one turn. */
  function AfterTurn(pages: seq<PageRef>, turn: Turn, r: Record): Record {
    if turn.step.Upsert? && turn.step.applied && turn.step.page < |pages|
    then r.(ocr := r.ocr[pages[turn.step.page].number := turn.text]) else r
  }

  lemma TextOfMore(pages: seq<PageRef>, schedule: seq<Turn>, turn: Turn, r: Record, t: Record, p: nat)
    requires Distinct(pages) && p < |pages| && TextOf(schedule, p, pages[p].number, r, t)
    requires turn.step.Upsert? ==> turn.step.page < |pages|
    ensures TextOf(schedule + [turn], p, pages[p].number, r, AfterTurn(pages, turn, t))
  {
    TextMore(schedule, turn, p);
  }

  lemma StoredMore(pages: seq<PageRef>, schedule: seq<Turn>, turn: Turn, r: Record, t: Record)
    requires Distinct(pages) && Stored(pages, schedule, r, t)
    requires turn.step.Upsert? ==> turn.step.page < |pages|
    ensures Stored(pages, schedule + [turn], r, AfterTurn(pages, turn, t))
  {
    forall p | 0 <= p < |pages|
      ensures TextOf(schedule + [turn], p, pages[p].number, r, AfterTurn(pages, turn, t))
    {
      TextOfMore(pages, schedule, turn, r, t, p);
    }
  }

  lemma OnlyTextsMore(pages: seq<PageRef>, turn: Turn, r: Record, t: Record)
    requires OnlyTexts(pages, r, t)
    ensures OnlyTexts(pages, r, AfterTurn(pages, turn, t))
  {}

  /** What a schedule has done so far, with nobody else at work. */
  ghost predicate Alone(id: DocId, pages: seq<PageRef>, schedule: seq<Turn>, before: map<DocId, Record>, rows: map<DocId, Record>) {
    && id in before && id in rows && rows == before[id := rows[id]] && OnlyTexts(pages, before[id], rows[id])
    && (Distinct(pages) ==> Stored(pages, schedule, before[id], rows[id]))
  }

  lemma AloneMore(id: DocId, pages: seq<PageRef>, schedule: seq<Turn>, turn: Turn, before: map<DocId, Record>,
                  rows: map<DocId, Record>, after: map<DocId, Record>)
    requires Alone(id, pages, schedule, before, rows) && after == rows[id := AfterTurn(pages, turn, rows[id])]
    requires turn.step.Upsert? ==> turn.step.page < |pages|
    ensures Alone(id, pages, schedule + [turn], before, after)
  {
    OnlyTextsMore(pages, turn, before[id], rows[id]);
    if Distinct(pages) {
      StoredMore(pages, schedule, turn, before[id], rows[id]);
    }
  }

  lemma NothingStored(id: DocId, pages: seq<PageRef>, rows: map<DocId, Record>)
    requires id in rows
    ensures Alone(id, pages, [], rows, rows)
  {
    assert rows == rows[id := rows[id]];
  }

  /** The fan-out counts a page as written when a turn has stored its text. */
  predicate Counted(fan: FanOut.State, schedule: seq<Turn>) {
    forall p :: p in fan.upserted ==> !Untouched(schedule, p)
  }

  lemma CountedMore(fan: FanOut.State, schedule: seq<Turn>, turn: Turn)
    requires Counted(fan, schedule) && FanOut.Enabled(fan, turn.step)
    ensures Counted(FanOut.Apply(fan, turn.step), schedule + [turn])
  {
    forall p | p in FanOut.Apply(fan, turn.step).upserted
      ensures !Untouched(schedule + [turn], p)
    {
      TextMore(schedule, turn, p);
    }
  }

  lemma AllCounted(fan: FanOut.State, pages: seq<PageRef>, schedule: seq<Turn>)
    requires FanOut.Inv(fan) && fan.total == |pages| && Counted(fan, schedule) && fan.launcher == FanOut.Returned(None)
    ensures forall p :: 0 <= p < |pages| ==> !Untouched(schedule, p)
  {
    FanOut.NilMeansAll(fan);
  }

  /** What the steps say about the result. */
  lemma ScheduleTells(pages: seq<PageRef>, concurrency: nat, needsImage: bool, schedule: seq<Turn>, end: FanOut.State)
    requires concurrency >= 1 && end.launcher.Returned?
    requires FanOut.Run(FanOut.Initial(|pages|, concurrency, needsImage), Steps(schedule), end)
    ensures end.launcher.result == Some(FanOut.PageFailure) <==> PageFails(schedule)
    ensures end.launcher.result == Some(FanOut.StoreFailure) <==> StoreFails(schedule)
    ensures end.launcher.result == Some(FanOut.Expired) <==> Overruns(schedule)
    ensures end.launcher.result == None <==> AllWell(schedule)
  {
    FanOut.ResultTells(|pages|, concurrency, needsImage, Steps(schedule), end);
  }

  lemma AllCovered(fan: FanOut.State, pages: seq<PageRef>, r: Record)
    requires FanOut.Inv(fan) && Covered(fan, pages, r) && fan.launcher == FanOut.Returned(None)
    ensures AllThere(pages, r)
  {
    FanOut.NilMeansAll(fan);
    forall i | 0 <= i < |pages|
      ensures pages[i].number in r.ocr
    {
      assert i in fan.upserted;
    }
  }

  class Worker {
    const store: OCRStore
    const concurrency: nat
    const needsImage: bool

    constructor (store: OCRStore, concurrency: nat, needsImage: bool)
      ensures this.store == store && this.concurrency == concurrency && this.needsImage == needsImage
    {
      this.store, this.concurrency, this.needsImage := store, concurrency, needsImage;
    }

    /** The upsert of one page, as the fan-out step says it went. */
    method Step(id: DocId, pages: seq<PageRef>, turn: Turn, fan: FanOut.State) returns (next: FanOut.State)
      requires id in store.pool.rows && FanOut.Inv(fan) && FanOut.Enabled(fan, turn.step)
      requires Covered(fan, pages, store.pool.rows[id])
      modifies store.pool
      ensures store.pool.now >= old(store.pool.now) && OthersWrote(old(store.pool.rows), store.pool.rows)
      ensures id in store.pool.rows && next == FanOut.Apply(fan, turn.step) && FanOut.Inv(next)
      ensures Covered(next, pages, store.pool.rows[id]) && (turn.step.Upsert? ==> turn.step.page < |pages|)
      ensures store.pool.alone ==>
        store.pool.rows == old(store.pool.rows)[id := AfterTurn(pages, turn, old(store.pool.rows)[id])]
    {
      ghost var before := store.pool.rows;
      CoveredMore(fan, pages, before[id], turn);
      next := FanOut.Apply(fan, turn.step);
      if turn.step.Upsert? {
        var o: Reply := Outcome(turn.step.applied, turn.step.acked);
        var number := pages[turn.step.page].number;
        var ok, seen := store.UpsertPage(id, number, turn.text, o);
        assert OthersWroteRow(before[id], seen[id]);
        CoveredKept(fan, pages, before[id], seen[id]);
        CoveredMore(fan, pages, seen[id], turn);
        UpsertAllowed(before, seen, id, number, turn.text, o, store.pool.now);
        assert seen == seen[id := seen[id]];
      } else {
        FoundSame(true, before);
        assert before == before[id := before[id]];
      }
    }

    /**
     Runs the pages through the engine in any interleaving. Without an error, every page of the
     request is in ocr_results when it returns; alone, with the text that was last read for it. An error
     says what went wrong with the page that reported one first.
     */
    method RecognizeAll(id: DocId, pages: seq<PageRef>, schedule: seq<Turn>) returns (result: Option<FanOut.Failure>)
      requires id in store.pool.rows && concurrency >= 1
      requires Finishes(FanOut.Initial(|pages|, concurrency, needsImage), schedule)
      modifies store.pool
      ensures store.pool.now >= old(store.pool.now) && OthersWrote(old(store.pool.rows), store.pool.rows)
      ensures id in store.pool.rows && (result.None? ==> AllThere(pages, store.pool.rows[id]))
      ensures store.pool.alone ==> Alone(id, pages, schedule, old(store.pool.rows), store.pool.rows)
      ensures store.pool.alone && result.None? && Distinct(pages) ==>
        forall p :: 0 <= p < |pages| ==> LastText(schedule, p, store.pool.rows[id].ocr[pages[p].number])
      ensures result == Some(FanOut.PageFailure) <==> PageFails(schedule)
      ensures result == Some(FanOut.StoreFailure) <==> StoreFails(schedule)
      ensures result == Some(FanOut.Expired) <==> Overruns(schedule)
      ensures result == None <==> AllWell(schedule)
    {
      ghost var start := FanOut.Initial(|pages|, concurrency, needsImage);
      var fan := FanOut.Initial(|pages|, concurrency, needsImage);
      FanOut.InitialInv(|pages|, concurrency, needsImage);
      ghost var before := store.pool.rows;
      FoundSame(true, before);
      NothingStored(id, pages, before);
      for i := 0 to |schedule|
        invariant store.pool.now >= old(store.pool.now) && OthersWrote(before, store.pool.rows)
        invariant id in store.pool.rows && FanOut.Inv(fan) && Covered(fan, pages, store.pool.rows[id])
        invariant Finishes(fan, schedule[i..])
        invariant FanOut.Run(start, Steps(schedule[..i]), fan) && Counted(fan, schedule[..i])
        invariant store.pool.alone ==> Alone(id, pages, schedule[..i], before, store.pool.rows)
      {
        ghost var rows := store.pool.rows;
        assert schedule[i..][0] == schedule[i] && schedule[i..][1..] == schedule[i + 1..];
        HistoryMore(start, schedule[..i], schedule[i], fan);
        assert schedule[..i + 1] == schedule[..i] + [schedule[i]];
        fan := Step(id, pages, schedule[i], fan);
        OthersTransitive(before, rows, store.pool.rows);
        if store.pool.alone {
          AloneMore(id, pages, schedule[..i], schedule[i], before, rows, store.pool.rows);
        }
      }
      assert schedule[|schedule|..] == [] && schedule[..|schedule|] == schedule;
      result := fan.launcher.result;
      ScheduleTells(pages, concurrency, needsImage, schedule, fan);
      if result.None? {
        AllCovered(fan, pages, store.pool.rows[id]);
        AllCounted(fan, pages, schedule);
      }
    }

    /**
     A failed result write leaves the document alone for the janitor, any other error fails it, and
     only an error-free job flips it to ocr_done: at that moment every page of the request is in
     ocr_results, whatever others have written.
     */
    method Process(id: DocId, pages: seq<PageRef>, schedule: seq<Turn>, o: Reply)
      returns (result: Option<FanOut.Failure>, ghost seen: map<DocId, Record>)
      requires id in store.pool.rows && concurrency >= 1
      requires Finishes(FanOut.Initial(|pages|, concurrency, needsImage), schedule)
      modifies store.pool
      ensures store.pool.now >= old(store.pool.now)
      ensures id in seen && OthersWrote(old(store.pool.rows), seen)
      ensures store.pool.alone ==> Alone(id, pages, schedule, old(store.pool.rows), seen)
      ensures StoreFails(schedule) ==> store.pool.rows == seen
      ensures PageFails(schedule) || Overruns(schedule) ==>
        store.pool.rows == (if o.applied && HasStatus(seen, id, Processing)
          then seen[id := seen[id].(doc := seen[id].doc.(
            status := Failed, failedStage := Some(OCRStage), errorMessage := Some("ocr"), updatedAt := store.pool.now))]
          else seen)
      ensures AllWell(schedule) ==>
        && AllThere(pages, seen[id])
        && store.pool.rows == (if o.applied && HasStatus(seen, id, Processing)
             then seen[id := seen[id].(doc := seen[id].doc.(status := OCRDone, updatedAt := store.pool.now))]
             else seen)
      ensures StoreFails(schedule) || PageFails(schedule) || Overruns(schedule) || AllWell(schedule)
      ensures store.pool.alone && o.applied && old(store.pool.rows)[id].doc.status == Processing ==>
        var doc := store.pool.rows[id].doc;
        && (PageFails(schedule) || Overruns(schedule) ==> doc.status == Failed && doc.failedStage == Some(OCRStage))
        && (StoreFails(schedule) ==> doc == old(store.pool.rows)[id].doc)
        && (AllWell(schedule) ==> doc.status == OCRDone)
      ensures store.pool.rows == match JobVerdict(result)
        case Some(stmt) => Written(stmt, o, store.pool.now, seen, id)
        case None => seen
    {
      ghost var before := store.pool.rows;
      result := RecognizeAll(id, pages, schedule);
      ghost var rows := store.pool.rows;
      seen := rows;
      if result.Some? {
        if result.value.StoreFailure? {
          return;
        }
        var ok;
        ok, seen := store.MarkFailed(id, "ocr", o);
      } else {
        var flipped;
        flipped, seen := store.MarkOCRDone(id, o);
        assert OthersWroteRow(rows[id], seen[id]);
      }
      OthersTransitive(before, rows, seen);
    }
  }

  lemma HistoryMore(start: FanOut.State, past: seq<Turn>, turn: Turn, fan: FanOut.State)
    requires FanOut.Run(start, Steps(past), fan) && Counted(fan, past) && FanOut.Enabled(fan, turn.step)
    ensures FanOut.Run(start, Steps(past + [turn]), FanOut.Apply(fan, turn.step))
    ensures Counted(FanOut.Apply(fan, turn.step), past + [turn])
  {
    FanOut.RunMore(start, Steps(past), fan, turn.step);
    assert Steps(past + [turn]) == Steps(past) + [turn.step];
    CountedMore(fan, past, turn);
  }

  lemma UpsertAllowed(before: map<DocId, Record>, seen: map<DocId, Record>, id: DocId, number: nat, text: string, o: Reply, now: Time)
    requires OthersWrote(before, seen) && id in seen
    ensures OthersWrote(before, Written(Stmt.UpsertPage(number, text), o, now, seen, id))
  {
    ExecuteIsAllowed(UpsertPage(number, text), o, now, seen[id]);
    OneRowAllowed(seen, id, After(UpsertPage(number, text), o, now, seen[id]));
    OthersTransitive(before, seen, Written(Stmt.UpsertPage(number, text), o, now, seen, id));
  }
}
