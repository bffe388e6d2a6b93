/**
 The poller as the code runs it, while others may write between any two of its statements: drain the
 queue one claim at a time, fail the exhausted, recover the stuck. The drain loop has no bound of its
 own; it ends because every claim spends one of the attempts that the documents have left, and nobody
 gives one back.
 */
module Poller {
  import opened Wrappers
  import opened Seqs
  import opened Aggregate
  import opened Tables
  import opened Pipeline
  import opened DocumentStore
  import opened ExtractionService
  import opened PollerTraces
  import Ingest

  // ---------- the attempts that are left ----------

  function Left(M: nat, r: Record): nat {
    if r.doc.extractionAttempts < M then M - r.doc.extractionAttempts else 0
  }

  function SumLeft(M: nat, rows: map<DocId, Record>, order: seq<DocId>): nat
    requires forall d :: d in order ==> d in rows
  {
    if order == [] then 0 else Left(M, rows[order[0]]) + SumLeft(M, rows, order[1..])
  }

  /** The attempts all documents have left together. */
  function Budget(M: nat, rows: map<DocId, Record>): nat {
    SumLeft(M, rows, Ascending(rows.Keys))
  }

  lemma {:induction false} SumWrite(M: nat, rows: map<DocId, Record>, order: seq<DocId>, id: DocId, r: Record)
    requires Increasing(order) && forall d :: d in order ==> d in rows
    ensures SumLeft(M, rows[id := r], order) + (if id in order then Left(M, rows[id]) else 0)
         == SumLeft(M, rows, order) + (if id in order then Left(M, r) else 0)
  {
    if order != [] {
      assert order == [order[0]] + order[1..];
      assert order[0] !in order[1..];
      SumWrite(M, rows, order[1..], id, r);
    }
  }

  /** Writing one document's rows changes the budget by what that document has left. */
  lemma BudgetWrite(M: nat, rows: map<DocId, Record>, id: DocId, r: Record)
    requires id in rows
    ensures Budget(M, rows[id := r]) + Left(M, rows[id]) == Budget(M, rows) + Left(M, r)
  {
    assert rows[id := r].Keys == rows.Keys;
    SumWrite(M, rows, Ascending(rows.Keys), id, r);
  }

  lemma {:induction false} SumSame(M: nat, rows: map<DocId, Record>, after: map<DocId, Record>, order: seq<DocId>)
    requires forall d :: d in order ==> d in rows && d in after && Left(M, after[d]) == Left(M, rows[d])
    ensures SumLeft(M, after, order) == SumLeft(M, rows, order)
  {
    if order != [] {
      SumSame(M, rows, after, order[1..]);
    }
  }

  lemma BudgetSame(M: nat, rows: map<DocId, Record>, after: map<DocId, Record>)
    requires rows.Keys == after.Keys && forall d :: d in rows ==> Left(M, after[d]) == Left(M, rows[d])
    ensures Budget(M, after) == Budget(M, rows)
  {
    SumSame(M, rows, after, Ascending(rows.Keys));
  }

  // ---------- what the poller spends ----------

  lemma {:induction false} SumLess(M: nat, rows: map<DocId, Record>, after: map<DocId, Record>, order: seq<DocId>)
    requires forall d :: d in order ==> d in rows && d in after && Left(M, after[d]) <= Left(M, rows[d])
    ensures SumLeft(M, after, order) <= SumLeft(M, rows, order)
  {
    if order != [] {
      SumLess(M, rows, after, order[1..]);
    }
  }

  /** Others spend attempts too, but give none back. */
  lemma OthersSpend(M: nat, rows: map<DocId, Record>, after: map<DocId, Record>)
    requires OthersWrote(rows, after)
    ensures Budget(M, after) <= Budget(M, rows) && (Ingest.Keyed(rows) ==> Ingest.Keyed(after))
  {
    forall d | d in rows
      ensures Left(M, after[d]) <= Left(M, rows[d]) && after[d].doc.id == rows[d].doc.id
    {
      assert OthersWroteRow(rows[d], after[d]);
    }
    SumLess(M, rows, after, Ascending(rows.Keys));
  }

  /**
   n attempts are gone, and more only if others are at work; alone, exactly n, and no row outside
   `only` has changed.
   */
  ghost predicate Spends(alone: bool, M: nat, before: map<DocId, Record>, after: map<DocId, Record>, only: set<DocId>, n: nat) {
    && OthersWrote(before, after) && Ingest.Keyed(after)
    && Budget(M, after) + n <= Budget(M, before)
    && (alone ==> Budget(M, after) + n == Budget(M, before))
    && (alone ==> forall d :: d in before && d !in only ==> after[d] == before[d])
  }

  lemma SpendsMore(alone: bool, M: nat, a: map<DocId, Record>, b: map<DocId, Record>, c: map<DocId, Record>,
                   only: set<DocId>, n: nat, more: set<DocId>, k: nat)
    requires Spends(alone, M, a, b, only, n) && Spends(alone, M, b, c, more, k)
    ensures Spends(alone, M, a, c, only + more, n + k)
  {
    OthersTransitive(a, b, c);
  }

  lemma SpendsNothing(alone: bool, M: nat, before: map<DocId, Record>, seen: map<DocId, Record>)
    requires Found(alone, before, seen) && Ingest.Keyed(before)
    ensures Spends(alone, M, before, seen, {}, 0)
  {
    OthersSpend(M, before, seen);
  }

  lemma SpendsWithin(alone: bool, M: nat, a: map<DocId, Record>, b: map<DocId, Record>, c: map<DocId, Record>,
                     only: set<DocId>, id: DocId)
    requires Spends(alone, M, a, b, only, 0) && Spends(alone, M, b, c, {id}, 0) && (alone ==> id in only)
    ensures Spends(alone, M, a, c, only, 0)
  {
    OthersTransitive(a, b, c);
  }

  /** Bringing one document somewhere without a claim spends nothing. */
  lemma BroughtSpendsNothing(alone: bool, M: nat, rec: Record, before: map<DocId, Record>, after: map<DocId, Record>, id: DocId)
    requires Brought(alone, rec, before, after, id) && Ingest.Keyed(before)
    ensures Spends(alone, M, before, after, {id}, 0)
  {
    OthersSpend(M, before, after);
    if alone {
      BudgetWrite(M, before, id, rec);
    }
  }

  lemma ClaimedRow(M: nat, r: Record, now: Time, o: Reply)
    requires Claimable(r.doc, M, now) && o.applied
    ensures var t := After(ClaimForExtraction(M), o, now, r);
      OthersWroteRow(r, t) && t.doc.id == r.doc.id && Left(M, t) + 1 == Left(M, r)
  {}

  lemma WriteRow(M: nat, rows: map<DocId, Record>, id: DocId, r: Record)
    requires Ingest.Keyed(rows) && id in rows && OthersWroteRow(rows[id], r) && Left(M, r) + 1 == Left(M, rows[id])
    ensures Spends(true, M, rows, rows[id := r], {id}, 1)
  {
    OneRowAllowed(rows, id, r);
    BudgetWrite(M, rows, id, r);
  }

  function ClaimedDocs(claims: seq<ClaimRecord>): set<DocId> {
    set c | c in claims :: c.doc
  }

  datatype Turned = Claimed | Nothing | Errored

  lemma SpendsAny(alone: bool, M: nat, before: map<DocId, Record>, after: map<DocId, Record>, only: set<DocId>, n: nat)
    requires Spends(true, M, before, after, only, n)
    ensures Spends(alone, M, before, after, only, n)
  {}

  /** A claim spends exactly one attempt. */
  lemma ClaimSpends(alone: bool, M: nat, before: map<DocId, Record>, seen: map<DocId, Record>, after: map<DocId, Record>,
                    locked: set<DocId>, id: DocId, now: Time, o: Reply)
    requires Ingest.Keyed(before) && Found(alone, before, seen)
    requires Oldest(seen, ClaimableIds(seen, M, now) - locked, id) && o.applied
    requires after == Written(Stmt.ClaimForExtraction(M), o, now, seen, id)
    ensures Spends(alone, M, before, after, {id}, 1)
    ensures id in after && after[id].doc.id == id
  {
    ClaimedRow(M, seen[id], now, o);
    SpendsNothing(alone, M, before, seen);
    OneClaim(alone, M, before, seen, id, After(ClaimForExtraction(M), o, now, seen[id]));
  }

  /** The record of a claim that took effect. */
  lemma ClaimMade(alone: bool, M: nat, before: map<DocId, Record>, seen: map<DocId, Record>, after: map<DocId, Record>,
                  locked: set<DocId>, id: DocId, now: Time, o: Reply) returns (c: ClaimRecord)
    requires Ingest.Keyed(before) && Found(alone, before, seen)
    requires Oldest(seen, ClaimableIds(seen, M, now) - locked, id) && o.applied
    requires after == Written(Stmt.ClaimForExtraction(M), o, now, seen, id)
    requires after == seen[id := seen[id].(doc := seen[id].doc.(
      status := Extracting, extractionAttempts := seen[id].doc.extractionAttempts + 1, updatedAt := now))]
    ensures id in after && after[id].doc.id == id && c == ClaimRecord(id, now, seen, locked, after[id], None, after)
    ensures InOrderOfUpdate(M, c) && LeftByClaim(c) && after == ClaimedTable(c)
    ensures Spends(alone, M, before, after, {id}, 1)
  {
    ClaimSpends(alone, M, before, seen, after, locked, id, now, o);
    c := ClaimRecord(id, now, seen, locked, after[id], None, after);
  }

  lemma AllLocked(rows: map<DocId, Record>, M: nat, now: Time, locked: set<DocId>)
    requires ClaimableIds(rows, M, now) - locked == {}
    ensures ClaimableIds(rows, M, now) <= locked
  {
    var ids := ClaimableIds(rows, M, now);
    assert forall d :: d in ids && d !in locked ==> d in ids - locked;
  }

  lemma OneClaim(alone: bool, M: nat, before: map<DocId, Record>, seen: map<DocId, Record>, id: DocId, r: Record)
    requires Spends(alone, M, before, seen, {}, 0) && id in seen
    requires OthersWroteRow(seen[id], r) && Left(M, r) + 1 == Left(M, seen[id])
    ensures Spends(alone, M, before, seen[id := r], {id}, 1)
  {
    WriteRow(M, seen, id, r);
    SpendsAny(alone, M, seen, seen[id := r], {id}, 1);
    SpendsMore(alone, M, before, seen, seen[id := r], {}, 0, {id}, 1);
    assert {} + {id} == {id};
  }

  // ---------- the poller ----------

  class Poller {
    const docs: Documents
    const ingest: Ingest.Service
    const extraction: Service
    const maxAttempts: nat
    const stuckTimeout: nat

    constructor (docs: Documents, ingest: Ingest.Service, extraction: Service, maxAttempts: nat, stuckTimeout: nat)
      requires ingest.docs == docs && extraction.docs == docs && extraction.Valid()
      ensures this.docs == docs && this.ingest == ingest && this.extraction == extraction
      ensures this.maxAttempts == maxAttempts && this.stuckTimeout == stuckTimeout && Valid()
    {
      this.docs, this.ingest, this.extraction := docs, ingest, extraction;
      this.maxAttempts, this.stuckTimeout := maxAttempts, stuckTimeout;
    }

    ghost predicate Valid() {
      ingest.docs == docs && extraction.docs == docs && extraction.Valid()
    }

    /** The claim skips rows that other transactions have locked; alone there are none. */
    method ClaimNext(fine: bool)
      returns (r: Result<Option<Document>, string>, ghost c: Option<ClaimRecord>, locked: set<DocId>, ghost seen: map<DocId, Record>)
      requires Ingest.Keyed(docs.pool.rows)
      modifies docs.pool
      ensures docs.pool.now >= old(docs.pool.now)
      ensures c.Some? ==>
        && InOrderOfUpdate(maxAttempts, c.value) && LeftByClaim(c.value)
        && c.value.before == seen && docs.pool.rows == ClaimedTable(c.value) == c.value.after && c.value.moves.None?
        && Spends(docs.pool.alone, maxAttempts, old(docs.pool.rows), docs.pool.rows, {c.value.doc}, 1)
      ensures c.None? ==> Spends(docs.pool.alone, maxAttempts, old(docs.pool.rows), docs.pool.rows, {}, 0)
      ensures Found(docs.pool.alone, old(docs.pool.rows), seen) && (c.None? ==> docs.pool.rows == seen)
      ensures r.Success? ==> (r.value.Some? <==> c.Some?)
      ensures r.Success? && r.value.Some? ==> r.value.value == c.value.left.doc && r.value.value.id == c.value.doc
      ensures r.Success? && r.value.None? ==> ClaimableIds(docs.pool.rows, maxAttempts, docs.pool.now) <= locked
      ensures c.Some? ==> c.value.locked == locked
      ensures docs.pool.alone ==> locked == {}
      ensures fine ==> r.Success?
    {
      ghost var alone, before := docs.pool.alone, docs.pool.rows;
      var o := Ingest.SomeReply(fine);
      ghost var claimed;
      locked := *;
      if docs.pool.alone {
        locked := {};
      }
      r, claimed, seen := docs.ClaimForExtraction(maxAttempts, locked, o);
      c := None;
      if claimed.Some? {
        ghost var made := ClaimMade(alone, maxAttempts, before, seen, docs.pool.rows, locked, claimed.value, docs.pool.now, o);
        c := Some(made);
      } else {
        SpendsNothing(alone, maxAttempts, before, seen);
        if o.applied {
          AllLocked(seen, maxAttempts, docs.pool.now, locked);
        }
      }
    }

    /** The extraction of a claimed document spends no attempt and, alone, touches no other document. */
    method Work(doc: Document, llm: string -> Result<ExtractedMatricula, Failure>, fine: bool) returns (ghost moves: seq<Ingest.Move>)
      requires Valid() && Ingest.Keyed(docs.pool.rows) && doc.id in docs.pool.rows
      modifies docs.pool
      ensures docs.pool.now >= old(docs.pool.now) && doc.id in docs.pool.rows
      ensures Spends(docs.pool.alone, maxAttempts, old(docs.pool.rows), docs.pool.rows, {doc.id}, 0)
      ensures Worked(docs.pool.alone, WorkAt(Some(Loading), old(docs.pool.rows)[doc.id]), doc.extractionAttempts, moves,
        WorkAt(None, docs.pool.rows[doc.id]), old(docs.pool.rows), docs.pool.rows, doc.id)
      ensures Listened(moves, llm)
      ensures fine && docs.pool.alone && old(docs.pool.rows)[doc.id].doc.status == Extracting ==>
        Treated(old(docs.pool.rows)[doc.id], docs.pool.rows[doc.id], doc.extractionAttempts, llm)
    {
      ghost var before := docs.pool.rows;
      moves := extraction.ExtractDocument(doc, llm, fine);
      BroughtSpendsNothing(docs.pool.alone, maxAttempts, docs.pool.rows[doc.id], before, docs.pool.rows, doc.id);
    }

    /** One turn of the drain loop: a claim and, if it got a document, its extraction. */
    method Turn(llm: string -> Result<ExtractedMatricula, Failure>, fine: bool)
      returns (turn: Turned, ghost c: Option<ClaimRecord>, ghost at: Time, ghost locked: set<DocId>)
      requires Valid() && Ingest.Keyed(docs.pool.rows)
      modifies docs.pool
      ensures docs.pool.now >= at >= old(docs.pool.now)
      ensures c.Some? ==>
        && InOrderOfUpdate(maxAttempts, c.value) && WorkedOff(docs.pool.alone, fine, c.value, llm)
        && Found(docs.pool.alone, old(docs.pool.rows), c.value.before) && docs.pool.rows == c.value.after
        && Spends(docs.pool.alone, maxAttempts, old(docs.pool.rows), docs.pool.rows, {c.value.doc}, 1)
      ensures c.None? ==>
        && Found(docs.pool.alone, old(docs.pool.rows), docs.pool.rows)
        && Spends(docs.pool.alone, maxAttempts, old(docs.pool.rows), docs.pool.rows, {}, 0)
      ensures turn == Claimed ==> c.Some?
      ensures turn == Nothing ==> ClaimableIds(docs.pool.rows, maxAttempts, at) <= locked
      ensures docs.pool.alone ==> locked == {}
      ensures fine ==> turn != Errored
    {
      ghost var alone, before := docs.pool.alone, docs.pool.rows;
      var r, skipped;
      ghost var seen;
      r, c, skipped, seen := ClaimNext(fine);
      locked := skipped;
      at := docs.pool.now;
      if r.Failure? {
        return Errored, c, at, locked;
      }
      if r.value.None? {
        return Nothing, c, at, locked;
      }
      ghost var rows := docs.pool.rows;
      ghost var moves := Work(r.value.value, llm, fine);
      SpendsMore(alone, maxAttempts, before, rows, docs.pool.rows, {c.value.doc}, 1, {c.value.doc}, 0);
      assert {c.value.doc} + {c.value.doc} == {c.value.doc};
      ghost var done := ClaimWorkedOff(alone, fine, maxAttempts, c.value, moves, docs.pool.rows, llm);
      c := Some(done);
      turn := Claimed;
    }

    /**
     Claims and extracts until nothing is claimable or a claim fails. Every claim takes, of the claimable
     documents that no other transaction has locked, one with the least updated_at, and is followed by
     the extraction of that document; the loop ends, because the claims are at most the attempts the
     documents had left, whatever others do meanwhile. Alone, they are exactly the attempts spent, a last
     claim whose reply was lost included, and only claimed documents are touched; if besides nothing
     fails, what was claimed and can be extracted is extracted.
     */
    method Drain(llm: string -> Result<ExtractedMatricula, Failure>, fine: bool)
      returns (failed: bool, ghost claims: seq<ClaimRecord>, ghost last: Time, ghost locked: set<DocId>)
      requires Valid() && Ingest.Keyed(docs.pool.rows)
      modifies docs.pool
      ensures docs.pool.now >= last >= old(docs.pool.now)
      ensures AllWorkedOff(docs.pool.alone, fine, maxAttempts, claims, llm)
      ensures Traced(docs.pool.alone, old(docs.pool.rows), claims, docs.pool.rows)
      ensures Spends(docs.pool.alone, maxAttempts, old(docs.pool.rows), docs.pool.rows, ClaimedDocs(claims), |claims|)
      ensures !failed ==> ClaimableIds(docs.pool.rows, maxAttempts, last) <= locked
      ensures docs.pool.alone ==> locked == {}
      ensures fine ==> !failed
      ensures fine && docs.pool.alone ==> Extracts(claims, docs.pool.rows, llm)
    {
      ghost var alone, before := docs.pool.alone, docs.pool.rows;
      claims, last := [], docs.pool.now;
      FoundSame(alone, before);
      SpendsNothing(alone, maxAttempts, before, before);
      assert ClaimedDocs(claims) == {};
      while true
        invariant docs.pool.now >= last >= old(docs.pool.now)
        invariant AllWorkedOff(alone, fine, maxAttempts, claims, llm)
        invariant Traced(alone, before, claims, docs.pool.rows)
        invariant Spends(alone, maxAttempts, before, docs.pool.rows, ClaimedDocs(claims), |claims|)
        decreases Budget(maxAttempts, docs.pool.rows)
      {
        ghost var rows, past := docs.pool.rows, claims;
        var turn;
        ghost var c;
        turn, c, last, locked := Turn(llm, fine);
        claims := ClaimsMore(alone, maxAttempts, before, rows, docs.pool.rows, past, c);
        TraceMore(alone, fine, maxAttempts, before, past, rows, c, docs.pool.rows, llm);
        if turn != Claimed {
          if fine && alone {
            DrainExtracts(maxAttempts, before, claims, docs.pool.rows, llm);
          }
          return turn == Errored, claims, last, locked;
        }
      }
    }

    /**
     The first half of a tick. The exhausted are dealt with even if the drain has failed. Alone, if no
     claim failed and the last update took effect, every document still waiting has attempts left and was in
     backoff when the last claim was made. fine is about the drain, rest about the update.
     */
    method Sweep(llm: string -> Result<ExtractedMatricula, Failure>, fine: bool, rest: bool)
      returns (ok: bool, ghost claims: seq<ClaimRecord>, ghost last: Time, ghost drained: map<DocId, Record>)
      requires Valid() && Ingest.Keyed(docs.pool.rows)
      modifies docs.pool
      ensures docs.pool.now >= last >= old(docs.pool.now)
      ensures AllWorkedOff(docs.pool.alone, fine, maxAttempts, claims, llm)
      ensures Traced(docs.pool.alone, old(docs.pool.rows), claims, drained)
      ensures fine && docs.pool.alone ==> Extracts(claims, docs.pool.rows, llm)
      ensures Spends(docs.pool.alone, maxAttempts, old(docs.pool.rows), docs.pool.rows, old(docs.pool.rows).Keys, |claims|)
      ensures ok ==> ExhaustedIds(docs.pool.rows, maxAttempts) == {}
      ensures ok && docs.pool.alone ==> forall d :: d in docs.pool.rows ==> Waits(maxAttempts, docs.pool.rows[d].doc, last)
      ensures rest ==> ExhaustedIds(docs.pool.rows, maxAttempts) == {}
      ensures fine && rest ==> ok
    {
      ghost var alone, before := docs.pool.alone, docs.pool.rows;
      var failed;
      ghost var locked;
      failed, claims, last, locked := Drain(llm, fine);
      drained := docs.pool.rows;
      var o := Ingest.SomeReply(rest);
      var n, seen := docs.FailExhausted(maxAttempts, o);
      ok := !failed && n.Success?;
      ExhaustSpends(alone, maxAttempts, drained, seen, docs.pool.rows, o, docs.pool.now);
      SpendsMore(alone, maxAttempts, before, drained, docs.pool.rows, ClaimedDocs(claims), |claims|, before.Keys, 0);
      Widen(alone, maxAttempts, before, docs.pool.rows, ClaimedDocs(claims) + before.Keys, |claims|);
      if n.Success? {
        ExhaustedGone(maxAttempts, seen, docs.pool.now);
      }
      if ok && alone {
        WaitsAfter(maxAttempts, seen, docs.pool.now, last);
      }
      if fine && alone {
        ExhaustKeepsExtracted(maxAttempts, drained, docs.pool.now);
        ExtractsKept(claims, drained, docs.pool.rows, llm);
      }
    }

    method Requeue(id: DocId, fine: bool) returns (ghost m: Ingest.Move)
      requires Ingest.Keyed(docs.pool.rows) && id in docs.pool.rows
      modifies docs.pool
      ensures docs.pool.now >= old(docs.pool.now) && id in docs.pool.rows
      ensures Brought(docs.pool.alone, docs.pool.rows[id], old(docs.pool.rows), docs.pool.rows, id)
      ensures m.choice.Sql? && (fine ==> m.choice.o == Ingest.Fine) && OthersWroteRow(old(docs.pool.rows)[id], m.seen)
      ensures docs.pool.rows[id] == if m.choice.o.applied then BackInQueue(m.seen, m.now) else m.seen
      ensures docs.pool.alone ==> m.seen == old(docs.pool.rows)[id]
    {
      ghost var before := docs.pool.rows;
      var o := Ingest.SomeReply(fine);
      var ok, seen := docs.ReturnForRetry(id, 0, o);
      RetryBrings(docs.pool.alone, before, seen, id, docs.pool.now, o);
      assert OthersWroteRow(before[id], seen[id]);
      m := Ingest.Move(Sql(o), docs.pool.now, seen[id]);
    }

    /** The janitor's switch on the status it listed. */
    method RecoverOne(doc: Document, fine: bool) returns (ghost h: Handled)
      requires Valid() && Ingest.Keyed(docs.pool.rows) && doc.id in docs.pool.rows
      modifies docs.pool, ingest.dispatcher
      ensures docs.pool.now >= old(docs.pool.now)
      ensures h.doc == doc && h.before == old(docs.pool.rows) && h.after == docs.pool.rows
      ensures HandledRight(docs.pool.alone, h)
      ensures Ingest.Sent(old(ingest.dispatcher.delivered), ingest.dispatcher.delivered, doc.id, h.jobs)
      ensures Spends(docs.pool.alone, maxAttempts, old(docs.pool.rows), docs.pool.rows, {doc.id}, 0)
      ensures fine && docs.pool.alone && doc == old(docs.pool.rows)[doc.id].doc && Stamped(old(docs.pool.rows)[doc.id]) ==>
        Moving(doc, docs.pool.rows[doc.id].doc, old(docs.pool.now))
    {
      ghost var before := docs.pool.rows;
      h := Handled(doc, before, [], [], before);
      match doc.status {
        case Processing =>
          ghost var moves, jobs;
          if doc.ocrDispatchedAt.None? {
            moves, jobs := ingest.Process(doc.id, fine);
          } else {
            moves, jobs := ingest.Redispatch(doc.id, fine);
          }
          h := h.(moves := moves, jobs := jobs);
        case Extracting =>
          ghost var m := Requeue(doc.id, fine);
          h := h.(moves := [m]);
        case _ => BroughtNothing(docs.pool.alone, docs.pool.rows, doc.id);
      }
      h := h.(after := docs.pool.rows);
      BroughtSpendsNothing(docs.pool.alone, maxAttempts, docs.pool.rows[doc.id], before, docs.pool.rows, doc.id);
    }

    /** One turn of the janitor's loop. */
    method RecoverNext(list: seq<Document>, i: nat, cutoff: Time, fine: bool, ghost before: map<DocId, Record>, ghost start: Time,
                       ghost first: map<DocId, Record>, ghost sent: seq<Ingest.JobRequest>, ghost handled: seq<Handled>)
      returns (ghost more: seq<Handled>)
      requires Valid() && i < |list| && start <= docs.pool.now && list[i].id in before
      requires Progress(docs.pool.alone, fine, maxAttempts, before, docs.pool.rows, list, cutoff, i, start)
      requires Handling(docs.pool.alone, first, list, i, handled, docs.pool.rows, sent, ingest.dispatcher.delivered)
      modifies docs.pool, ingest.dispatcher
      ensures docs.pool.now >= old(docs.pool.now)
      ensures Progress(docs.pool.alone, fine, maxAttempts, before, docs.pool.rows, list, cutoff, i + 1, start)
      ensures Handling(docs.pool.alone, first, list, i + 1, more, docs.pool.rows, sent, ingest.dispatcher.delivered)
    {
      ghost var rows, now, delivered := docs.pool.rows, docs.pool.now, ingest.dispatcher.delivered;
      ghost var h := RecoverOne(list[i], fine);
      ProgressMore(docs.pool.alone, fine, maxAttempts, before, rows, docs.pool.rows, list, cutoff, i, now, start);
      HandledMore(docs.pool.alone, first, list, i, handled, h, sent, delivered, ingest.dispatcher.delivered);
      more := handled + [h];
    }

    /** Deals with the listed documents one after the other. */
    method RecoverAll(list: seq<Document>, cutoff: Time, fine: bool, ghost before: map<DocId, Record>) returns (ghost handled: seq<Handled>)
      requires Valid() && (forall i :: 0 <= i < |list| ==> list[i].id in before)
      requires Progress(docs.pool.alone, fine, maxAttempts, before, docs.pool.rows, list, cutoff, 0, docs.pool.now)
      modifies docs.pool, ingest.dispatcher
      ensures docs.pool.now >= old(docs.pool.now)
      ensures Progress(docs.pool.alone, fine, maxAttempts, before, docs.pool.rows, list, cutoff, |list|, old(docs.pool.now))
      ensures Handling(docs.pool.alone, old(docs.pool.rows), list, |list|, handled, docs.pool.rows,
        old(ingest.dispatcher.delivered), ingest.dispatcher.delivered)
    {
      ghost var start, first, sent := docs.pool.now, docs.pool.rows, ingest.dispatcher.delivered;
      handled := [];
      NothingHandled(docs.pool.alone, list, first, sent);
      for i := 0 to |list|
        invariant docs.pool.now >= start
        invariant Progress(docs.pool.alone, fine, maxAttempts, before, docs.pool.rows, list, cutoff, i, start)
        invariant Handling(docs.pool.alone, first, list, i, handled, docs.pool.rows, sent, ingest.dispatcher.delivered)
      {
        handled := RecoverNext(list, i, cutoff, fine, before, start, first, sent, handled);
      }
    }

    /**
     Recovers the documents that have not moved since the cutoff, in updated_at order, and spends no
     attempt. Alone it touches no other document; if besides nothing fails and the caller's clock is
     not ahead of the database's, none of the documents is stuck any more: each is dispatched afresh,
     claimable at once, or failed.
     */
    method Janitor(cutoff: Time, fine: bool)
      returns (ghost list: Option<seq<Document>>, ghost seen: map<DocId, Record>, ghost handled: seq<Handled>)
      requires Valid() && Ingest.Keyed(docs.pool.rows)
      modifies docs.pool, ingest.dispatcher
      ensures docs.pool.now >= old(docs.pool.now) && Found(docs.pool.alone, old(docs.pool.rows), seen)
      ensures (fine ==> list.Some?) && (list.Some? ==> ListedOnce(seen, list.value, cutoff))
      ensures list.Some? ==> Handling(docs.pool.alone, seen, list.value, |list.value|, handled, docs.pool.rows,
        old(ingest.dispatcher.delivered), ingest.dispatcher.delivered)
      ensures list.None? ==>
        docs.pool.rows == seen && handled == [] && ingest.dispatcher.delivered == old(ingest.dispatcher.delivered)
      ensures Spends(docs.pool.alone, maxAttempts, old(docs.pool.rows), docs.pool.rows, StuckIds(old(docs.pool.rows), cutoff), 0)
      ensures fine && docs.pool.alone && cutoff <= old(docs.pool.now) && AllStamped(old(docs.pool.rows)) ==>
        && StuckIds(docs.pool.rows, cutoff) == {}
        && forall d :: d in StuckIds(old(docs.pool.rows), cutoff) ==>
            Moving(old(docs.pool.rows)[d].doc, docs.pool.rows[d].doc, old(docs.pool.now))
    {
      ghost var alone, before, start := docs.pool.alone, docs.pool.rows, docs.pool.now;
      var readable: bool :| fine ==> readable;
      var stuck;
      stuck, seen := docs.StuckDocuments(cutoff, readable);
      handled, list := [], None;
      SpendsNothing(alone, maxAttempts, before, seen);
      Widen(alone, maxAttempts, before, seen, {}, 0);
      if stuck.Failure? {
        return;
      }
      list := Some(stuck.value);
      assert ListedOnce(seen, stuck.value, cutoff);
      ghost var now := docs.pool.now;
      handled := RecoverAll(stuck.value, cutoff, fine, before);
      if fine && alone && cutoff <= start && AllStamped(before) {
        MovingSinceAll(stuck.value, docs.pool.rows, now, start);
        NoneStuck(before, docs.pool.rows, stuck.value, cutoff, start);
      }
    }

    /**
     One tick: the drain, the exhausted, the janitor. At most as many claims as attempts are spent, and
     alone exactly as many; the janitor works on the documents untouched for the stuck timeout. An error in
     one of the three does not keep the others from their work: fine is about the drain, rest about what follows.
     */
    method Tick(llm: string -> Result<ExtractedMatricula, Failure>, clock: Time, fine: bool, rest: bool)
      returns (ghost claims: seq<ClaimRecord>, ghost drained: map<DocId, Record>, ghost list: Option<seq<Document>>,
               ghost seen: map<DocId, Record>, ghost handled: seq<Handled>, ghost cutoff: Time)
      requires Valid() && Ingest.Keyed(docs.pool.rows)
      modifies docs.pool, ingest.dispatcher
      ensures AllWorkedOff(docs.pool.alone, fine, maxAttempts, claims, llm)
      ensures Traced(docs.pool.alone, old(docs.pool.rows), claims, drained)
      ensures Spends(docs.pool.alone, maxAttempts, old(docs.pool.rows), docs.pool.rows, old(docs.pool.rows).Keys, |claims|)
      ensures fine && docs.pool.alone ==> Extracts(claims, docs.pool.rows, llm)
      ensures rest && docs.pool.alone ==> ExhaustedIds(seen, maxAttempts) == {}
      ensures cutoff == clock - stuckTimeout
      ensures (rest ==> list.Some?) && (list.Some? ==> ListedOnce(seen, list.value, cutoff))
      ensures list.Some? ==> Handling(docs.pool.alone, seen, list.value, |list.value|, handled, docs.pool.rows,
        old(ingest.dispatcher.delivered), ingest.dispatcher.delivered)
    {
      ghost var alone, start := docs.pool.alone, docs.pool.rows;
      var ok;
      ghost var last;
      ok, claims, last, drained := Sweep(llm, fine, rest);
      ghost var rows := docs.pool.rows;
      var before := clock - stuckTimeout;
      cutoff := before;
      list, seen, handled := Janitor(before, rest);
      TickSpends(alone, maxAttempts, start, rows, docs.pool.rows, |claims|, StuckIds(rows, cutoff));
      if fine && alone {
        JanitorKeepsExtracted(maxAttempts, rows, docs.pool.rows, cutoff);
        ExtractsKept(claims, rows, docs.pool.rows, llm);
      }
      if rest && alone {
        NoneExhausted(maxAttempts, rows, seen);
      }
    }
  }

  // ---------- lemmas of the drain ----------

  lemma ClaimWorkedOff(alone: bool, fine: bool, M: nat, c: ClaimRecord, moves: seq<Ingest.Move>, after: map<DocId, Record>,
                       llm: string -> Result<ExtractedMatricula, Failure>) returns (done: ClaimRecord)
    requires InOrderOfUpdate(M, c) && LeftByClaim(c) && c.doc in after
    requires Worked(alone, WorkAt(Some(Loading), c.left), c.left.doc.extractionAttempts, moves, WorkAt(None, after[c.doc]),
      ClaimedTable(c), after, c.doc)
    requires Listened(moves, llm)
    requires fine && alone ==> Treated(c.left, after[c.doc], c.left.doc.extractionAttempts, llm)
    ensures done == c.(moves := Some(moves), after := after)
    ensures InOrderOfUpdate(M, done) && WorkedOff(alone, fine, done, llm)
  {
    done := c.(moves := Some(moves), after := after);
  }

  lemma TraceMore(alone: bool, fine: bool, M: nat, start: map<DocId, Record>, claims: seq<ClaimRecord>, rows: map<DocId, Record>,
                  c: Option<ClaimRecord>, after: map<DocId, Record>, llm: string -> Result<ExtractedMatricula, Failure>)
    requires AllWorkedOff(alone, fine, M, claims, llm) && Traced(alone, start, claims, rows)
    requires c.Some? ==> InOrderOfUpdate(M, c.value) && WorkedOff(alone, fine, c.value, llm)
    requires c.Some? ==> Found(alone, rows, c.value.before) && after == c.value.after
    requires c.None? ==> Found(alone, rows, after)
    ensures var more := if c.Some? then claims + [c.value] else claims;
      AllWorkedOff(alone, fine, M, more, llm) && Traced(alone, start, more, after)
  {
    if c.Some? {
      TracedOne(alone, start, claims, c.value, rows);
    } else {
      TracedOn(alone, start, claims, rows, after);
    }
  }

  lemma ClaimedDocsMore(claims: seq<ClaimRecord>, c: ClaimRecord)
    ensures ClaimedDocs(claims + [c]) == ClaimedDocs(claims) + {c.doc}
  {
    var more := claims + [c];
    assert c in more && forall e :: e in claims ==> e in more;
  }

  lemma NoClaimMore(alone: bool, M: nat, start: map<DocId, Record>, before: map<DocId, Record>, after: map<DocId, Record>,
                    docs: set<DocId>, n: nat)
    requires Spends(alone, M, start, before, docs, n) && Spends(alone, M, before, after, {}, 0)
    ensures Spends(alone, M, start, after, docs, n)
  {
    OthersTransitive(start, before, after);
  }

  lemma OneClaimMore(alone: bool, M: nat, start: map<DocId, Record>, before: map<DocId, Record>, after: map<DocId, Record>,
                     docs: set<DocId>, n: nat, d: DocId)
    requires Spends(alone, M, start, before, docs, n) && Spends(alone, M, before, after, {d}, 1)
    ensures Spends(alone, M, start, after, docs + {d}, n + 1)
  {
    OthersTransitive(start, before, after);
  }

  lemma ClaimsMore(alone: bool, M: nat, start: map<DocId, Record>, before: map<DocId, Record>, after: map<DocId, Record>,
                   claims: seq<ClaimRecord>, c: Option<ClaimRecord>) returns (more: seq<ClaimRecord>)
    requires Spends(alone, M, start, before, ClaimedDocs(claims), |claims|)
    requires c.Some? ==> Spends(alone, M, before, after, {c.value.doc}, 1)
    requires c.None? ==> Spends(alone, M, before, after, {}, 0)
    ensures more == if c.Some? then claims + [c.value] else claims
    ensures Spends(alone, M, start, after, ClaimedDocs(more), |more|)
  {
    if c.Some? {
      more := claims + [c.value];
      ClaimedDocsMore(claims, c.value);
      OneClaimMore(alone, M, start, before, after, ClaimedDocs(claims), |claims|, c.value.doc);
    } else {
      more := claims;
      NoClaimMore(alone, M, start, before, after, ClaimedDocs(claims), |claims|);
    }
  }

  /** A larger set of documents that may have changed. */
  lemma Widen(alone: bool, M: nat, before: map<DocId, Record>, after: map<DocId, Record>, only: set<DocId>, n: nat)
    requires Spends(alone, M, before, after, only, n)
    ensures forall more: set<DocId> :: only * before.Keys <= more ==> Spends(alone, M, before, after, more, n)
  {
    forall more: set<DocId> | only * before.Keys <= more
      ensures Spends(alone, M, before, after, more, n)
    {}
  }

  // ---------- lemmas of the sweep ----------

  /** An ocr_done document has attempts left and is in backoff. */
  predicate Waits(M: nat, d: Document, last: Time) {
    d.status == OCRDone ==> Waiting(d, M, last)
  }

  lemma ExhaustAllowed(M: nat, rows: map<DocId, Record>, now: Time)
    ensures OthersWrote(rows, ExhaustAll(rows, M, now)) && Budget(M, ExhaustAll(rows, M, now)) == Budget(M, rows)
  {
    var after := ExhaustAll(rows, M, now);
    forall d | d in rows
      ensures OthersWroteRow(rows[d], after[d]) && Left(M, after[d]) == Left(M, rows[d])
    {
      ExecuteIsAllowed(FailExhausted(M), Ingest.Fine, now, rows[d]);
    }
    BudgetSame(M, rows, after);
  }

  lemma ExhaustSpends(alone: bool, M: nat, before: map<DocId, Record>, seen: map<DocId, Record>, after: map<DocId, Record>,
                      o: Reply, now: Time)
    requires Found(alone, before, seen) && Ingest.Keyed(before)
    requires after == if o.applied then ExhaustAll(seen, M, now) else seen
    ensures Spends(alone, M, before, after, before.Keys, 0)
  {
    ExhaustAllowed(M, seen, now);
    FoundSame(alone, seen);
    OthersTransitive(before, seen, after);
    OthersSpend(M, before, seen);
    OthersSpend(M, before, after);
  }

  lemma ExhaustedGone(M: nat, rows: map<DocId, Record>, now: Time)
    ensures ExhaustedIds(ExhaustAll(rows, M, now), M) == {}
  {}

  lemma WaitsAfter(M: nat, rows: map<DocId, Record>, now: Time, last: Time)
    requires ClaimableIds(rows, M, last) == {}
    ensures forall d :: d in rows ==> Waits(M, ExhaustAll(rows, M, now)[d].doc, last)
  {
    forall d | d in rows
      ensures Waits(M, ExhaustAll(rows, M, now)[d].doc, last)
    {
      assert d !in ClaimableIds(rows, M, last);
      QueueStates(rows[d].doc, M, last);
    }
  }

  /** What is extracted after the drain stays as it is where these rows do. */
  lemma ExtractsKept(claims: seq<ClaimRecord>, rows: map<DocId, Record>, after: map<DocId, Record>,
                     llm: string -> Result<ExtractedMatricula, Failure>)
    requires Extracts(claims, rows, llm)
    requires forall d :: d in rows && rows[d].doc.status == Extracted ==> d in after && after[d] == rows[d]
    ensures Extracts(claims, after, llm)
  {
    forall c | c in claims && Extractable(c.left, llm)
      ensures c.doc in after && Done(c.left, after[c.doc], c.left.doc.extractionAttempts, llm)
    {
      assert Done(c.left, rows[c.doc], c.left.doc.extractionAttempts, llm);
    }
  }

  lemma ExhaustKeepsExtracted(M: nat, rows: map<DocId, Record>, now: Time)
    ensures forall d :: d in rows && rows[d].doc.status == Extracted ==>
      d in ExhaustAll(rows, M, now) && ExhaustAll(rows, M, now)[d] == rows[d]
  {}

  lemma JanitorKeepsExtracted(M: nat, rows: map<DocId, Record>, after: map<DocId, Record>, cutoff: Time)
    requires Spends(true, M, rows, after, StuckIds(rows, cutoff), 0)
    ensures forall d :: d in rows && rows[d].doc.status == Extracted ==> d in after && after[d] == rows[d]
  {}

  // ---------- lemmas of the janitor ----------

  /** A stamped document has stored pages to send again. */
  predicate Stamped(r: Record) {
    r.doc.ocrDispatchedAt.Some? ==> r.pages != map[]
  }

  predicate AllStamped(rows: map<DocId, Record>) {
    forall d :: d in rows ==> Stamped(rows[d])
  }

  /** What recovery makes of a listed document. */
  predicate Moving(listed: Document, d: Document, since: Time) {
    match listed.status
    case Processing => d.status == Failed || (d.status == Processing && d.ocrDispatchedAt.Some? && d.updatedAt >= since)
    case Extracting => d.status == OCRDone && d.nextExtractionAt == Some(d.updatedAt)
    case _ => true
  }

  lemma RetryBrings(alone: bool, before: map<DocId, Record>, seen: map<DocId, Record>, id: DocId, now: Time, o: Reply)
    requires id in before && id in seen && Found(alone, before, seen)
    ensures var after := Written(Stmt.ReturnForRetry(0), o, now, seen, id);
      id in after && Brought(alone, after[id], before, after, id)
  {
    BroughtNothing(alone, before, id);
    ExecuteIsAllowed(ReturnForRetry(0), o, now, seen[id]);
    BroughtMore(alone, before[id], before, before, id, seen, After(ReturnForRetry(0), o, now, seen[id]));
  }

  /** What `StuckDocuments` promises about its list. */
  ghost predicate ListedOnce(before: map<DocId, Record>, list: seq<Document>, cutoff: Time) {
    && (forall i :: 0 <= i < |list| ==> list[i].id in StuckIds(before, cutoff) && list[i] == before[list[i].id].doc)
    && (forall d :: d in StuckIds(before, cutoff) ==> Lists(list, d))
    && (forall i, j :: 0 <= i < j < |list| ==> list[i].id != list[j].id)
  }

  /** After the first i documents of the list, with nobody else at work: the rest are still as listed. */
  ghost predicate UpTo(before: map<DocId, Record>, rows: map<DocId, Record>, list: seq<Document>, cutoff: Time, i: nat) {
    && rows.Keys == before.Keys && ListedOnce(before, list, cutoff)
    && (forall j :: i <= j < |list| ==> rows[list[j].id] == before[list[j].id])
  }

  ghost predicate AllMoving(list: seq<Document>, rows: map<DocId, Record>, i: nat, start: Time) {
    i <= |list| && forall j :: 0 <= j < i ==> list[j].id in rows && Moving(list[j], rows[list[j].id].doc, start)
  }

  lemma ListedAsBefore(before: map<DocId, Record>, rows: map<DocId, Record>, list: seq<Document>, cutoff: Time, i: nat)
    requires UpTo(before, rows, list, cutoff, i) && i < |list|
    ensures list[i].id in rows && list[i] == rows[list[i].id].doc && (AllStamped(before) ==> Stamped(rows[list[i].id]))
    ensures list[i].id in StuckIds(before, cutoff)
  {}

  /** Only the row of id differs. */
  predicate Differs(rows: map<DocId, Record>, after: map<DocId, Record>, id: DocId) {
    after.Keys == rows.Keys && forall d :: d in rows && d != id ==> after[d] == rows[d]
  }

  lemma SpendsOnOne(M: nat, rows: map<DocId, Record>, after: map<DocId, Record>, id: DocId, n: nat)
    requires Spends(true, M, rows, after, {id}, n)
    ensures Differs(rows, after, id)
  {}

  lemma UpToMore(before: map<DocId, Record>, rows: map<DocId, Record>, after: map<DocId, Record>,
                 list: seq<Document>, cutoff: Time, i: nat)
    requires UpTo(before, rows, list, cutoff, i) && i < |list| && Differs(rows, after, list[i].id)
    ensures UpTo(before, after, list, cutoff, i + 1)
  {}

  lemma OneMore(M: nat, before: map<DocId, Record>, rows: map<DocId, Record>, after: map<DocId, Record>,
                list: seq<Document>, cutoff: Time, i: nat)
    requires UpTo(before, rows, list, cutoff, i) && i < |list| && Spends(true, M, rows, after, {list[i].id}, 0)
    ensures UpTo(before, after, list, cutoff, i + 1)
  {
    SpendsOnOne(M, rows, after, list[i].id, 0);
    UpToMore(before, rows, after, list, cutoff, i);
  }

  lemma AllMovingMore(M: nat, before: map<DocId, Record>, rows: map<DocId, Record>, after: map<DocId, Record>,
                      list: seq<Document>, cutoff: Time, i: nat, start: Time)
    requires UpTo(before, rows, list, cutoff, i) && i < |list| && Spends(true, M, rows, after, {list[i].id}, 0)
    requires AllMoving(list, rows, i, start) && list[i].id in after && Moving(list[i], after[list[i].id].doc, start)
    ensures AllMoving(list, after, i + 1, start)
  {
    SpendsOnOne(M, rows, after, list[i].id, 0);
    MovingKept(rows, after, list, i, start);
  }

  lemma MovingKept(rows: map<DocId, Record>, after: map<DocId, Record>, list: seq<Document>, i: nat, start: Time)
    requires i < |list| && Differs(rows, after, list[i].id) && forall j :: 0 <= j < i ==> list[j].id != list[i].id
    requires AllMoving(list, rows, i, start) && list[i].id in after && Moving(list[i], after[list[i].id].doc, start)
    ensures AllMoving(list, after, i + 1, start)
  {}

  /** How far the janitor has come after i documents of its list. */
  ghost predicate Progress(alone: bool, fine: bool, M: nat, before: map<DocId, Record>, rows: map<DocId, Record>,
                           list: seq<Document>, cutoff: Time, i: nat, start: Time) {
    && Spends(alone, M, before, rows, StuckIds(before, cutoff), 0)
    && (alone ==> UpTo(before, rows, list, cutoff, i))
    && (fine && alone && AllStamped(before) ==> AllMoving(list, rows, i, start))
  }

  lemma ProgressMore(alone: bool, fine: bool, M: nat, before: map<DocId, Record>, rows: map<DocId, Record>,
                     after: map<DocId, Record>, list: seq<Document>, cutoff: Time, i: nat, now: Time, start: Time)
    requires Progress(alone, fine, M, before, rows, list, cutoff, i, start) && start <= now
    requires i < |list| && list[i].id in rows && list[i].id in after
    requires Spends(alone, M, rows, after, {list[i].id}, 0)
    requires fine && alone && list[i] == rows[list[i].id].doc && Stamped(rows[list[i].id]) ==>
      Moving(list[i], after[list[i].id].doc, now)
    ensures Progress(alone, fine, M, before, after, list, cutoff, i + 1, start)
  {
    if alone {
      ListedAsBefore(before, rows, list, cutoff, i);
      OneMore(M, before, rows, after, list, cutoff, i);
      if fine && AllStamped(before) {
        MovingSince(list[i], after[list[i].id].doc, now, start);
        AllMovingMore(M, before, rows, after, list, cutoff, i, start);
      }
    }
    SpendsWithin(alone, M, before, rows, after, StuckIds(before, cutoff), list[i].id);
  }

  lemma MovingSince(listed: Document, d: Document, later: Time, start: Time)
    requires Moving(listed, d, later) && start <= later
    ensures Moving(listed, d, start)
  {}

  lemma NoneExhausted(M: nat, rows: map<DocId, Record>, seen: map<DocId, Record>)
    requires Found(true, rows, seen) && ExhaustedIds(rows, M) == {}
    ensures ExhaustedIds(seen, M) == {}
  {}

  lemma TickSpends(alone: bool, M: nat, a: map<DocId, Record>, b: map<DocId, Record>, c: map<DocId, Record>, n: nat, stuck: set<DocId>)
    requires Spends(alone, M, a, b, a.Keys, n) && Spends(alone, M, b, c, stuck, 0)
    ensures Spends(alone, M, a, c, a.Keys, n)
  {
    OthersTransitive(a, b, c);
  }

  lemma NothingHandled(alone: bool, list: seq<Document>, start: map<DocId, Record>, sent: seq<Ingest.JobRequest>)
    ensures Handling(alone, start, list, 0, [], start, sent, sent)
  {
    assert sent + SentFor([]) == sent;
  }

  lemma HandledMore(alone: bool, start: map<DocId, Record>, list: seq<Document>, i: nat, handled: seq<Handled>, h: Handled,
                    sent: seq<Ingest.JobRequest>, delivered: seq<Ingest.JobRequest>, now: seq<Ingest.JobRequest>)
    requires i < |list| && Handling(alone, start, list, i, handled, h.before, sent, delivered)
    requires h.doc == list[i] && HandledRight(alone, h) && Ingest.Sent(delivered, now, h.doc.id, h.jobs)
    ensures Handling(alone, start, list, i + 1, handled + [h], h.after, sent, now)
  {
    assert list[..i + 1] == list[..i] + [list[i]];
    HandlingOne(alone, start, list[..i], handled, h, sent, delivered, now);
  }

  lemma HandlingOne(alone: bool, start: map<DocId, Record>, list: seq<Document>, handled: seq<Handled>, h: Handled,
                    sent: seq<Ingest.JobRequest>, delivered: seq<Ingest.JobRequest>, now: seq<Ingest.JobRequest>)
    requires DealtWith(alone, list, handled) && Attended(start, handled, h.before) && delivered == sent + SentFor(handled)
    requires HandledRight(alone, h) && Ingest.Sent(delivered, now, h.doc.id, h.jobs)
    ensures DealtWith(alone, list + [h.doc], handled + [h]) && Attended(start, handled + [h], h.after)
    ensures now == sent + SentFor(handled + [h])
  {
    AttendedOne(start, handled, h);
    SentForOne(handled, h);
    DealtWithOne(alone, list, handled, h.doc, h);
    assert now == sent + (SentFor(handled) + Ingest.Requests(h.doc.id, h.jobs));
  }

  lemma MovingSinceAll(list: seq<Document>, rows: map<DocId, Record>, later: Time, start: Time)
    requires AllMoving(list, rows, |list|, later) && start <= later
    ensures AllMoving(list, rows, |list|, start)
  {
    forall j | 0 <= j < |list|
      ensures Moving(list[j], rows[list[j].id].doc, start)
    {
      MovingSince(list[j], rows[list[j].id].doc, later, start);
    }
  }

  lemma NoneStuck(before: map<DocId, Record>, after: map<DocId, Record>, list: seq<Document>, cutoff: Time, start: Time)
    requires before.Keys == after.Keys && cutoff <= start
    requires forall d :: d in before && d !in StuckIds(before, cutoff) ==> after[d] == before[d]
    requires ListedOnce(before, list, cutoff) && AllMoving(list, after, |list|, start)
    ensures StuckIds(after, cutoff) == {}
    ensures forall d :: d in StuckIds(before, cutoff) ==> Moving(before[d].doc, after[d].doc, start)
  {
    forall d | d in StuckIds(before, cutoff)
      ensures Moving(before[d].doc, after[d].doc, start) && d !in StuckIds(after, cutoff)
    {
      var i :| 0 <= i < |list| && list[i].id == d;
      assert Moving(list[i], after[list[i].id].doc, start);
    }
  }
}
