/**
 The attempts as a conserved quantity of the whole system: claims made by any number of pollers,
 in any interleaving and with any losses, plus the attempts still left, are always M per document.
 */
module ClaimBudget {
  import opened Seqs
  import opened Tables
  import opened Pipeline
  import opened PipelineTheorems
  import opened Poller

  function Claims(actions: seq<Action>): nat {
    if actions == [] then 0
    else (if actions[0].Claim? && actions[0].o.applied then 1 else 0) + Claims(actions[1..])
  }

  function Creations(actions: seq<Action>): nat {
    if actions == [] then 0
    else (if actions[0].CreateDocument? then 1 else 0) + Creations(actions[1..])
  }

  /** M attempts for each document created. */
  function Granted(M: nat, actions: seq<Action>): nat {
    if actions == [] then 0
    else (if actions[0].CreateDocument? then M else 0) + Granted(M, actions[1..])
  }

  lemma {:induction false} GrantedIsProduct(M: nat, actions: seq<Action>)
    ensures Granted(M, actions) == M * Creations(actions)
  {
    if actions != [] {
      GrantedIsProduct(M, actions[1..]);
    }
  }

  // ---------- adding a document to the sum ----------

  /** b lists what a lists, and d. */
  ghost predicate ListsAlso(a: seq<DocId>, b: seq<DocId>, d: DocId) {
    && Increasing(a) && Increasing(b) && d !in a
    && (forall k :: k in b <==> k in a || k == d)
  }

  lemma TailsListAlso(a: seq<DocId>, b: seq<DocId>, d: DocId)
    requires ListsAlso(a, b, d)
    ensures b != [] && (b[0] == d ==> b[1..] == a)
    ensures b[0] != d ==> a != [] && a[0] == b[0] && ListsAlso(a[1..], b[1..], d)
  {
    assert d in b;
    assert b == [b[0]] + b[1..];
    assert b[0] in b;
    if b[0] == d {
      forall k
        ensures k in b[1..] <==> k in a
      {
        assert k in b[1..] ==> k in b && k > d;
      }
      IncreasingUnique(b[1..], a);
    } else {
      assert a == [a[0]] + a[1..] && a[0] in b;
      assert a[0] == b[0];
      forall k
        ensures k in b[1..] <==> k in a[1..] || k == d
      {
        assert k in b[1..] ==> k in b && k > b[0];
        assert k in a[1..] ==> k in a && k > a[0];
      }
    }
  }

  lemma {:induction false} SumAdd(M: nat, rows: map<DocId, Record>, a: seq<DocId>, b: seq<DocId>, d: DocId)
    requires ListsAlso(a, b, d) && d in rows && forall k :: k in a ==> k in rows
    ensures SumLeft(M, rows, b) == SumLeft(M, rows, a) + Left(M, rows[d])
  {
    TailsListAlso(a, b, d);
    if b[0] != d {
      SumAdd(M, rows, a[1..], b[1..], d);
    }
  }

  lemma BudgetAdd(M: nat, rows: map<DocId, Record>, d: DocId, r: Record)
    requires d !in rows
    ensures Budget(M, rows[d := r]) == Budget(M, rows) + Left(M, r)
  {
    var after := rows[d := r];
    assert after.Keys == rows.Keys + {d};
    SumAdd(M, after, Ascending(rows.Keys), Ascending(after.Keys), d);
    SumSame(M, rows, after, Ascending(rows.Keys));
  }

  // ---------- every step ----------

  lemma OtherAttempts(c: Config, s: State, a: Action, d: DocId)
    requires Enabled(c, s, a) && d in s.db && !(a.Claim? && a.doc == d && a.o.applied)
    ensures d in Next(c, s, a).db && Next(c, s, a).db[d].doc.extractionAttempts == s.db[d].doc.extractionAttempts
  {}

  lemma CreateBudget(c: Config, s: State, a: Action)
    requires Enabled(c, s, a) && a.CreateDocument?
    ensures Budget(c.maxAttempts, Next(c, s, a).db) == Budget(c.maxAttempts, s.db) + c.maxAttempts
  {
    var r := Created(a.doc, a.pdfPages, s.now);
    BudgetAdd(c.maxAttempts, s.db, a.doc, r);
    assert Next(c, s, a).db == s.db[a.doc := r];
  }

  lemma ClaimedBudget(c: Config, s: State, a: Action)
    requires Enabled(c, s, a) && a.Claim? && a.o.applied
    ensures Budget(c.maxAttempts, Next(c, s, a).db) + 1 == Budget(c.maxAttempts, s.db)
  {
    var r := Next(c, s, a).db[a.doc];
    assert Next(c, s, a).db == s.db[a.doc := r];
    ClaimCounts(c, s, a);
    BudgetWrite(c.maxAttempts, s.db, a.doc, r);
  }

  lemma OtherBudget(c: Config, s: State, a: Action)
    requires Enabled(c, s, a) && !a.CreateDocument? && !(a.Claim? && a.o.applied)
    ensures Budget(c.maxAttempts, Next(c, s, a).db) == Budget(c.maxAttempts, s.db)
  {
    var t := Next(c, s, a);
    NoNewDocuments(c, s, a);
    forall d | d in s.db
      ensures Left(c.maxAttempts, t.db[d]) == Left(c.maxAttempts, s.db[d])
    {
      OtherAttempts(c, s, a, d);
    }
    BudgetSame(c.maxAttempts, s.db, t.db);
  }

  lemma NoNewDocuments(c: Config, s: State, a: Action)
    requires Enabled(c, s, a) && !a.CreateDocument?
    ensures Next(c, s, a).db.Keys == s.db.Keys
  {}

  /** What one step does to the budget: a claim spends one attempt, a new document brings M. */
  lemma StepBudget(c: Config, s: State, a: Action)
    requires Enabled(c, s, a)
    ensures Budget(c.maxAttempts, Next(c, s, a).db) + (if a.Claim? && a.o.applied then 1 else 0)
         == Budget(c.maxAttempts, s.db) + (if a.CreateDocument? then c.maxAttempts else 0)
  {
    if a.CreateDocument? {
      CreateBudget(c, s, a);
    } else if a.Claim? && a.o.applied {
      ClaimedBudget(c, s, a);
    } else {
      OtherBudget(c, s, a);
    }
  }

  lemma {:induction false} RunBudget(c: Config, s: State, actions: seq<Action>)
    requires Legal(c, s, actions)
    ensures Claims(actions) + Budget(c.maxAttempts, Reach(c, s, actions).db)
         == Budget(c.maxAttempts, s.db) + Granted(c.maxAttempts, actions)
    decreases |actions|
  {
    if actions != [] {
      StepBudget(c, s, actions[0]);
      RunBudget(c, Next(c, s, actions[0]), actions[1..]);
    }
  }

  /**
   In every run of the whole system the claims that took effect, stale and lost ones included, plus
   the attempts left on the rows are exactly M for each document created. So LLM extractions never
   exceed M per document, and over a fixed set of documents no more claims are made than
   the sum of what they had left.
   */
  lemma ClaimsConserved(c: Config, actions: seq<Action>)
    requires Run(c, actions)
    ensures Claims(actions) + Budget(c.maxAttempts, End(c, actions).db) == c.maxAttempts * Creations(actions)
  {
    RunBudget(c, Initial, actions);
    GrantedIsProduct(c.maxAttempts, actions);
    assert Initial.db.Keys == {};
  }
}
