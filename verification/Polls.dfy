/**
 What a polling client sees. A poll is six queries outside a transaction: the document's row, and for
 an extracted document the five queries of an aggregate. Anything may happen between them.
 */
module Polls {
  import opened Wrappers
  import opened Seqs
  import opened Aggregate
  import opened Tables
  import opened Pipeline
  import opened PipelineInvariant
  import opened PipelineTheorems

  // ---------- moments of a run ----------

  /** The state after the first n actions. */
  function StateAt(c: Config, s: State, actions: seq<Action>, n: nat): State
    requires Legal(c, s, actions) && n <= |actions|
    decreases n
  {
    if n == 0 then s else StateAt(c, Next(c, s, actions[0]), actions[1..], n - 1)
  }

  lemma {:induction false} Between(c: Config, s: State, actions: seq<Action>, m: nat, n: nat)
    requires Legal(c, s, actions) && m <= n <= |actions|
    ensures Legal(c, StateAt(c, s, actions, m), actions[m..n])
    ensures Reach(c, StateAt(c, s, actions, m), actions[m..n]) == StateAt(c, s, actions, n)
    decreases n
  {
    if m > 0 {
      Between(c, Next(c, s, actions[0]), actions[1..], m - 1, n - 1);
      assert actions[1..][m - 1..n - 1] == actions[m..n];
    } else if n > 0 {
      Between(c, Next(c, s, actions[0]), actions[1..], 0, n - 1);
      assert actions[0..n][1..] == actions[1..][0..n - 1];
    }
  }

  lemma {:induction false} AtEnd(c: Config, s: State, actions: seq<Action>)
    requires Legal(c, s, actions)
    ensures StateAt(c, s, actions, |actions|) == Reach(c, s, actions)
    decreases |actions|
  {
    if actions != [] {
      AtEnd(c, Next(c, s, actions[0]), actions[1..]);
    }
  }

  /** Nothing is taken back between two moments of a run. */
  lemma GrowsBetween(c: Config, actions: seq<Action>, m: nat, n: nat)
    requires Run(c, actions) && m <= n <= |actions|
    ensures Inv(c, StateAt(c, Initial, actions, m))
    ensures DbGrows(StateAt(c, Initial, actions, m).db, StateAt(c, Initial, actions, n).db)
  {
    InitialInv(c);
    Between(c, Initial, actions, 0, m);
    RunInv(c, Initial, actions[0..m]);
    Between(c, Initial, actions, m, n);
    RunInv(c, StateAt(c, Initial, actions, m), actions[m..n]);
  }

  // ---------- a poll ----------

  /** The answers of `ByDocument`; of a matrícula, the first parts arrive. */
  datatype Answer =
    | NotFound
    | NotReady(status: Status)
    | GaveUp(stage: Option<Stage>, message: Option<string>)
    | Matricula(extraction: Extraction, parts: nat)

  /** The current aggregate of d is the same in both. */
  predicate SameAggregate(a: map<DocId, Record>, b: map<DocId, Record>, d: DocId) {
    d in a && d in b && a[d].extractions == b[d].extractions
  }

  /** How many of the queries of an aggregate find the one that the first query finds. */
  function Intact(queries: seq<map<DocId, Record>>, d: DocId): nat
    requires queries != []
    decreases |queries|
  {
    if |queries| == 1 then 1
    else if SameAggregate(queries[0], queries[|queries| - 1], d) then |queries|
    else Intact(queries[..|queries| - 1], d)
  }

  /** The answer, if its queries find these rows. */
  function Poll(views: seq<map<DocId, Record>>, d: DocId): Answer
    requires |views| == 1 + PARTS
  {
    if d !in views[0] then NotFound
    else
      var doc := views[0][d].doc;
      match doc.status
      case Extracted =>
        if d in views[1] && Current(views[1][d]).Some?
        then Matricula(Current(views[1][d]).value, Intact(views[1..], d))
        else NotFound
      case Failed => GaveUp(doc.failedStage, doc.errorMessage)
      case status => NotReady(status)
  }

  /** What of the extraction arrives. */
  function Delivered(answer: Answer): ExtractedMatricula
    requires answer.Matricula?
  {
    FirstParts(answer.extraction.content, answer.parts)
  }

  /** The answer when nothing happens between the queries. */
  function ByDocument(db: map<DocId, Record>, d: DocId): Answer {
    Poll([db, db, db, db, db, db], d)
  }

  lemma QuietPoll(db: map<DocId, Record>, d: DocId)
    ensures ByDocument(db, d).Matricula? <==> d in db && db[d].doc.status == Extracted && db[d].extractions != []
    ensures ByDocument(db, d).Matricula? ==> ByDocument(db, d) == Matricula(Current(db[d]).value, PARTS)
  {
    if d in db {
      assert SameAggregate(db, db, d);
    }
  }

  /** A poll in a run, each of its queries at a moment of its own. */
  predicate Polling(c: Config, actions: seq<Action>, at: seq<nat>) {
    Run(c, actions) && |at| == 1 + PARTS && Moments(at, 0, |actions|)
  }

  function Views(c: Config, actions: seq<Action>, at: seq<nat>): (views: seq<map<DocId, Record>>)
    requires Run(c, actions) && Moments(at, 0, |actions|)
    ensures |views| == |at| && forall i :: 0 <= i < |at| ==> at[i] <= |actions| && views[i] == StateAt(c, Initial, actions, at[i]).db
  {
    seq(|at|, (i: nat) requires i < |at| => MomentsWithin(at, |actions|, i); StateAt(c, Initial, actions, at[i]).db)
  }

  lemma MomentsWithin(at: seq<nat>, end: nat, i: nat)
    requires Moments(at, 0, end) && i < |at|
    ensures at[i] <= end
  {}

  // ---------- what the answers promise ----------

  lemma {:induction false} IntactBounds(queries: seq<map<DocId, Record>>, d: DocId)
    requires queries != []
    ensures 1 <= Intact(queries, d) <= |queries|
    decreases |queries|
  {
    if |queries| > 1 {
      IntactBounds(queries[..|queries| - 1], d);
    }
  }

  /** A read is whole exactly when no save of the document commits between its first and its last query. */
  lemma IntactIff(queries: seq<map<DocId, Record>>, d: DocId)
    requires queries != [] && d in queries[0]
    ensures Intact(queries, d) == |queries| <==> SameAggregate(queries[0], queries[|queries| - 1], d)
  {
    IntactBounds(queries, d);
    if |queries| > 1 {
      IntactBounds(queries[..|queries| - 1], d);
    }
  }

  lemma AnswerOf(M: nat, views: seq<map<DocId, Record>>, d: DocId)
    requires |views| == 1 + PARTS && d in views[0] && Sound(M, views[0][d]) && DbGrows(views[0], views[1])
    ensures var answer := Poll(views, d);
      && !answer.NotFound?
      && (answer.Matricula? <==> views[0][d].doc.status == Extracted)
      && (answer.GaveUp? <==> views[0][d].doc.status == Failed)
      && (answer.GaveUp? ==> answer.stage.Some? && answer.stage == views[0][d].doc.failedStage)
      && (answer.GaveUp? ==> answer.message.Some? && answer.message == views[0][d].doc.errorMessage)
      && (answer.NotReady? ==> answer.status == views[0][d].doc.status)
      && (answer.Matricula? ==> d in views[1] && Current(views[1][d]) == Some(answer.extraction))
  {}

  /**
   What a poll answers, whatever happens between its queries: a matrícula exactly when it finds the
   document extracted, and all of the aggregate exactly when no save of the document commits between
   the first and the last query of it; the stored stage and message exactly when it finds the document
   failed, and otherwise the status it finds.
   */
  lemma PollAnswers(c: Config, actions: seq<Action>, at: seq<nat>, d: DocId)
    requires Polling(c, actions, at) && d in Views(c, actions, at)[0]
    ensures var views := Views(c, actions, at); var answer := Poll(views, d);
      && !answer.NotFound?
      && (answer.Matricula? <==> views[0][d].doc.status == Extracted)
      && (answer.GaveUp? <==> views[0][d].doc.status == Failed)
      && (answer.GaveUp? ==> answer.stage.Some? && answer.stage == views[0][d].doc.failedStage)
      && (answer.GaveUp? ==> answer.message.Some? && answer.message == views[0][d].doc.errorMessage)
      && (answer.NotReady? ==> answer.status == views[0][d].doc.status)
      && (answer.Matricula? ==>
          && 1 <= answer.parts <= PARTS
          && d in views[1] && Current(views[1][d]) == Some(answer.extraction)
          && (answer.parts == PARTS <==> SameAggregate(views[1], views[PARTS], d)))
  {
    var views := Views(c, actions, at);
    GrowsBetween(c, actions, at[0], at[1]);
    AnswerOf(c.maxAttempts, views, d);
    if Poll(views, d).Matricula? {
      IntactBounds(views[1..], d);
      IntactIff(views[1..], d);
    }
  }

  /**
   A polling client is never misled about the outcome, whatever happens between and inside its polls: a
   created document is never "not found", "failed" always has its stage and message and never changes,
   and once a matrícula is served it is always served.
   */
  lemma AnswersAreStable(c: Config, actions: seq<Action>, at: seq<nat>, at2: seq<nat>, d: DocId)
    requires Polling(c, actions, at) && Polling(c, actions, at2) && at[PARTS] <= at2[0]
    requires d in Views(c, actions, at)[0]
    ensures var before := Poll(Views(c, actions, at), d); var after := Poll(Views(c, actions, at2), d);
      && !before.NotFound? && !after.NotFound?
      && (before.Matricula? ==> after.Matricula?)
      && (before.GaveUp? ==> after == before && before.stage.Some? && before.message.Some?)
  {
    GrowsBetween(c, actions, at[0], at2[0]);
    assert Grows(Views(c, actions, at)[0][d], Views(c, actions, at2)[0][d]);
    PollAnswers(c, actions, at, d);
    PollAnswers(c, actions, at2, d);
  }
}
