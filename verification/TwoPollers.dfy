/**
 The run that a second poller makes possible, without any fault: a worker is slower than the
 stuck timeout, the other poller requeues and extracts its document, and then the slow worker
 saves over the served matrícula.
 */
module TwoPollers {
  import opened Wrappers
  import opened Seqs
  import opened Aggregate
  import opened Normalize
  import opened Schema
  import opened Tables
  import opened Pipeline
  import opened PipelineInvariant
  import opened PipelineTheorems
  import opened Polls
  import opened Recovery
  import Dates
  import FanOut

  /** What the second poller's LLM answers. */
  const Second := Plain.(numero := "2", proprietarios := [Proprietario("owner", "", None, "", None, "")])

  lemma AnswersDiffer()
    ensures Storable(Normalized(Plain)) && Storable(Normalized(Second))
    ensures Normalized(Plain) != Normalized(Second)
  {
    PlainIsStorable();
    Dates.NormalizedDateFixedPoints("");
    assert Normalized(Plain).numero == "1" && Normalized(Second).numero == "2";
  }

  predicate Only(s: State, d: DocId) {
    s.db.Keys == {d}
  }

  /** One claimable document, no extraction yet, nothing else in the database. */
  predicate Ripe(c: Config, s: State, d: DocId, attempts: nat) {
    && Only(s, d) && Claimable(s.db[d].doc, c.maxAttempts, s.now) && s.db[d].ocr != map[]
    && s.db[d].extractions == [] && s.db[d].doc.extractionAttempts == attempts
  }

  function AfterCreate(d: DocId): State {
    State(map[d := Created(d, 1, 0)], 0, map[0 := Upload(Flow(d, Starting))])
  }

  lemma CreateRuns(c: Config, d: DocId)
    requires ValidConfig(c)
    ensures Legal(c, Initial, [CreateDocument(d, 1, 0, true)])
    ensures Reach(c, Initial, [CreateDocument(d, 1, 0, true)]) == AfterCreate(d)
  {
    var a := CreateDocument(d, 1, 0, true);
    var t := Next(c, Initial, a);
    assert t.db == AfterCreate(d).db && t.acts == AfterCreate(d).acts;
    assert [a][1..] == [] && Legal(c, t, []) && Reach(c, t, []) == t;
  }

  // ---------- ingest, one page ----------

  predicate Ingesting(s: State, d: DocId, pc: FlowPc, status: Status) {
    && s.acts == map[0 := Upload(Flow(d, pc))] && Only(s, d) && s.db[d].doc.id == d && s.db[d].doc.pdfPages == 1
    && s.db[d].doc.status == status && s.db[d].extractions == []
    && s.db[d].doc.extractionAttempts == 0 && s.db[d].doc.nextExtractionAt == None
  }

  lemma IngestStep(c: Config, s: State, d: DocId, pc: FlowPc, status: Status, next: FlowPc)
    returns (sched: seq<Action>, t: State)
    requires Ingesting(s, d, pc, status) && !pc.Posting? && !pc.Stamping? && !pc.MarkingFailed? && HasPages(pc, s.db[d])
    requires FlowEnabled(pc, s.db[d], FineFor(pc, s.db[d]))
    requires NextFlow(pc, s.db[d], FineFor(pc, s.db[d]), s.now).next == Some(next)
    ensures Leads(c, s, sched, t)
    ensures Ingesting(t, d, next, if pc.Starting? && status == Uploaded then Processing else status)
  {
    sched, t := QuietMove(c, s, 0, d, pc);
    assert t.acts == map[0 := Upload(Flow(d, next))];
  }

  lemma IngestFirst(c: Config, d: DocId) returns (sched: seq<Action>, t: State)
    ensures Leads(c, AfterCreate(d), sched, t)
    ensures Ingesting(t, d, RecordingPages(PageObjects(d, 1)), Processing)
  {
    var a, u := IngestStep(c, AfterCreate(d), d, Starting, Uploaded, Converting);
    var b;
    b, t := IngestStep(c, u, d, Converting, Processing, RecordingPages(PageObjects(d, 1)));
    LeadsConcat(c, AfterCreate(d), a, u, b, t);
    sched := a + b;
  }

  lemma IngestSecond(c: Config, s: State, d: DocId) returns (sched: seq<Action>, t: State)
    requires Ingesting(s, d, RecordingPages(PageObjects(d, 1)), Processing)
    ensures Leads(c, s, sched, t) && Ingesting(t, d, Posting(PageObjects(d, 1), 0, false), Processing)
  {
    var a, u := IngestStep(c, s, d, RecordingPages(PageObjects(d, 1)), Processing, RecordingCount(PageObjects(d, 1)));
    var b;
    b, t := IngestStep(c, u, d, RecordingCount(PageObjects(d, 1)), Processing, Posting(PageObjects(d, 1), 0, false));
    LeadsConcat(c, s, a, u, b, t);
    sched := a + b;
  }

  predicate Recognizing(c: Config, s: State, d: DocId) {
    && Only(s, d) && s.db[d].doc.status == Processing && s.db[d].extractions == []
    && s.db[d].doc.extractionAttempts == 0 && s.db[d].doc.nextExtractionAt == None
    && s.db[d].doc.ocrDispatchedAt.Some?
    && s.acts == map[1 := NewJob(c, d, JobPages(PageObjects(d, 1)))]
  }

  lemma Dispatched(c: Config, s: State, d: DocId) returns (sched: seq<Action>, t: State)
    requires Ingesting(s, d, Posting(PageObjects(d, 1), 0, false), Processing)
    ensures Leads(c, s, sched, t) && Recognizing(c, t, d)
  {
    var a, u := PostMove(c, s, 0, d, PageObjects(d, 1), 0, false, 1);
    var job := NewJob(c, d, JobPages(PageObjects(d, 1)));
    assert u.acts == map[0 := Upload(Flow(d, Stamping(false))), 1 := job];
    var unused := FreshAbove(u.acts.Keys);
    FlowMove(c, u, 0, d, Stamping(false), unused);
    t := Commit(u, FlowEffect(c, u, 0, Sql(Fine), unused));
    assert t.acts == map[1 := job];
    LeadsConcat(c, s, a, u, [StepFlow(0, Sql(Fine), unused)], t);
    sched := a + [StepFlow(0, Sql(Fine), unused)];
  }

  lemma Recognized(c: Config, s: State, d: DocId) returns (sched: seq<Action>, t: State)
    requires ValidConfig(c) && Inv(c, s) && Recognizing(c, s, d)
    ensures Leads(c, s, sched, t) && Ripe(c, t, d, 0)
  {
    FanOut.InitialWork(1, c.concurrency, c.needsImage);
    FanOut.InitialInv(1, c.concurrency, c.needsImage);
    sched, t := RunJob(c, s, 1, d, s.acts[1].fan);
    LeadsInv(c, s, sched, t);
    InvFed(c, t);
  }

  lemma AfterCreateInv(c: Config, d: DocId)
    requires ValidConfig(c)
    ensures Inv(c, AfterCreate(d))
  {
    CreateRuns(c, d);
    InitialInv(c);
    RunInv(c, Initial, [CreateDocument(d, 1, 0, true)]);
  }

  lemma Prepared(c: Config, d: DocId) returns (sched: seq<Action>, t: State)
    requires ValidConfig(c)
    ensures Leads(c, AfterCreate(d), sched, t) && Ripe(c, t, d, 0)
  {
    var s := AfterCreate(d);
    var a, u := IngestFirst(c, d);
    var b, v := IngestSecond(c, u, d);
    LeadsConcat(c, s, a, u, b, v);
    var e, w := Dispatched(c, v, d);
    LeadsConcat(c, s, a + b, v, e, w);
    AfterCreateInv(c, d);
    LeadsInv(c, s, a + b + e, w);
    var f;
    f, t := Recognized(c, w, d);
    LeadsConcat(c, s, a + b + e, w, f, t);
    sched := a + b + e + f;
  }

  // ---------- the first poller claims, asks, and is slow ----------

  /** The slow worker has the answer of attempt 1 and has not saved it yet. */
  predicate Slow(s: State, d: DocId, slow: Pid) {
    slow in s.acts && s.acts[slow] == Poller(Working(d, 1, Saving(Normalized(Plain))))
  }

  lemma RipeIsFirst(c: Config, s: State, d: DocId, attempts: nat)
    requires Ripe(c, s, d, attempts)
    ensures d in Queue(c, s) && FirstInQueue(c, s, d)
  {
    assert forall e :: e in s.db.Keys ==> e == d;
  }

  lemma ClaimAndAsk(c: Config, s: State, pid: Pid, d: DocId, attempts: nat, answer: ExtractedMatricula)
    returns (sched: seq<Action>, t: State)
    requires DrainsAt(s, pid) && Ripe(c, s, d, attempts) && Storable(Normalized(answer))
    ensures Leads(c, s, sched, t) && t.now == s.now && Only(t, d)
    ensures t.db[d] == Execute(ClaimForExtraction(c.maxAttempts), s.now, s.db[d])
    ensures t.acts == s.acts[pid := Poller(Working(d, attempts + 1, Saving(Normalized(answer))))]
  {
    RipeIsFirst(c, s, d, attempts);
    ClaimMove(c, s, pid, d);
    var r := Execute(ClaimForExtraction(c.maxAttempts), s.now, s.db[d]);
    assert r.ocr == s.db[d].ocr;
    var u := State(s.db[d := r], s.now, s.acts[pid := Poller(Working(d, attempts + 1, Loading))]);
    var rest;
    rest, t := ReadAndAsk(c, u, pid, d, attempts + 1, answer);
    LeadsConcat(c, s, [Claim(pid, d, Fine)], u, rest, t);
    sched := [Claim(pid, d, Fine)] + rest;
    assert u.acts[pid := t.acts[pid]] == s.acts[pid := t.acts[pid]];
  }

  /** Claimed once, unsaved, and ready to be listed as stuck. */
  predicate Claimed(c: Config, s: State, d: DocId) {
    && Only(s, d) && s.db[d].doc.status == Extracting && s.db[d].ocr != map[]
    && s.db[d].extractions == [] && s.db[d].doc.extractionAttempts == 1
    && Stuck(c, s, s.db[d].doc)
  }

  lemma FirstPoller(c: Config, s: State, d: DocId) returns (slow: Pid, sched: seq<Action>, t: State)
    requires ValidConfig(c) && Ripe(c, s, d, 0)
    ensures Leads(c, s, sched, t) && Slow(t, d, slow) && Claimed(c, t, d)
  {
    PlainIsStorable();
    var a, u;
    slow, a, u := StartMove(c, s);
    var b, v := ClaimAndAsk(c, u, slow, d, 0, Plain);
    LeadsConcat(c, s, a, u, b, v);
    var e;
    e, t := WaitFor(c, v, v.db[d].doc.updatedAt + c.stuckTimeout + 1);
    LeadsConcat(c, s, a + b, v, e, t);
    sched := a + b + e;
  }

  // ---------- the second poller ----------

  lemma ToListing(c: Config, s: State, d: DocId, pid: Pid) returns (sched: seq<Action>, t: State)
    requires Claimed(c, s, d) && DrainsAt(s, pid)
    ensures Leads(c, s, sched, t) && t == s.(acts := s.acts[pid := Poller(Listing)])
  {
    EndDrain(c, s, pid);
    var u := s.(acts := s.acts[pid := Poller(Exhausting)]);
    EndExhaust(c, u, pid);
    t := State(ExhaustAll(u.db, c.maxAttempts, u.now), u.now, u.acts[pid := Poller(Listing)]);
    assert t.db == s.db && t.acts == s.acts[pid := Poller(Listing)];
    LeadsConcat(c, s, [ClaimNothing(pid)], u, [Exhaust(pid, true)], t);
    sched := [ClaimNothing(pid)] + [Exhaust(pid, true)];
  }

  lemma ListTheOne(c: Config, s: State, d: DocId)
    requires Claimed(c, s, d)
    ensures StuckList(c, s, [EntryOf(s, d)])
  {
    var todo := [EntryOf(s, d)];
    assert todo[0].doc == d && Listed(todo, d);
  }

  /** The janitor requeues the row under the slow worker. */
  lemma Requeued(c: Config, s: State, d: DocId, pid: Pid) returns (sched: seq<Action>, t: State)
    requires Claimed(c, s, d) && c.maxAttempts >= 2 && pid in s.acts && s.acts[pid] == Poller(Listing)
    ensures Leads(c, s, sched, t) && Ripe(c, t, d, 1) && t.acts == s.acts[pid := Poller(Draining)]
  {
    var todo := [EntryOf(s, d)];
    ListTheOne(c, s, d);
    ListMove(c, s, pid, todo);
    var u := s.(acts := s.acts[pid := Poller(Recovering(todo, None))]);
    EntryMove(c, u, pid, todo);
    var v := Commit(u, EntryEffect(c, u, pid, Fine));
    assert todo[1..] == [] && RecoversAt(v, pid, []);
    ResumeDrain(c, v, pid);
    t := v.(acts := v.acts[pid := Poller(Draining)]);
    LeadsConcat(c, s, [ListStuck(pid, todo)], u, [NextEntry(pid, Fine)], v);
    LeadsConcat(c, s, [ListStuck(pid, todo)] + [NextEntry(pid, Fine)], v, [NextEntry(pid, Fine)], t);
    sched := [ListStuck(pid, todo)] + [NextEntry(pid, Fine)] + [NextEntry(pid, Fine)];
    assert t.acts == s.acts[pid := Poller(Draining)];
  }

  lemma ExtractAgain(c: Config, s: State, d: DocId, pid: Pid) returns (sched: seq<Action>, t: State)
    requires Ripe(c, s, d, 1) && DrainsAt(s, pid)
    ensures Leads(c, s, sched, t) && Only(t, d) && t.acts == s.acts[pid := Poller(Draining)]
    ensures t.db[d].doc.status == Extracted && t.db[d].extractions == [Extraction(2, Normalized(Second))]
  {
    AnswersDiffer();
    var a, u := ClaimAndAsk(c, s, pid, d, 1, Second);
    var b;
    b, t := SaveAndComplete(c, u, pid, d, 2, Normalized(Second));
    LeadsConcat(c, s, a, u, b, t);
    sched := a + b;
    assert t.acts == s.acts[pid := Poller(Draining)];
  }

  lemma SecondPoller(c: Config, s: State, d: DocId, slow: Pid) returns (sched: seq<Action>, t: State)
    requires ValidConfig(c) && c.maxAttempts >= 2 && Claimed(c, s, d) && Slow(s, d, slow)
    ensures Leads(c, s, sched, t) && Only(t, d) && Slow(t, d, slow)
    ensures t.db[d].doc.status == Extracted && t.db[d].extractions == [Extraction(2, Normalized(Second))]
  {
    var pid := FreshAbove(s.acts.Keys);
    OneStep(c, s, StartPoller(pid));
    var u := Next(c, s, StartPoller(pid));
    assert u.db == s.db && u.acts == s.acts[pid := Poller(Draining)];
    var b, v := ToListing(c, u, d, pid);
    var e, w := Requeued(c, v, d, pid);
    var f;
    f, t := ExtractAgain(c, w, d, pid);
    LeadsConcat(c, s, [StartPoller(pid)], u, b, v);
    LeadsConcat(c, s, [StartPoller(pid)] + b, v, e, w);
    LeadsConcat(c, s, [StartPoller(pid)] + b + e, w, f, t);
    sched := [StartPoller(pid)] + b + e + f;
  }

  lemma Overwritten(c: Config, s: State, d: DocId, slow: Pid)
    requires Only(s, d) && Slow(s, d, slow) && Storable(Normalized(Plain))
    requires s.db[d].doc.status == Extracted && s.db[d].extractions == [Extraction(2, Normalized(Second))]
    ensures Leads(c, s, [StepWorker(slow, Sql(Fine))], WorkerMoved(s, slow, Sql(Fine)))
    ensures ByDocument(s.db, d) == Matricula(Extraction(2, Normalized(Second)), PARTS)
    ensures ByDocument(WorkerMoved(s, slow, Sql(Fine)).db, d) == Matricula(Extraction(1, Normalized(Plain)), PARTS)
    ensures WorkerMoved(s, slow, Sql(Fine)).db[d].extractions == s.db[d].extractions + [Extraction(1, Normalized(Plain))]
  {
    WorkerMove(c, s, slow, Sql(Fine));
    QuietPoll(s.db, d);
    QuietPoll(WorkerMoved(s, slow, Sql(Fine)).db, d);
  }

  lemma WholeStory(c: Config, d: DocId) returns (slow: Pid, sched: seq<Action>, t: State)
    requires ValidConfig(c) && c.maxAttempts >= 2
    ensures Leads(c, AfterCreate(d), sched, t) && Only(t, d) && Slow(t, d, slow)
    ensures t.db[d].doc.status == Extracted && t.db[d].extractions == [Extraction(2, Normalized(Second))]
  {
    var a, u := Prepared(c, d);
    var b, v;
    slow, b, v := FirstPoller(c, u, d);
    LeadsConcat(c, AfterCreate(d), a, u, b, v);
    var e;
    e, t := SecondPoller(c, v, d, slow);
    LeadsConcat(c, AfterCreate(d), a + b, v, e, t);
    sched := a + b + e;
  }

  /**
   With two pollers and at least two attempts a served matrícula can change: from the moment the
   document exists nothing fails, and still the answer of attempt 2 is replaced by attempt 1's.
   */
  lemma ServedMatriculaCanChange(c: Config, d: DocId) returns (sched: seq<Action>, save: Action)
    requires ValidConfig(c) && c.maxAttempts >= 2
    ensures Run(c, [CreateDocument(d, 1, 0, true)] + sched)
    ensures var s := End(c, [CreateDocument(d, 1, 0, true)] + sched);
      && Enabled(c, s, save)
      && ByDocument(s.db, d) == Matricula(Extraction(2, Normalized(Second)), PARTS)
      && ByDocument(Next(c, s, save).db, d) == Matricula(Extraction(1, Normalized(Plain)), PARTS)
      && s.db[d].doc.status == Extracted && s.db[d].extractions == [Extraction(2, Normalized(Second))]
      && Next(c, s, save).db[d].extractions == [Extraction(2, Normalized(Second)), Extraction(1, Normalized(Plain))]
      && Normalized(Plain) != Normalized(Second)
  {
    var create := [CreateDocument(d, 1, 0, true)];
    var slow, rest, t := WholeStory(c, d);
    sched, save := rest, StepWorker(slow, Sql(Fine));
    CreateRuns(c, d);
    LeadsIsRun(c, AfterCreate(d), sched, t);
    ReachSplit(c, Initial, create, sched);
    AnswersDiffer();
    Overwritten(c, t, d, slow);
  }

  // ---------- exactly when it can change ----------

  /** What first serves for d is no longer what is served after later. */
  predicate Changes(c: Config, first: seq<Action>, later: seq<Action>, d: DocId) {
    && Run(c, first) && Run(c, first + later)
    && ByDocument(End(c, first).db, d).Matricula?
    && ByDocument(End(c, first + later).db, d) != ByDocument(End(c, first).db, d)
  }

  /** A single attempt saves at most once, whatever the number of pollers. */
  lemma OneAttemptIsFinal(c: Config, first: seq<Action>, later: seq<Action>, d: DocId)
    requires c.maxAttempts == 1
    ensures !Changes(c, first, later, d)
  {
    if Changes(c, first, later, d) {
      ReachSplit(c, Initial, first, later);
      EndInv(c, first);
      RunInv(c, End(c, first), later);
      var s, t := End(c, first), End(c, first + later);
      ExtractionsBounded(c, t, d);
      QuietPoll(s.db, d);
      SameSingle(s.db[d].extractions, t.db[d].extractions);
      SameAnswer(s.db, t.db, d);
      assert false;
    }
  }

  lemma SameAnswer(s: map<DocId, Record>, t: map<DocId, Record>, d: DocId)
    requires ByDocument(s, d).Matricula? && SameAggregate(s, t, d) && Grows(s[d], t[d])
    ensures ByDocument(t, d) == ByDocument(s, d)
  {
    QuietPoll(s, d);
    QuietPoll(t, d);
  }

  lemma SameSingle(a: seq<Extraction>, b: seq<Extraction>)
    requires a != [] && a <= b && |b| <= 1
    ensures a == b
  {}

  lemma ChangeExists(c: Config, d: DocId) returns (first: seq<Action>, later: seq<Action>)
    requires ValidConfig(c) && c.maxAttempts >= 2
    ensures Changes(c, first, later, d)
  {
    var sched, save := ServedMatriculaCanChange(c, d);
    first, later := [CreateDocument(d, 1, 0, true)] + sched, [save];
    var t := Next(c, End(c, first), save);
    assert [save][1..] == [] && Legal(c, t, []) && Reach(c, t, []) == t;
    assert Legal(c, End(c, first), later) && Reach(c, End(c, first), later) == t;
    ReachSplit(c, Initial, first, later);
  }

  /** With any number of pollers, a served matrícula can change exactly when there is a second attempt. */
  lemma ServedMatriculaCanChangeIff(c: Config, d: DocId)
    requires ValidConfig(c)
    ensures (exists first, later :: Changes(c, first, later, d)) <==> c.maxAttempts >= 2
  {
    if c.maxAttempts >= 2 {
      var first, later := ChangeExists(c, d);
    } else if exists first, later :: Changes(c, first, later, d) {
      var first, later :| Changes(c, first, later, d);
      OneAttemptIsFinal(c, first, later, d);
    }
  }

  // ---------- exactly when a read can be torn ----------

  /** A poll serves what nobody has ever saved. */
  ghost predicate Torn(c: Config, actions: seq<Action>, at: seq<nat>, d: DocId) {
    && Polling(c, actions, at)
    && var answer := Poll(Views(c, actions, at), d);
    && answer.Matricula? && d in End(c, actions).db
    && forall x :: x in End(c, actions).db[d].extractions ==> x.content != Delivered(answer)
  }

  lemma SecondHasOwner()
    ensures Normalized(Second).proprietarios != [] && Normalized(Second).numero == "2" && Normalized(Plain).numero == "1"
  {}

  /** The slow worker saves between the first and the second query of the aggregate. */
  lemma TornRead(c: Config, d: DocId) returns (actions: seq<Action>, at: seq<nat>)
    requires ValidConfig(c) && c.maxAttempts >= 2
    ensures Torn(c, actions, at, d)
  {
    var sched, save := ServedMatriculaCanChange(c, d);
    var first := [CreateDocument(d, 1, 0, true)] + sched;
    actions, at := first + [save], AroundLast(|first|);
    SaveAtEnd(c, first, save);
    HeaderAlone(End(c, first).db, Next(c, End(c, first), save).db, d);
  }

  /** The document's row and the matrícula's before the last of n + 1 actions, the rest after it. */
  function AroundLast(n: nat): seq<nat> {
    [n, n, n + 1, n + 1, n + 1, n + 1]
  }

  lemma SaveAtEnd(c: Config, first: seq<Action>, save: Action)
    requires Run(c, first) && Enabled(c, End(c, first), save)
    ensures Run(c, first + [save]) && End(c, first + [save]) == Next(c, End(c, first), save)
    ensures Polling(c, first + [save], AroundLast(|first|))
    ensures var s, t := End(c, first).db, Next(c, End(c, first), save).db;
      Views(c, first + [save], AroundLast(|first|)) == [s, s, t, t, t, t]
  {
    var t := Next(c, End(c, first), save);
    assert [save][1..] == [] && Legal(c, t, []) && Reach(c, t, []) == t;
    ReachSplit(c, Initial, first, [save]);
    AtEnd(c, Initial, first + [save]);
    Between(c, Initial, first + [save], 0, |first|);
    assert (first + [save])[0..|first|] == first;
  }

  /** Only the header of the replaced aggregate arrives. */
  lemma HeaderAlone(s: map<DocId, Record>, t: map<DocId, Record>, d: DocId)
    requires d in s && d in t && s[d].doc.status == Extracted && s[d].extractions == [Extraction(2, Normalized(Second))]
    requires t[d].extractions == [Extraction(2, Normalized(Second)), Extraction(1, Normalized(Plain))]
    ensures var answer := Poll([s, s, t, t, t, t], d);
      && answer.Matricula?
      && forall x :: x in t[d].extractions ==> x.content != Delivered(answer)
  {
    var queries := [s, t, t, t, t];
    assert [s, s, t, t, t, t][1..] == queries && !SameAggregate(s, t, d);
    assert queries[..4] == [s, t, t, t] && [s, t, t, t][..3] == [s, t, t] && [s, t, t][..2] == [s, t] && [s, t][..1] == [s];
    assert Intact([s], d) == 1 && Intact([s, t], d) == 1 && Intact([s, t, t], d) == 1 && Intact([s, t, t, t], d) == 1;
    SecondHasOwner();
  }

  lemma OneAttemptIsWhole(c: Config, actions: seq<Action>, at: seq<nat>, d: DocId)
    requires c.maxAttempts == 1
    ensures !Torn(c, actions, at, d)
  {
    if Torn(c, actions, at, d) {
      var views := Views(c, actions, at);
      PollsExisting(views, d);
      PollAnswers(c, actions, at, d);
      GrowsBetween(c, actions, at[1], at[PARTS]);
      GrowsBetween(c, actions, at[PARTS], |actions|);
      AtEnd(c, Initial, actions);
      EndInv(c, actions);
      ExtractionsBounded(c, End(c, actions), d);
      OneSaveIsWhole(Poll(views, d), views[1][d].extractions, views[PARTS][d].extractions, End(c, actions).db[d].extractions);
    }
  }

  lemma PollsExisting(views: seq<map<DocId, Record>>, d: DocId)
    requires |views| == 1 + PARTS && Poll(views, d).Matricula?
    ensures d in views[0]
  {}

  lemma OneSaveIsWhole(answer: Answer, first: seq<Extraction>, last: seq<Extraction>, end: seq<Extraction>)
    requires answer.Matricula? && first != [] && first <= last <= end && |end| <= 1
    requires answer.extraction == first[|first| - 1] && (answer.parts == PARTS <==> first == last)
    ensures exists x :: x in end && x.content == Delivered(answer)
  {
    assert first == last == end;
    assert end[0] in end && Delivered(answer) == end[0].content;
  }

  /** With any number of pollers, a poll can serve a torn matrícula exactly when there is a second attempt. */
  lemma TornReadIff(c: Config, d: DocId)
    requires ValidConfig(c)
    ensures (exists actions, at :: Torn(c, actions, at, d)) <==> c.maxAttempts >= 2
  {
    if c.maxAttempts >= 2 {
      var actions, at := TornRead(c, d);
    } else if exists actions, at :: Torn(c, actions, at, d) {
      var actions, at :| Torn(c, actions, at, d);
      OneAttemptIsWhole(c, actions, at, d);
      assert false;
    }
  }
}
