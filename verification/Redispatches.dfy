/**
 The janitor re-dispatches a lost OCR job for as long as it stays lost. The documentation speaks of
 a cap after which the document fails; the code has none.
 */
module Redispatches {
  import opened Wrappers
  import opened Seqs
  import opened Tables
  import opened Pipeline
  import opened PipelineInvariant
  import opened PipelineTheorems
  import opened Recovery
  import opened TwoPollers

  /** The OCR jobs that have been started. */
  function Jobs(s: State): set<Pid> {
    set p | p in s.acts && s.acts[p].Job?
  }

  /** One dispatched document whose jobs never finish, and a poller between two ticks. */
  predicate Lingering(s: State, d: DocId, pid: Pid) {
    && Only(s, d) && DrainsAt(s, pid)
    && s.db[d].doc.status == Processing && s.db[d].doc.ocrDispatchedAt.Some? && s.db[d].pages != map[]
  }

  lemma ListIt(c: Config, s: State, d: DocId, pid: Pid) returns (sched: seq<Action>, t: State)
    requires Lingering(s, d, pid) && Stuck(c, s, s.db[d].doc)
    ensures Leads(c, s, sched, t)
    ensures t == s.(acts := s.acts[pid := Poller(Recovering([Entry(d, Processing, true)], None))])
  {
    EndDrain(c, s, pid);
    var u := s.(acts := s.acts[pid := Poller(Exhausting)]);
    EndExhaust(c, u, pid);
    var v := State(ExhaustAll(u.db, c.maxAttempts, u.now), u.now, u.acts[pid := Poller(Listing)]);
    assert v.db == s.db;
    var todo := [Entry(d, Processing, true)];
    assert todo[0].doc == d && Listed(todo, d);
    ListMove(c, v, pid, todo);
    t := v.(acts := v.acts[pid := Poller(Recovering(todo, None))]);
    LeadsConcat(c, s, [ClaimNothing(pid)], u, [Exhaust(pid, true)], v);
    LeadsConcat(c, s, [ClaimNothing(pid)] + [Exhaust(pid, true)], v, [ListStuck(pid, todo)], t);
    sched := [ClaimNothing(pid)] + [Exhaust(pid, true)] + [ListStuck(pid, todo)];
    assert t.acts == s.acts[pid := Poller(Recovering(todo, None))];
  }

  lemma OpenEntry(c: Config, s: State, d: DocId, pid: Pid) returns (sched: seq<Action>, t: State)
    requires RecoversAt(s, pid, [Entry(d, Processing, true)]) && Only(s, d) && s.db[d].pages != map[]
    ensures Leads(c, s, sched, t)
    ensures t == s.(acts := s.acts[pid :=
      Poller(Recovering([Entry(d, Processing, true)], Some(Flow(d, Posting(OrderedValues(s.db[d].pages), 0, true)))))])
  {
    var todo := [Entry(d, Processing, true)];
    EntryMove(c, s, pid, todo);
    var u := Commit(s, EntryEffect(c, s, pid, Fine));
    assert u.db == s.db && u.acts == s.acts[pid := Poller(Recovering(todo, Some(Flow(d, LoadingPages))))];
    NonEmptyRows(s.db[d].pages);
    var load;
    load, t := QuietMove(c, u, pid, d, LoadingPages);
    LeadsConcat(c, s, [NextEntry(pid, Fine)], u, load, t);
    sched := [NextEntry(pid, Fine)] + load;
    assert t.db == s.db;
    assert t.acts == s.acts[pid := Poller(Recovering(todo, Some(Flow(d, Posting(OrderedValues(s.db[d].pages), 0, true)))))];
  }

  /** The poller is about to post again. */
  predicate Resending(s: State, d: DocId, pid: Pid, pc: FlowPc) {
    && pid in s.acts && s.acts[pid] == Poller(Recovering([Entry(d, Processing, true)], Some(Flow(d, pc))))
    && Only(s, d) && s.db[d].doc.status == Processing && s.db[d].pages != map[]
  }

  lemma PostAgain(c: Config, s: State, d: DocId, pid: Pid, objects: seq<PageObject>, job: Pid)
    returns (sched: seq<Action>, t: State)
    requires Resending(s, d, pid, Posting(objects, 0, true)) && objects != [] && job !in s.acts
    ensures Leads(c, s, sched, t) && Resending(t, d, pid, Stamping(true)) && t.db == s.db
    ensures Jobs(t) == Jobs(s) + {job} && job in t.acts && job != pid
  {
    sched, t := PostMove(c, s, pid, d, objects, 0, true, job);
  }

  lemma StampAgain(c: Config, s: State, d: DocId, pid: Pid, job: Pid) returns (sched: seq<Action>, t: State)
    requires Resending(s, d, pid, Stamping(true)) && job in s.acts && job != pid
    ensures Leads(c, s, sched, t) && RecoversAt(t, pid, []) && Jobs(t) == Jobs(s)
    ensures Only(t, d) && t.db[d].doc.status == Processing && t.db[d].doc.ocrDispatchedAt.Some? && t.db[d].pages != map[]
  {
    var unused := FreshAbove(s.acts.Keys);
    FlowMove(c, s, pid, d, Stamping(true), unused);
    sched, t := [StepFlow(pid, Sql(Fine), unused)], Commit(s, FlowEffect(c, s, pid, Sql(Fine), unused));
    assert [Entry(d, Processing, true)][1..] == [];
  }

  /** The job goes out again, the stamp is renewed, and the janitor's list is done. */
  lemma SendAgain(c: Config, s: State, d: DocId, pid: Pid, objects: seq<PageObject>)
    returns (sched: seq<Action>, t: State)
    requires Resending(s, d, pid, Posting(objects, 0, true)) && objects != []
    ensures Leads(c, s, sched, t) && Lingering(t, d, pid) && |Jobs(t)| == |Jobs(s)| + 1
  {
    var job := FreshAbove(s.acts.Keys);
    var a, u := PostAgain(c, s, d, pid, objects, job);
    var b, v := StampAgain(c, u, d, pid, job);
    ResumeDrain(c, v, pid);
    t := v.(acts := v.acts[pid := Poller(Draining)]);
    LeadsConcat(c, s, a, u, b, v);
    LeadsConcat(c, s, a + b, v, [NextEntry(pid, Fine)], t);
    sched := a + b + [NextEntry(pid, Fine)];
    assert Jobs(t) == Jobs(v);
  }

  lemma ReadyToSend(c: Config, s: State, d: DocId, pid: Pid) returns (sched: seq<Action>, t: State)
    requires Lingering(s, d, pid) && Stuck(c, s, s.db[d].doc)
    ensures Leads(c, s, sched, t) && Resending(t, d, pid, Posting(OrderedValues(s.db[d].pages), 0, true))
    ensures Jobs(t) == Jobs(s)
  {
    var list, u := ListIt(c, s, d, pid);
    var open;
    open, t := OpenEntry(c, u, d, pid);
    LeadsConcat(c, s, list, u, open, t);
    sched := list + open;
  }

  /** One more tick of the poller, one more job. */
  lemma OnceMore(c: Config, s: State, d: DocId, pid: Pid) returns (sched: seq<Action>, t: State)
    requires ValidConfig(c) && Lingering(s, d, pid)
    ensures Leads(c, s, sched, t) && Lingering(t, d, pid) && |Jobs(t)| == |Jobs(s)| + 1
  {
    var wait, u := WaitFor(c, s, s.db[d].doc.updatedAt + c.stuckTimeout + 1);
    assert Jobs(u) == Jobs(s);
    var open, v := ReadyToSend(c, u, d, pid);
    NonEmptyRows(s.db[d].pages);
    var send;
    send, t := SendAgain(c, v, d, pid, OrderedValues(s.db[d].pages));
    LeadsConcat(c, s, wait, u, open, v);
    LeadsConcat(c, s, wait + open, v, send, t);
    sched := wait + open + send;
  }

  lemma {:induction false} ManyMore(c: Config, s: State, d: DocId, pid: Pid, n: nat) returns (sched: seq<Action>, t: State)
    requires ValidConfig(c) && Lingering(s, d, pid)
    ensures Leads(c, s, sched, t) && Lingering(t, d, pid) && |Jobs(t)| == |Jobs(s)| + n
    decreases n
  {
    if n == 0 {
      sched, t := [], s;
    } else {
      var first, u := OnceMore(c, s, d, pid);
      var rest;
      rest, t := ManyMore(c, u, d, pid, n - 1);
      LeadsConcat(c, s, first, u, rest, t);
      sched := first + rest;
    }
  }

  lemma FirstDispatch(c: Config, d: DocId) returns (pid: Pid, sched: seq<Action>, t: State)
    requires ValidConfig(c)
    ensures Leads(c, AfterCreate(d), sched, t) && Lingering(t, d, pid)
  {
    var s := AfterCreate(d);
    var a, u := IngestFirst(c, d);
    var b, v := IngestSecond(c, u, d);
    LeadsConcat(c, s, a, u, b, v);
    var e, w := Dispatched(c, v, d);
    LeadsConcat(c, s, a + b, v, e, w);
    AfterCreateInv(c, d);
    LeadsInv(c, s, a + b + e, w);
    assert Sound(c.maxAttempts, w.db[d]) && 1 in w.db[d].pages;
    var f;
    pid, f, t := StartMove(c, w);
    LeadsConcat(c, s, a + b + e, w, f, t);
    sched := a + b + e + f;
  }

  /**
   For every n there is a run, with one poller and no fault but jobs that never finish, in which
   at least n OCR jobs have been started for one document and it is still in processing.
   */
  lemma RedispatchHasNoCap(c: Config, d: DocId, n: nat) returns (sched: seq<Action>)
    requires ValidConfig(c)
    ensures Run(c, [CreateDocument(d, 1, 0, true)] + sched)
    ensures var s := End(c, [CreateDocument(d, 1, 0, true)] + sched);
      && d in s.db && s.db[d].doc.status == Processing
      && |Jobs(s)| >= n && forall p :: p in Jobs(s) ==> s.acts[p].doc == d
  {
    var pid, first, u := FirstDispatch(c, d);
    var rest, t := ManyMore(c, u, d, pid, n);
    LeadsConcat(c, AfterCreate(d), first, u, rest, t);
    sched := first + rest;
    CreateRuns(c, d);
    LeadsIsRun(c, AfterCreate(d), sched, t);
    ReachSplit(c, Initial, [CreateDocument(d, 1, 0, true)], sched);
    EndInv(c, [CreateDocument(d, 1, 0, true)] + sched);
    forall p | p in Jobs(t)
      ensures t.acts[p].doc == d
    {
      assert ActInv(t.acts[p], t.db);
    }
  }
}
