/** An invocation that nobody interferes with is a run of the service's steps.  So what module
    InvocationService says of one call by itself is among what module Invocations says of any number
    of them interleaved, and every step can happen, for synchronous and asynchronous invocations,
    canceled or not. */
module InvocationRuns {
  import opened Tunnel
  import opened Sorting
  import opened FanOut
  import opened InvocationTables
  import opened Invocations
  import opened InvocationService

  lemma {:induction false} Join(st: State, es: seq<Event>, fs: seq<Event>)
    requires Run(st, es) && Run(After(st, es), fs)
    ensures Run(st, es + fs) && After(st, es + fs) == After(After(st, es), fs)
    decreases |es|
  {
    hide Can, Next, Fresh;
    if es == [] {
      assert es + fs == fs;
    } else {
      assert (es + fs)[1..] == es[1..] + fs;
      Join(Next(st, es[0]), es[1..], fs);
    }
  }

  lemma OneStep(st: State, e: Event)
    requires Can(st, e) && Fresh(st, e)
    ensures Run(st, [e]) && After(st, [e]) == Next(st, e)
  {
    assert [e][1..] == [];
  }

  lemma TwoSteps(st: State, e: Event, f: Event)
    requires Can(st, e) && Fresh(st, e) && Can(Next(st, e), f) && Fresh(Next(st, e), f)
    ensures Run(st, [e, f]) && After(st, [e, f]) == Next(Next(st, e), f)
  {
    hide Can, Next, Fresh, Run, After;
    OneStep(st, e);
    OneStep(Next(st, e), f);
    Join(st, [e], [f]);
    assert [e] + [f] == [e, f];
  }

  /** `st` with other tables and cancel functions, and with one more execution. */
  function With(st: State, t: Tables, fns: map<Id, nat>, e: Execution): State {
    State(t, fns, st.executions + [e], st.cancelers)
  }

  lemma LastExecution(st: State, t: Tables, fns: map<Id, nat>, e: Execution, f: Execution)
    ensures var w, x := With(st, t, fns, e), |st.executions|;
            x < |w.executions| && w.executions[x] == e && w.executions[x := f] == With(st, t, fns, f).executions
  {
  }

  /** The execution once it has started, when the targets in `done` have finished. */
  function Begun(id: Id, event: Id, async: bool, targets: seq<string>, started: int, done: seq<Result>): Execution {
    Execution(id, event, async, targets, Executing, Usable, done, false, Pending, started, 0, None)
  }

  function Armed(fns: map<Id, nat>, id: Id, x: nat, async: bool): map<Id, nat> {
    if async then fns[id := x] else fns
  }

  lemma CreateIsPlayed(st: State, id: Id, event: Id, names: seq<string>, async: bool)
    requires id !in st.tables.invocations && event !in st.tables.audits && event != ""
    ensures var x, targets := |st.executions|, Targets(names);
            var es := [Create(id, names, async), RecordAudit(x, event)];
            && Run(st, es)
            && After(st, es) == With(st, AuditStarted(Created(st.tables, id, async, targets), id, event), st.cancelFns,
                                     Begun(id, event, async, targets, 0, []).(phase := Audited))
  {
    var x, targets := |st.executions|, Targets(names);
    var e0 := Begun(id, "", async, targets, 0, []).(phase := Inserted);
    var s1 := Next(st, Create(id, names, async));
    assert s1 == With(st, Created(st.tables, id, async, targets), st.cancelFns, e0);
    LastExecution(st, s1.tables, st.cancelFns, e0, e0.(event := event, phase := Audited));
    TwoSteps(st, Create(id, names, async), RecordAudit(x, event));
  }

  function StartEvents(x: nat, started: int, async: bool): seq<Event> {
    if async then [Arm(x), Start(x, started)] else [Start(x, started)]
  }

  lemma StartIsPlayed(st: State, t: Tables, id: Id, event: Id, async: bool, targets: seq<string>, started: int)
    ensures var x, e := |st.executions|, Begun(id, event, async, targets, 0, []).(phase := Audited);
            && Run(With(st, t, st.cancelFns, e), StartEvents(x, started, async))
            && After(With(st, t, st.cancelFns, e), StartEvents(x, started, async))
               == With(st, MarkedRunning(t, id, started), Armed(st.cancelFns, id, x, async),
                       Begun(id, event, async, targets, started, []))
  {
    var x, e := |st.executions|, Begun(id, event, async, targets, 0, []).(phase := Audited);
    var w := With(st, t, st.cancelFns, e);
    if async {
      var fns := st.cancelFns[id := x];
      LastExecution(st, t, st.cancelFns, e, e.(phase := Invocations.Armed));
      assert Next(w, Arm(x)) == With(st, t, fns, e.(phase := Invocations.Armed));
      LastExecution(st, t, fns, e.(phase := Invocations.Armed), Begun(id, event, async, targets, started, []));
      TwoSteps(w, Arm(x), Start(x, started));
    } else {
      LastExecution(st, t, st.cancelFns, e, Begun(id, event, async, targets, started, []));
      OneStep(w, Start(x, started));
    }
  }

  function CompleteEvents(x: nat, rs: seq<Result>): seq<Event> {
    if rs == [] then [] else CompleteEvents(x, rs[..|rs| - 1]) + [Complete(x, rs[|rs| - 1])]
  }

  /** Each result is a terminal one of its own target. */
  predicate Possible(targets: seq<string>, rs: seq<Result>) {
    && OnePerNode(rs)
    && forall r | r in rs :: r.node in targets && r.status in {Succeeded, Failed, Canceled}
  }

  lemma {:induction false} TargetsArePlayed(st: State, t: Tables, fns: map<Id, nat>, e: Execution, rs: seq<Result>)
    requires e.phase == Executing && e.done == [] && Possible(e.targets, rs)
    ensures Run(With(st, t, fns, e), CompleteEvents(|st.executions|, rs))
    ensures After(With(st, t, fns, e), CompleteEvents(|st.executions|, rs)) == With(st, t, fns, e.(done := rs))
  {
    var x, w := |st.executions|, With(st, t, fns, e);
    if rs != [] {
      var init, r := rs[..|rs| - 1], rs[|rs| - 1];
      assert forall q | q in init :: q in rs;
      TargetsArePlayed(st, t, fns, e, init);
      var w1 := With(st, t, fns, e.(done := init));
      assert r in rs;
      assert CanComplete(e.(done := init), r);
      LastExecution(st, t, fns, e.(done := init), e.(done := rs));
      assert init + [r] == rs;
      OneStep(w1, Complete(x, r));
      Join(w, CompleteEvents(x, init), [Complete(x, r)]);
    } else {
      assert e.(done := rs) == e;
    }
  }

  /** What aborts the context of an invocation. */
  function AbortEvents(x: nat, id: Id, async: bool, aborted: bool): seq<Event> {
    if !aborted then [] else if async then [CancelCheck(id), CancelFire(id)] else [CallerGone(x, false)]
  }

  lemma AbortIsPlayed(st: State, t: Tables, fns: map<Id, nat>, e: Execution, aborted: bool)
    requires e.phase == Executing && e.context == Usable
    requires e.id in t.invocations && !Terminal(t.invocations[e.id].status)
    requires e.async ==> e.id in fns && fns[e.id] == |st.executions|
    ensures var w, es := With(st, t, fns, e), AbortEvents(|st.executions|, e.id, e.async, aborted);
            && Run(w, es)
            && After(w, es) == With(st, t, fns, e.(context := if aborted then Aborted else Usable))
  {
    var x, w, f := |st.executions|, With(st, t, fns, e), e.(context := Aborted);
    LastExecution(st, t, fns, e, f);
    if aborted && e.async {
      var s1 := Next(w, CancelCheck(e.id));
      assert s1 == w.(cancelers := w.cancelers + multiset{e.id});
      assert w.cancelers + multiset{e.id} - multiset{e.id} == w.cancelers;
      TwoSteps(w, CancelCheck(e.id), CancelFire(e.id));
    } else if aborted {
      OneStep(w, CallerGone(x, false));
    }
  }

  function EndEvents(x: nat, finished: int): seq<Event> {
    [Summarize(x, finished), Store(x)] + [FinishAudit(x), Disarm(x)]
  }

  function Over(e: Execution, finished: int): Execution {
    var canceled := e.context == Aborted;
    e.(phase := Disarmed, finished := finished, sawCancel := canceled, verdict := Verdict(Statuses(e.done), canceled))
  }

  /** After the summary, and after the results have been stored. */
  function Stored(t: Tables, e: Execution, finished: int): Tables {
    InvocationTables.Finished(t, e.id, Over(e, finished).verdict, e.started, finished, SortByNode(e.done))
  }

  lemma SummaryIsPlayed(st: State, t: Tables, fns: map<Id, nat>, e: Execution, finished: int)
    requires e.phase == Executing && forall n | n in e.targets :: HasResult(e, n)
    ensures var x, w := |st.executions|, With(st, t, fns, e);
            && Run(w, [Summarize(x, finished), Store(x)])
            && After(w, [Summarize(x, finished), Store(x)])
               == With(st, Stored(t, e, finished), fns, Over(e, finished).(phase := Invocations.Stored))
  {
    hide Verdict, Statuses, SortByNode, InvocationTables.Finished;
    var x, w, over := |st.executions|, With(st, t, fns, e), Over(e, finished);
    LastExecution(st, t, fns, e, over.(phase := Summed));
    LastExecution(st, t, fns, over.(phase := Summed), over.(phase := Invocations.Stored));
    assert Next(w, Summarize(x, finished)) == With(st, t, fns, over.(phase := Summed));
    TwoSteps(w, Summarize(x, finished), Store(x));
  }

  lemma ClosingIsPlayed(st: State, t: Tables, fns: map<Id, nat>, over: Execution)
    requires over.phase == Disarmed
    ensures var x, w := |st.executions|, With(st, t, fns, over.(phase := Invocations.Stored));
            && Run(w, [FinishAudit(x), Disarm(x)])
            && After(w, [FinishAudit(x), Disarm(x)])
               == With(st, AuditFinished(t, over.id, over.verdict, over.finished), fns - {over.id}, over)
  {
    hide AuditFinished;
    var x, stored, closed := |st.executions|, over.(phase := Invocations.Stored), over.(phase := Closed);
    LastExecution(st, t, fns, stored, closed);
    LastExecution(st, AuditFinished(t, over.id, over.verdict, over.finished), fns, closed, over);
    assert Next(With(st, t, fns, stored), FinishAudit(x))
           == With(st, AuditFinished(t, over.id, over.verdict, over.finished), fns, closed);
    TwoSteps(With(st, t, fns, stored), FinishAudit(x), Disarm(x));
  }

  lemma EndIsPlayed(st: State, t: Tables, fns: map<Id, nat>, e: Execution, finished: int)
    requires e.phase == Executing && forall n | n in e.targets :: HasResult(e, n)
    ensures var w, es, over := With(st, t, fns, e), EndEvents(|st.executions|, finished), Over(e, finished);
            && Run(w, es)
            && After(w, es)
               == With(st, AuditFinished(Stored(t, e, finished), e.id, over.verdict, finished), fns - {e.id}, over)
  {
    hide Run, After, Stored, AuditFinished;
    var x := |st.executions|;
    SummaryIsPlayed(st, t, fns, e, finished);
    ClosingIsPlayed(st, Stored(t, e, finished), fns, Over(e, finished));
    Join(With(st, t, fns, e), [Summarize(x, finished), Store(x)], [FinishAudit(x), Disarm(x)]);
  }

  /** From every state of the service, a new invocation whose targets finish with `rs`, in that order,
      can be run to its end, and then the tables are the ones `ExecuteInvocation` makes of them. */
  lemma InvocationIsPlayed(st: State, id: Id, event: Id, names: seq<string>, async: bool, rs: seq<Result>,
                           aborted: bool, started: int, finished: int)
    returns (es: seq<Event>)
    requires id !in st.tables.invocations && event !in st.tables.audits && event != ""
    requires Possible(Targets(names), rs) && forall n | n in Targets(names) :: exists r :: r in rs && r.node == n
    ensures Run(st, es)
    ensures After(st, es).tables
            == Executed(AuditStarted(Created(st.tables, id, async, Targets(names)), id, event),
                        id, started, finished, SortByNode(rs), aborted)
    ensures id !in After(st, es).cancelFns && After(st, es).cancelers == st.cancelers
    ensures !async ==> Can(After(st, es), Answer(|st.executions|))
  {
    hide Run, After, Created, AuditStarted, MarkedRunning, InvocationTables.Finished, AuditFinished, Targets, Verdict,
         Statuses, SortByNode, CompleteEvents, EndEvents, AbortEvents, StartEvents;
    var x, targets := |st.executions|, Targets(names);
    var t1 := AuditStarted(Created(st.tables, id, async, targets), id, event);
    var t2 := MarkedRunning(t1, id, started);
    var fns := Armed(st.cancelFns, id, x, async);
    CreateIsPlayed(st, id, event, names, async);
    StartIsPlayed(st, t1, id, event, async, targets, started);
    var begun := Begun(id, event, async, targets, started, []);
    TargetsArePlayed(st, t2, fns, begun, rs);
    var done := begun.(done := rs);
    RunningIsKnown(st.tables, id, event, async, targets, started);
    AbortIsPlayed(st, t2, fns, done, aborted);
    var left := done.(context := if aborted then Aborted else Usable);
    assert forall n | n in targets :: HasResult(left, n);
    EndIsPlayed(st, t2, fns, left, finished);
    var a, b, c := StartEvents(x, started, async), CompleteEvents(x, rs), AbortEvents(x, id, async, aborted);
    var create, end := [Create(id, names, async), RecordAudit(x, event)], EndEvents(x, finished);
    Join(With(st, t2, fns, done), c, end);
    Join(With(st, t2, fns, begun), b, c + end);
    Join(After(st, create), a, b + (c + end));
    Join(st, create, a + (b + (c + end)));
    es := create + (a + (b + (c + end)));
    SortedVerdict(rs, aborted);
    MayAnswer(st, t2, fns, left, finished);
  }

  lemma MayAnswer(st: State, t: Tables, fns: map<Id, nat>, e: Execution, finished: int)
    requires e.id in t.invocations
    ensures var over := Over(e, finished);
            var t' := AuditFinished(Stored(t, e, finished), e.id, over.verdict, finished);
            !e.async ==> Can(With(st, t', fns - {e.id}, over), Answer(|st.executions|))
  {
    hide Verdict, Statuses, SortByNode;
  }

  lemma SortedVerdict(rs: seq<Result>, canceled: bool)
    ensures Verdict(Statuses(SortByNode(rs)), canceled) == Verdict(Statuses(rs), canceled)
  {
    SortedElements(rs, NodeOf);
    VerdictIgnoresOrder(rs, SortByNode(rs), canceled);
  }

  lemma RunningIsKnown(t: Tables, id: Id, event: Id, async: bool, targets: seq<string>, started: int)
    ensures var t' := MarkedRunning(AuditStarted(Created(t, id, async, targets), id, event), id, started);
            id in t'.invocations && !Terminal(t'.invocations[id].status)
  {
  }
}
