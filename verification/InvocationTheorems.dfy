/** What holds of invocations, their results, their audit events and their cancel functions in
    every run. */
module InvocationTheorems {
  import opened Tunnel
  import opened FanOut
  import opened Sorting
  import opened Text
  import opened InvocationTables
  import opened Invocations
  import opened InvocationInvariant

  lemma Reached(es: seq<Event>)
    requires Run(START, es)
    ensures Inv(After(START, es))
  {
    InvAtStart();
    InvAlong(START, es);
  }

  lemma ExecutionOf(st: State, id: Id) returns (x: nat)
    requires Inv(st) && id in st.tables.invocations
    ensures x < |st.executions| && st.executions[x].id == id && ExecutionOk(st, x)
  {
    assert HasExecution(st, id);
    x :| 0 <= x < |st.executions| && st.executions[x].id == id;
  }

  // ----- status -----

  /** Pending, then running, then one terminal status. */
  predicate Moves(a: Status, b: Status) {
    a == b || (a == Pending && b == Running) || (a == Running && Terminal(b))
  }

  lemma VerdictIsTerminal(seen: set<Status>, canceled: bool)
    ensures Terminal(Verdict(seen, canceled))
  {
  }

  lemma StatusMoves(st: State, e: Event, id: Id)
    requires Inv(st) && Can(st, e) && Fresh(st, e) && id in st.tables.invocations
    ensures id in Next(st, e).tables.invocations && id in Next(st, e).tables.results && id in st.tables.results
    ensures var inv, inv' := st.tables.invocations[id], Next(st, e).tables.invocations[id];
            && Moves(inv.status, inv'.status)
            && (Terminal(inv.status) ==> inv' == inv && Next(st, e).tables.results[id] == st.tables.results[id])
  {
    hide Can, Fresh, Next, DoneOk, AuditOk, CancelOk, AnswerOk, Apart, KeysOk;
    var x := ExecutionOf(st, id);
    EveryStatusStep(st, e, x);
  }

  lemma EveryStatusStep(st: State, e: Event, x: nat)
    requires Inv(st) && Can(st, e) && Fresh(st, e) && x < |st.executions|
    ensures var id := st.executions[x].id;
            && id in st.tables.invocations && id in Next(st, e).tables.invocations
            && id in Next(st, e).tables.results && id in st.tables.results
            && var inv, inv' := st.tables.invocations[id], Next(st, e).tables.invocations[id];
               && Moves(inv.status, inv'.status)
               && (Terminal(inv.status) ==>
                     inv' == inv && Next(st, e).tables.results[id] == st.tables.results[id])
  {
    hide DoneOk, AuditOk, CancelOk, AnswerOk, Apart, KeysOk;
    assert ExecutionOk(st, x);
    if Actor(e) == Some(x) {
      VerdictIsTerminal(Statuses(st.executions[x].done), st.executions[x].sawCancel);
    } else {
      OtherStatus(st, e, x);
    }
  }

  lemma OtherStatus(st: State, e: Event, x: nat)
    requires Inv(st) && Can(st, e) && Fresh(st, e) && x < |st.executions| && Actor(e) != Some(x)
    ensures var id := st.executions[x].id;
            && id in st.tables.invocations && id in st.tables.results
            && At(Next(st, e).tables.invocations, id) == At(st.tables.invocations, id)
            && At(Next(st, e).tables.results, id) == At(st.tables.results, id)
  {
    hide Fresh, Next, SummaryOk, DoneOk, AuditOk, CancelOk, AnswerOk, Apart, KeysOk;
    assert ExecutionOk(st, x);
    if e.Create? {
      CreatedLeavesOthers(st, e, x);
    } else if Actor(e).Some? {
      Sizes(st, e);
      ApartBoth(st, Actor(e).value, x);
      assert ExecutionOk(st, Actor(e).value);
      OtherUnchanged(st, e, Actor(e).value, x);
    } else {
      CancelsLeaveTables(st, e);
    }
  }

  lemma CancelsLeaveTables(st: State, e: Event)
    requires Can(st, e) && (e.CancelCheck? || e.CancelFire?)
    ensures Next(st, e).tables == st.tables
  {
  }

  /** A terminal invocation and its results never change again. */
  lemma {:induction false} TerminalIsFinal(st: State, es: seq<Event>, id: Id)
    requires Inv(st) && Run(st, es)
    requires id in st.tables.invocations && Terminal(st.tables.invocations[id].status)
    ensures var t, t' := st.tables, After(st, es).tables;
            && id in t'.invocations && t'.invocations[id] == t.invocations[id]
            && id in t.results && id in t'.results && t'.results[id] == t.results[id]
    decreases |es|
  {
    if es == [] {
      var x := ExecutionOf(st, id);
    } else {
      StatusMoves(st, es[0], id);
      InvKept(st, es[0]);
      TerminalIsFinal(Next(st, es[0]), es[1..], id);
    }
  }

  // ----- agreement of the maps -----

  /** In every run the service has results for exactly the invocations it has, and what an
      invocation's audit event says agrees with the invocation: `accepted` until the audit is
      finished, which is not before the invocation is terminal, and from then on the same outcome
      and the same finish time. */
  lemma MapsAgree(es: seq<Event>, id: Id)
    requires Run(START, es)
    ensures var t := After(START, es).tables;
            && (id in t.invocations <==> id in t.results)
            && (id in t.auditByInvoke ==>
                  && id in t.invocations && t.auditByInvoke[id] in t.audits
                  && var event, inv := t.audits[t.auditByInvoke[id]], t.invocations[id];
                     && event.invocation == id
                     && ((event.decision == Accepted && event.finishedAt == None)
                         || (event.decision == Ended(inv.status) && Terminal(inv.status)
                             && event.finishedAt == inv.finishedAt && inv.finishedAt.Some?)))
  {
    Reached(es);
    var st := After(START, es);
    if id in st.tables.auditByInvoke {
      var x := ExecutionOf(st, id);
      VerdictIsTerminal(Statuses(st.executions[x].done), st.executions[x].sawCancel);
    }
  }

  /** When `finishAudit` has run for an execution, its audit event has the outcome. */
  lemma FinishedAuditHasOutcome(es: seq<Event>, x: nat)
    requires Run(START, es) && x < |After(START, es).executions|
    requires Rank(After(START, es).executions[x].phase) >= Rank(Closed)
    ensures var st := After(START, es);
            var id := st.executions[x].id;
            && id in st.tables.auditByInvoke && st.tables.auditByInvoke[id] in st.tables.audits
            && id in st.tables.invocations
            && st.tables.audits[st.tables.auditByInvoke[id]]
               == AuditEvent(id, Ended(st.tables.invocations[id].status), st.tables.invocations[id].finishedAt)
  {
    Reached(es);
    assert ExecutionOk(After(START, es), x);
  }

  lemma FunctionOwner(st: State, id: Id)
    requires Inv(st) && id in st.cancelFns
    ensures st.cancelFns[id] < |st.executions|
    ensures var e := st.executions[st.cancelFns[id]];
            && e.id == id && e.async && Rank(e.phase) < Rank(Disarmed)
            && id in st.tables.invocations && st.tables.invocations[id].async
  {
    hide DoneOk, SummaryOk, AuditOk, AnswerOk, Apart;
    var x := ExecutionOf(st, id);
  }

  /** Cancel functions are kept for asynchronous invocations only, and only while their execution
      has not returned; each cancels the context of its own invocation. */
  lemma CancelFunctionsAreLive(es: seq<Event>, id: Id)
    requires Run(START, es) && id in After(START, es).cancelFns
    ensures var st := After(START, es);
            var x := st.cancelFns[id];
            && x < |st.executions| && st.executions[x].id == id
            && st.executions[x].async && Rank(st.executions[x].phase) < Rank(Disarmed)
            && id in st.tables.invocations && st.tables.invocations[id].async
  {
    hide Run, After, Inv;
    Reached(es);
    FunctionOwner(After(START, es), id);
  }

  // ----- results -----

  ghost predicate OneResultEach(rs: seq<Result>, targets: seq<string>) {
    && Ascending(rs, NodeOf)
    && (forall r | r in rs :: r.node in targets)
    && (forall n | n in targets :: exists r :: r in rs && r.node == n)
  }

  lemma StoredAreOneEach(e: Execution)
    requires DoneOk(e) && SummaryOk(e) && Rank(e.phase) >= 4
    ensures OneResultEach(SortByNode(e.done), e.targets)
  {
    SortedAscending(e.done, NodeOf);
    forall r ensures r in SortByNode(e.done) <==> r in e.done {
      SortedMembers(e.done, NodeOf, r);
    }
    forall n | n in e.targets ensures exists r :: r in SortByNode(e.done) && r.node == n {
      assert HasResult(e, n);
      var r :| r in e.done && r.node == n;
      assert r in SortByNode(e.done);
    }
  }

  /** An invocation that is not terminal has no results yet; a terminal one has exactly one result
      per target, strictly ascending by node. */
  lemma ResultsAreOnePerTarget(es: seq<Event>, id: Id)
    requires Run(START, es) && id in After(START, es).tables.invocations
    ensures var t := After(START, es).tables;
            && id in t.results
            && (if Terminal(t.invocations[id].status)
                then OneResultEach(t.results[id], t.invocations[id].targets)
                else t.results[id] == [])
  {
    Reached(es);
    var x := ExecutionOf(After(START, es), id);
    var e := After(START, es).executions[x];
    if Rank(e.phase) >= 4 {
      StoredAreOneEach(e);
      VerdictIsTerminal(Statuses(e.done), e.sawCancel);
    }
  }

  /** A synchronous create returns a terminal invocation together with the results stored for it. */
  lemma SynchronousCreateReturnsTheOutcome(es: seq<Event>, x: nat)
    requires Run(START, es) && x < |After(START, es).executions|
    requires After(START, es).executions[x].phase == Answered
    ensures var st := After(START, es);
            var e := st.executions[x];
            && !e.async && e.answer.Some? && e.id in st.tables.invocations && e.id in st.tables.results
            && var (inv, rs) := e.answer.value;
               && Terminal(inv.status) && inv == st.tables.invocations[e.id]
               && rs == st.tables.results[e.id] && OneResultEach(rs, inv.targets)
  {
    Reached(es);
    var st := After(START, es);
    assert ExecutionOk(st, x);
    StoredAreOneEach(st.executions[x]);
    VerdictIsTerminal(Statuses(st.executions[x].done), st.executions[x].sawCancel);
  }

  lemma StoredOutcome(st: State, x: nat)
    requires Inv(st) && x < |st.executions| && Rank(st.executions[x].phase) >= Rank(Stored)
    ensures var e := st.executions[x];
            && e.id in st.tables.results && st.tables.results[e.id] == SortByNode(e.done)
            && e.id in st.tables.invocations
            && st.tables.invocations[e.id].status == Verdict(Statuses(e.done), e.sawCancel)
            && OnePerNode(e.done)
  {
    hide AuditOk, CancelOk, AnswerOk, Apart, KeysOk;
    assert ExecutionOk(st, x);
  }

  /** Two executions, of the same run or of two different ones, whose targets ended the same way
      and whose summaries saw the same context, store the same results and the same final status,
      in whatever orders their targets finished. */
  lemma CompletionOrderDoesNotMatter(es: seq<Event>, fs: seq<Event>, x: nat, y: nat)
    requires Run(START, es) && x < |After(START, es).executions|
    requires Run(START, fs) && y < |After(START, fs).executions|
    requires var a, b := After(START, es).executions[x], After(START, fs).executions[y];
             && Rank(a.phase) >= Rank(Stored) && Rank(b.phase) >= Rank(Stored)
             && multiset(a.done) == multiset(b.done) && a.sawCancel == b.sawCancel
    ensures var s, t := After(START, es), After(START, fs);
            var a, b := s.executions[x].id, t.executions[y].id;
            && a in s.tables.results && b in t.tables.results
            && s.tables.results[a] == t.tables.results[b]
            && a in s.tables.invocations && b in t.tables.invocations
            && s.tables.invocations[a].status == t.tables.invocations[b].status
  {
    hide Run, After, Inv, Rank;
    Reached(es);
    Reached(fs);
    var s, t := After(START, es), After(START, fs);
    StoredOutcome(s, x);
    StoredOutcome(t, y);
    StoredResultsIgnoreOrder(s.executions[x].done, t.executions[y].done);
    VerdictIgnoresOrder(s.executions[x].done, t.executions[y].done, s.executions[x].sawCancel);
  }

  // ----- cancellation -----

  /** Execution `x` will be, or has been, summed up as canceled. */
  predicate Doomed(st: State, x: nat) {
    && x < |st.executions|
    && (if Rank(st.executions[x].phase) < Rank(Summed) then st.executions[x].context == Aborted
        else st.executions[x].sawCancel)
  }

  lemma DoomedKept(st: State, e: Event, x: nat)
    requires Doomed(st, x) && Can(st, e)
    ensures Doomed(Next(st, e), x)
  {
  }

  lemma {:induction false} DoomedAlong(st: State, es: seq<Event>, x: nat)
    requires Doomed(st, x) && Run(st, es)
    ensures Doomed(After(st, es), x)
    decreases |es|
  {
    if es != [] {
      DoomedKept(st, es[0], x);
      DoomedAlong(Next(st, es[0]), es[1..], x);
    }
  }

  /** If a context is aborted before its summary reads it, the invocation ends canceled, whatever
      its targets did. */
  lemma CanceledBeforeSummaryEndsCanceled(st: State, es: seq<Event>, x: nat)
    requires Inv(st) && Doomed(st, x) && Run(st, es) && x < |After(st, es).executions|
    requires Rank(After(st, es).executions[x].phase) >= Rank(Stored)
    ensures var end := After(st, es);
            end.executions[x].id in end.tables.invocations
            && end.tables.invocations[end.executions[x].id].status == FanOut.Canceled
  {
    hide Run, After, Inv;
    DoomedAlong(st, es, x);
    InvAlong(st, es);
    StoredOutcome(After(st, es), x);
  }

  /** A cancel request reaches the invocation's context exactly if the invocation is asynchronous
      and its goroutine has a cancel function at that moment: not before it has been armed, not
      after its execution has returned, and never for a synchronous one.  It reaches no other. */
  lemma CancelReachesOnlyItsOwn(st: State, id: Id, x: nat)
    requires Inv(st) && Can(st, CancelFire(id)) && x < |st.executions|
    ensures x < |Next(st, CancelFire(id)).executions|
    ensures var e, e' := st.executions[x], Next(st, CancelFire(id)).executions[x];
            if e.id == id && e.async && Rank(Armed) <= Rank(e.phase) < Rank(Disarmed)
            then e' == e.(context := Kept(e.context, Aborted))
            else e' == e
  {
    hide DoneOk, SummaryOk, StatusOk, AuditOk, AnswerOk, Apart;
    assert CancelOk(st.cancelFns, st.executions[x], x) by {
      assert ExecutionOk(st, x);
    }
    if id in st.cancelFns {
      FunctionOwner(st, id);
    }
    assert Next(st, CancelFire(id)).executions == NextExecutions(st, CancelFire(id));
  }
}
