/** What the tables of the invocation service say is what happened: every stored result, time and target
    goes back to an event of the run, and a cancel request that gets through ends the invocation. */
module InvocationHistory {
  import opened Tunnel
  import opened Text
  import opened Sorting
  import opened FanOut
  import opened InvocationTables
  import opened Invocations
  import opened InvocationInvariant
  import opened InvocationTheorems

  // ----- an execution and the events behind it -----

  /** The invocation was created with names that come to the execution's targets. */
  ghost predicate CreatedAs(e: Execution, past: seq<Event>) {
    exists names :: Create(e.id, names, e.async) in past && e.targets == Targets(names)
  }

  /** The caller went away, or a cancel request fired. */
  predicate AbortedBy(e: Execution, x: nat, past: seq<Event>) {
    CallerGone(x, false) in past || CancelFire(e.id) in past
  }

  ghost predicate HistoryOk(e: Execution, x: nat, past: seq<Event>) {
    && CreatedAs(e, past)
    && (forall r :: r in e.done <==> Complete(x, r) in past)
    && (Rank(e.phase) >= Rank(Executing) ==> Start(x, e.started) in past)
    && (Rank(e.phase) >= Rank(Summed) ==> Summarize(x, e.finished) in past)
    && (e.context == Aborted ==> AbortedBy(e, x, past))
  }

  ghost predicate History(st: State, past: seq<Event>) {
    && (forall x | 0 <= x < |st.executions| :: HistoryOk(st.executions[x], x, past))
    && (forall e | e in past && Actor(e).Some? :: Actor(e).value < |st.executions|)
  }

  lemma IdentityGrows(st: State, e: Event, x: nat)
    requires Can(st, e) && x < |st.executions|
    ensures x < |Next(st, e).executions|
    ensures var before, after := st.executions[x], Next(st, e).executions[x];
            before.id == after.id && before.async == after.async && before.targets == after.targets
  {
    hide NextTables, NextCancelFns, NextCancelers, Targets, SortByNode, Statuses, Verdict, CanComplete, HasResult;
  }

  lemma CreatedStays(before: Execution, after: Execution, past: seq<Event>, e: Event)
    requires CreatedAs(before, past)
    requires before.id == after.id && before.async == after.async && before.targets == after.targets
    ensures CreatedAs(after, past + [e])
  {
    var names :| Create(before.id, names, before.async) in past && before.targets == Targets(names);
    assert Create(after.id, names, after.async) in past + [e];
  }

  lemma ResultsGrow(st: State, past: seq<Event>, e: Event, x: nat)
    requires Can(st, e) && x < |st.executions| && forall r :: r in st.executions[x].done <==> Complete(x, r) in past
    ensures x < |Next(st, e).executions|
    ensures forall r :: r in Next(st, e).executions[x].done <==> Complete(x, r) in past + [e]
  {
    hide NextTables, NextCancelFns, NextCancelers, Targets, SortByNode, Statuses, Verdict, CanComplete, HasResult;
  }

  lemma StartGrows(st: State, past: seq<Event>, e: Event, x: nat)
    requires Can(st, e) && x < |st.executions|
    requires Rank(st.executions[x].phase) >= Rank(Executing) ==> Start(x, st.executions[x].started) in past
    ensures x < |Next(st, e).executions|
    ensures var a := Next(st, e).executions[x];
            Rank(a.phase) >= Rank(Executing) ==> Start(x, a.started) in past + [e]
  {
    hide NextTables, NextCancelFns, NextCancelers, Targets, SortByNode, Statuses, Verdict, CanComplete, HasResult;
  }

  lemma SummaryGrows(st: State, past: seq<Event>, e: Event, x: nat)
    requires Can(st, e) && x < |st.executions|
    requires Rank(st.executions[x].phase) >= Rank(Summed) ==> Summarize(x, st.executions[x].finished) in past
    ensures x < |Next(st, e).executions|
    ensures var a := Next(st, e).executions[x];
            Rank(a.phase) >= Rank(Summed) ==> Summarize(x, a.finished) in past + [e]
  {
    hide NextTables, NextCancelFns, NextCancelers, Targets, SortByNode, Statuses, Verdict, CanComplete, HasResult;
  }

  lemma ContextGrows(st: State, past: seq<Event>, e: Event, x: nat)
    requires Can(st, e) && x < |st.executions|
    requires st.executions[x].context == Aborted ==> AbortedBy(st.executions[x], x, past)
    requires forall id | id in st.cancelFns && st.cancelFns[id] < |st.executions| :: st.executions[st.cancelFns[id]].id == id
    ensures x < |Next(st, e).executions|
    ensures Next(st, e).executions[x].context == Aborted ==> AbortedBy(Next(st, e).executions[x], x, past + [e])
  {
  }

  lemma HistoryStarts(st: State, past: seq<Event>, e: Event)
    requires History(st, past) && Can(st, e) && e.Create?
    ensures |Next(st, e).executions| == |st.executions| + 1
    ensures HistoryOk(Next(st, e).executions[|st.executions|], |st.executions|, past + [e])
  {
    hide HistoryOk;
    var x, after := |st.executions|, Next(st, e).executions[|st.executions|];
    assert Create(after.id, e.names, after.async) in past + [e];
    assert CreatedAs(after, past + [e]);
    forall r ensures Complete(x, r) !in past + [e] {
      assert Actor(Complete(x, r)) == Some(x);
      if Complete(x, r) in past {
        assert false;
      }
    }
    assert HistoryOk(after, x, past + [e]) by {
      ShowHistory(after, x, past + [e]);
    }
  }

  lemma ShowHistory(e: Execution, x: nat, past: seq<Event>)
    requires CreatedAs(e, past) && e.done == [] && e.phase == Inserted && e.context == Usable
    requires forall r :: Complete(x, r) !in past
    ensures HistoryOk(e, x, past)
  {
  }

  lemma HistoryGrows(st: State, past: seq<Event>, e: Event, x: nat)
    requires Can(st, e) && x < |st.executions| && HistoryOk(st.executions[x], x, past)
    requires forall id | id in st.cancelFns && st.cancelFns[id] < |st.executions| :: st.executions[st.cancelFns[id]].id == id
    ensures x < |Next(st, e).executions| && HistoryOk(Next(st, e).executions[x], x, past + [e])
  {
    hide Can, Next, CreatedAs, AbortedBy, Rank;
    IdentityGrows(st, e, x);
    CreatedStays(st.executions[x], Next(st, e).executions[x], past, e);
    ResultsGrow(st, past, e, x);
    StartGrows(st, past, e, x);
    SummaryGrows(st, past, e, x);
    ContextGrows(st, past, e, x);
  }

  lemma HistoryKept(st: State, past: seq<Event>, e: Event)
    requires Inv(st) && History(st, past) && Can(st, e)
    ensures History(Next(st, e), past + [e])
  {
    hide HistoryOk, Next, Can;
    Sizes(st, e);
    forall id | id in st.cancelFns && st.cancelFns[id] < |st.executions|
      ensures st.executions[st.cancelFns[id]].id == id
    {
      FunctionOwner(st, id);
    }
    forall x | 0 <= x < |Next(st, e).executions| ensures HistoryOk(Next(st, e).executions[x], x, past + [e]) {
      if x < |st.executions| {
        HistoryGrows(st, past, e, x);
      } else {
        HistoryStarts(st, past, e);
      }
    }
  }

  lemma {:induction false} HistoryAlong(st: State, past: seq<Event>, es: seq<Event>)
    requires Inv(st) && History(st, past) && Run(st, es)
    ensures Inv(After(st, es)) && History(After(st, es), past + es)
    decreases |es|
  {
    hide Inv, History, Can, Next, Fresh;
    if es == [] {
      assert past + es == past;
    } else {
      HistoryKept(st, past, es[0]);
      InvKept(st, es[0]);
      HistoryAlong(Next(st, es[0]), past + [es[0]], es[1..]);
      assert past + [es[0]] + es[1..] == past + es;
    }
  }

  /** In every run, what is stored of an execution that has been summed up is what happened to it: its
      invocation was created with names that come to its targets; a result is stored exactly if a
      target completed with it; it started and finished when its `Start` and its `Summarize` looked
      at the clock; and the status says how the results are, and whether the context was canceled,
      which it is only by a caller who went away or by a cancel request. */
  lemma StoredIsWhatHappened(es: seq<Event>, x: nat)
    requires Run(START, es) && x < |After(START, es).executions|
    requires Rank(After(START, es).executions[x].phase) >= Rank(Stored)
    ensures var e, t := After(START, es).executions[x], After(START, es).tables;
            && e.id in t.invocations && e.id in t.results
            && var inv, rs := t.invocations[e.id], t.results[e.id];
               && (exists names :: Create(e.id, names, inv.async) in es && inv.targets == Targets(names))
               && (forall r :: r in rs <==> Complete(x, r) in es)
               && inv.startedAt.Some? && Start(x, inv.startedAt.value) in es
               && inv.finishedAt.Some? && Summarize(x, inv.finishedAt.value) in es
               && SaysHow(inv.status, rs, e.sawCancel)
               && (e.sawCancel ==> CallerGone(x, false) in es || CancelFire(e.id) in es)
  {
    hide Run, After, Inv, SaysHow;
    InvAtStart();
    HistoryAlong(START, [], es);
    assert [] + es == es;
    StoredFromHistory(After(START, es), es, x);
  }

  lemma StoredFromHistory(st: State, es: seq<Event>, x: nat)
    requires Inv(st) && History(st, es)
    requires x < |st.executions| && Rank(st.executions[x].phase) >= Rank(Stored)
    ensures var e, t := st.executions[x], st.tables;
            && e.id in t.invocations && e.id in t.results
            && var inv, rs := t.invocations[e.id], t.results[e.id];
               && (exists names :: Create(e.id, names, inv.async) in es && inv.targets == Targets(names))
               && (forall r :: r in rs <==> Complete(x, r) in es)
               && inv.startedAt.Some? && Start(x, inv.startedAt.value) in es
               && inv.finishedAt.Some? && Summarize(x, inv.finishedAt.value) in es
               && SaysHow(inv.status, rs, e.sawCancel)
               && (e.sawCancel ==> CallerGone(x, false) in es || CancelFire(e.id) in es)
  {
    hide Inv, SaysHow, Verdict, Statuses, Targets;
    var e := st.executions[x];
    assert HistoryOk(e, x, es);
    StoredOf(st, x);
    forall r ensures r in SortByNode(e.done) <==> r in e.done {
      SortedMembers(e.done, NodeOf, r);
    }
    VerdictSaysHow(e.done, e.sawCancel, Verdict(Statuses(e.done), e.sawCancel));
    SameMembersSayTheSame(Verdict(Statuses(e.done), e.sawCancel), e.done, SortByNode(e.done), e.sawCancel);
  }

  lemma StoredOf(st: State, x: nat)
    requires Inv(st) && x < |st.executions| && Rank(st.executions[x].phase) >= Rank(Stored)
    ensures var e, t := st.executions[x], st.tables;
            && e.id in t.invocations && e.id in t.results && t.results[e.id] == SortByNode(e.done)
            && var inv := t.invocations[e.id];
               && inv.async == e.async && inv.targets == e.targets
               && inv.startedAt == Some(e.started) && inv.finishedAt == Some(e.finished)
               && inv.status == Verdict(Statuses(e.done), e.sawCancel)
               && (e.sawCancel ==> e.context == Aborted)
  {
    hide AuditOk, CancelOk, AnswerOk, Apart, KeysOk, DoneOk;
    assert ExecutionOk(st, x);
  }

  lemma SameMembersSayTheSame(status: Status, a: seq<Result>, b: seq<Result>, canceled: bool)
    requires SaysHow(status, a, canceled) && forall r :: r in a <==> r in b
    ensures SaysHow(status, b, canceled)
  {
    assert a == [] <==> b == [] by {
      if a != [] {
        assert a[0] in b;
      }
      if b != [] {
        assert b[0] in a;
      }
    }
  }

  // ----- a cancel request from start to end -----

  /** A cancel request that has found its invocation pending or running goes on until it fires. */
  lemma {:induction false} CancelRequestGoesOn(st: State, es: seq<Event>, id: Id)
    requires Run(st, es) && id in st.cancelers && CancelFire(id) !in es
    ensures id in After(st, es).cancelers
    decreases |es|
  {
    hide Can, Next, Fresh;
    if es != [] {
      CancelRequestStays(st, es[0], id);
      CancelRequestGoesOn(Next(st, es[0]), es[1..], id);
    }
  }

  lemma CancelRequestStays(st: State, e: Event, id: Id)
    requires Can(st, e) && id in st.cancelers && e != CancelFire(id)
    ensures id in Next(st, e).cancelers
  {
    assert Next(st, e).cancelers == NextCancelers(st, e);
  }

  /** A cancel request for an invocation that is over changes nothing.  One for an invocation that is
      pending or running can fire from then on; if at that moment the invocation is asynchronous,
      armed and not summed up yet, and its context has not run out, the invocation ends canceled
      in every continuation. */
  lemma CancelRequestCancels(st: State, id: Id, x: nat, wait: seq<Event>, es: seq<Event>)
    requires Inv(st) && Can(st, CancelCheck(id))
    requires Run(Next(st, CancelCheck(id)), wait) && CancelFire(id) !in wait
    ensures Terminal(st.tables.invocations[id].status) ==> Next(st, CancelCheck(id)) == st
    ensures !Terminal(st.tables.invocations[id].status) ==>
              && var waited := After(Next(st, CancelCheck(id)), wait);
              && Can(waited, CancelFire(id))
              && (&& x < |waited.executions| && waited.executions[x].id == id && waited.executions[x].async
                  && Rank(Armed) <= Rank(waited.executions[x].phase) < Rank(Summed)
                  && waited.executions[x].context == Usable
                  && Run(Next(waited, CancelFire(id)), es)
                  && x < |After(Next(waited, CancelFire(id)), es).executions|
                  && Rank(After(Next(waited, CancelFire(id)), es).executions[x].phase) >= Rank(Stored)
                  ==> && var end := After(Next(waited, CancelFire(id)), es);
                         id in end.tables.invocations && end.tables.invocations[id].status == FanOut.Canceled)
  {
    hide Inv, After, Run;
    if Terminal(st.tables.invocations[id].status) {
      return;
    }
    var checked := Next(st, CancelCheck(id));
    CancelRequestGoesOn(checked, wait, id);
    assert Fresh(st, CancelCheck(id));
    InvKept(st, CancelCheck(id));
    InvAlong(checked, wait);
    var waited := After(checked, wait);
    if && x < |waited.executions| && waited.executions[x].id == id && waited.executions[x].async
       && Rank(Armed) <= Rank(waited.executions[x].phase) < Rank(Summed)
       && waited.executions[x].context == Usable
       && Run(Next(waited, CancelFire(id)), es)
       && x < |After(Next(waited, CancelFire(id)), es).executions|
       && Rank(After(Next(waited, CancelFire(id)), es).executions[x].phase) >= Rank(Stored)
    {
      FiredEndsCanceled(waited, id, x, es);
    }
  }

  lemma FiredEndsCanceled(st: State, id: Id, x: nat, es: seq<Event>)
    requires Inv(st) && Can(st, CancelFire(id)) && x < |st.executions|
    requires var e := st.executions[x];
             && e.id == id && e.async && Rank(Armed) <= Rank(e.phase) < Rank(Summed) && e.context == Usable
    requires Run(Next(st, CancelFire(id)), es)
    requires x < |After(Next(st, CancelFire(id)), es).executions|
    requires Rank(After(Next(st, CancelFire(id)), es).executions[x].phase) >= Rank(Stored)
    ensures var end := After(Next(st, CancelFire(id)), es);
            id in end.tables.invocations && end.tables.invocations[id].status == FanOut.Canceled
  {
    hide Inv, After, Run, Next, Can;
    CancelReachesOnlyItsOwn(st, id, x);
    assert Fresh(st, CancelFire(id));
    InvKept(st, CancelFire(id));
    CanceledBeforeSummaryEndsCanceled(Next(st, CancelFire(id)), es, x);
    SameIdAlong(Next(st, CancelFire(id)), es, x);
  }

  lemma {:induction false} SameIdAlong(st: State, es: seq<Event>, x: nat)
    requires Run(st, es) && x < |st.executions|
    ensures x < |After(st, es).executions| && After(st, es).executions[x].id == st.executions[x].id
    decreases |es|
  {
    if es != [] {
      hide Can, Next, Fresh;
      IdentityKept(st, es[0], x);
      SameIdAlong(Next(st, es[0]), es[1..], x);
    }
  }

  /** How many events of the run are `e`. */
  function Times(es: seq<Event>, e: Event): nat {
    if es == [] then 0 else (if es[0] == e then 1 else 0) + Times(es[1..], e)
  }

  /** A cancel request fires at most once: of the requests for an invocation, there are at any time as many
      about to fire as were found to have something to cancel and have not fired yet. */
  lemma {:induction false} CancelFiresOnce(st: State, es: seq<Event>, id: Id)
    requires Run(st, es)
    ensures After(st, es).cancelers[id] + Times(es, CancelFire(id)) <= st.cancelers[id] + Times(es, CancelCheck(id))
    decreases |es|
  {
    if es != [] {
      hide Can, Next, Fresh;
      CancelersCount(st, es[0], id);
      CancelFiresOnce(Next(st, es[0]), es[1..], id);
    }
  }

  lemma CancelersCount(st: State, e: Event, id: Id)
    requires Can(st, e)
    ensures Next(st, e).cancelers[id] + (if e == CancelFire(id) then 1 else 0)
            <= st.cancelers[id] + (if e == CancelCheck(id) then 1 else 0)
  {
    assert Next(st, e).cancelers == NextCancelers(st, e);
  }

  // ----- a caller who goes away -----

  /** The deadline of execution `x` has passed before its summary, and its summary saw no cancel. */
  predicate TimedOut(st: State, x: nat) {
    && x < |st.executions|
    && (if Rank(st.executions[x].phase) < Rank(Summed) then st.executions[x].context == Expired
        else !st.executions[x].sawCancel)
  }

  lemma TimedOutKept(st: State, e: Event, x: nat)
    requires TimedOut(st, x) && Can(st, e)
    ensures TimedOut(Next(st, e), x)
  {
    hide NextTables, NextCancelFns, NextCancelers, Targets, SortByNode, Statuses, Verdict, CanComplete, HasResult;
  }

  lemma {:induction false} TimedOutAlong(st: State, es: seq<Event>, x: nat)
    requires TimedOut(st, x) && Run(st, es)
    ensures TimedOut(After(st, es), x)
    decreases |es|
  {
    if es != [] {
      hide TimedOut, Can, Next, Fresh;
      TimedOutKept(st, es[0], x);
      TimedOutAlong(Next(st, es[0]), es[1..], x);
    }
  }

  /** If the caller of a synchronous invocation cancels before the summary, the invocation ends canceled
      in every continuation.  If instead the caller's deadline passes first, the status only says how the
      results are, even if somebody cancels later. */
  lemma CallerWhoLeaves(st: State, x: nat, expired: bool, es: seq<Event>)
    requires Inv(st) && Can(st, CallerGone(x, expired))
    requires st.executions[x].context == Usable && Rank(st.executions[x].phase) < Rank(Summed)
    requires Run(Next(st, CallerGone(x, expired)), es)
    requires x < |After(Next(st, CallerGone(x, expired)), es).executions|
    requires Rank(After(Next(st, CallerGone(x, expired)), es).executions[x].phase) >= Rank(Stored)
    ensures var end := After(Next(st, CallerGone(x, expired)), es);
            var id := end.executions[x].id;
            && id in end.tables.invocations && id in end.tables.results
            && if expired then SaysHow(end.tables.invocations[id].status, end.tables.results[id], false)
               else end.tables.invocations[id].status == FanOut.Canceled
  {
    hide Inv, After, Run, SaysHow, Rank;
    var e := CallerGone(x, expired);
    CallerGoneMarks(st, x, expired);
    InvKept(st, e);
    InvAlong(Next(st, e), es);
    var end := After(Next(st, e), es);
    StoredOf(end, x);
    if expired {
      TimedOutAlong(Next(st, e), es, x);
      SummarySawNoCancel(end, x);
    } else {
      CanceledBeforeSummaryEndsCanceled(Next(st, e), es, x);
    }
  }

  lemma CallerGoneMarks(st: State, x: nat, expired: bool)
    requires Can(st, CallerGone(x, expired))
    requires st.executions[x].context == Usable && Rank(st.executions[x].phase) < Rank(Summed)
    ensures Fresh(st, CallerGone(x, expired))
    ensures if expired then TimedOut(Next(st, CallerGone(x, expired)), x) else Doomed(Next(st, CallerGone(x, expired)), x)
  {
    hide NextTables, NextCancelFns, NextCancelers;
  }

  lemma SummarySawNoCancel(st: State, x: nat)
    requires Inv(st) && TimedOut(st, x) && Rank(st.executions[x].phase) >= Rank(Stored)
    ensures var id := st.executions[x].id;
            && id in st.tables.invocations && id in st.tables.results
            && SaysHow(st.tables.invocations[id].status, st.tables.results[id], false)
  {
    hide Inv, SaysHow;
    var e := st.executions[x];
    StoredOf(st, x);
    forall r ensures r in SortByNode(e.done) <==> r in e.done {
      SortedMembers(e.done, NodeOf, r);
    }
    VerdictSaysHow(e.done, false, Verdict(Statuses(e.done), false));
    SameMembersSayTheSame(Verdict(Statuses(e.done), false), e.done, SortByNode(e.done), false);
  }
}
