/** What every step of the invocation service keeps. */
module InvocationInvariant {
  import opened Tunnel
  import opened FanOut
  import opened InvocationTables
  import opened Invocations

  predicate DoneOk(e: Execution) {
    && Distinct(e.targets)
    && OnePerNode(e.done)
    && (forall r | r in e.done :: r.node in e.targets && r.status in {Succeeded, Failed, Canceled})
  }

  predicate SummaryOk(e: Execution) {
    Rank(e.phase) >= 4 ==>
      && e.verdict == Verdict(Statuses(e.done), e.sawCancel)
      && (forall n | n in e.targets :: HasResult(e, n))
      && (e.sawCancel ==> e.context == Aborted)
  }

  predicate StatusOk(e: Execution, inv: Invocation) {
    && inv.async == e.async && inv.targets == e.targets
    && (Rank(e.phase) < 3 ==> inv.status == Pending && inv.finishedAt == None)
    && (3 <= Rank(e.phase) < 5 ==> inv.status == Running && inv.finishedAt == None)
    && (Rank(e.phase) >= 3 ==> inv.startedAt == Some(e.started))
    && (Rank(e.phase) >= 5 ==> inv.status == e.verdict && inv.finishedAt == Some(e.finished))
  }

  predicate TablesOk(t: Tables, e: Execution) {
    && e.id in t.invocations && e.id in t.results
    && StatusOk(e, t.invocations[e.id])
    && t.results[e.id] == if Rank(e.phase) >= 5 then SortByNode(e.done) else []
  }

  function AuditOf(e: Execution): AuditEvent {
    if Rank(e.phase) >= 6 then AuditEvent(e.id, Ended(e.verdict), Some(e.finished))
    else AuditEvent(e.id, Accepted, None)
  }

  predicate AuditOk(t: Tables, e: Execution) {
    if e.phase == Inserted then e.id !in t.auditByInvoke
    else
      && e.event != "" && e.id in t.auditByInvoke && t.auditByInvoke[e.id] == e.event
      && e.event in t.audits && t.audits[e.event] == AuditOf(e)
  }

  predicate CancelOk(fns: map<Id, nat>, e: Execution, x: nat) {
    && (e.id in fns <==> e.async && 2 <= Rank(e.phase) < 7)
    && (e.id in fns ==> fns[e.id] == x)
    && (e.phase == Armed ==> e.async)
  }

  predicate AnswerOk(t: Tables, e: Execution) {
    e.phase == Answered ==>
      !e.async && e.id in t.invocations && e.id in t.results
      && e.answer == Some((t.invocations[e.id], t.results[e.id]))
  }

  predicate ExecutionOk(st: State, x: nat)
    requires x < |st.executions|
  {
    var e := st.executions[x];
    DoneOk(e) && SummaryOk(e) && TablesOk(st.tables, e) && AuditOk(st.tables, e)
    && CancelOk(st.cancelFns, e, x) && AnswerOk(st.tables, e)
  }

  predicate Apart(a: Execution, b: Execution) {
    a.id != b.id && (a.phase != Inserted && b.phase != Inserted ==> a.event != b.event)
  }

  predicate HasExecution(st: State, id: Id) {
    exists x :: 0 <= x < |st.executions| && st.executions[x].id == id
  }

  predicate KeysOk(st: State) {
    && st.tables.results.Keys == st.tables.invocations.Keys
    && (forall id | id in st.tables.invocations :: HasExecution(st, id))
    && (forall id | id in st.tables.auditByInvoke :: id in st.tables.invocations)
    && (forall id | id in st.cancelFns :: id in st.tables.invocations)
  }

  ghost predicate Inv(st: State) {
    && (forall x | 0 <= x < |st.executions| :: ExecutionOk(st, x))
    && (forall x, y | 0 <= x < y < |st.executions| :: Apart(st.executions[x], st.executions[y]))
    && KeysOk(st)
  }

  // ----- the execution that takes the step -----

  /** The number of the execution a step belongs to, if any. */
  function Actor(e: Event): Option<nat> {
    match e
    case RecordAudit(x, _) => Some(x)
    case Arm(x) => Some(x)
    case Start(x, _) => Some(x)
    case Complete(x, _) => Some(x)
    case Summarize(x, _) => Some(x)
    case Store(x) => Some(x)
    case FinishAudit(x) => Some(x)
    case Disarm(x) => Some(x)
    case Answer(x) => Some(x)
    case CallerGone(x, _) => Some(x)
    case _ => None
  }

  lemma AuditStepOk(st: State, e: Event, x: nat)
    requires x < |st.executions| && ExecutionOk(st, x) && Can(st, e) && Fresh(st, e)
    requires Actor(e) == Some(x) && (e.RecordAudit? || e.FinishAudit?)
    ensures ExecutionOk(Next(st, e), x)
  {
  }

  lemma StatusStepOk(st: State, e: Event, x: nat)
    requires x < |st.executions| && ExecutionOk(st, x) && Can(st, e) && Fresh(st, e)
    requires Actor(e) == Some(x) && (e.Start? || e.Store?)
    ensures ExecutionOk(Next(st, e), x)
  {
  }

  lemma CancelStepOk(st: State, e: Event, x: nat)
    requires x < |st.executions| && ExecutionOk(st, x) && Can(st, e) && Fresh(st, e)
    requires Actor(e) == Some(x) && (e.Arm? || e.Disarm?)
    ensures ExecutionOk(Next(st, e), x)
  {
  }

  lemma InnerStepOk(st: State, e: Event, x: nat)
    requires x < |st.executions| && ExecutionOk(st, x) && Can(st, e) && Fresh(st, e)
    requires Actor(e) == Some(x) && (e.Complete? || e.Summarize? || e.Answer? || e.CallerGone?)
    ensures ExecutionOk(Next(st, e), x)
  {
    if e.Complete? {
      CompleteOk(st.executions[x], e.result);
    }
  }

  lemma CompleteOk(e: Execution, r: Result)
    requires DoneOk(e) && CanComplete(e, r)
    ensures DoneOk(e.(done := e.done + [r]))
  {
    forall q | q in e.done ensures q.node != r.node {
    }
  }

  // ----- the executions that do not -----

  function At<K, V>(m: map<K, V>, k: K): Option<V> {
    if k in m then Some(m[k]) else None
  }

  /** All that `ExecutionOk` looks at. */
  predicate Unchanged(st: State, st': State, y: nat)
    requires y < |st.executions|
  {
    var e := st.executions[y];
    && y < |st'.executions| && st'.executions[y] == e
    && At(st.tables.invocations, e.id) == At(st'.tables.invocations, e.id)
    && At(st.tables.results, e.id) == At(st'.tables.results, e.id)
    && At(st.tables.auditByInvoke, e.id) == At(st'.tables.auditByInvoke, e.id)
    && (e.phase != Inserted ==> At(st.tables.audits, e.event) == At(st'.tables.audits, e.event))
    && At(st.cancelFns, e.id) == At(st'.cancelFns, e.id)
  }

  lemma UnchangedIsOk(st: State, st': State, y: nat)
    requires y < |st.executions| && ExecutionOk(st, y) && Unchanged(st, st', y)
    ensures ExecutionOk(st', y)
  {
  }

  lemma OtherUnchanged(st: State, e: Event, x: nat, y: nat)
    requires x < |st.executions| && y < |st.executions| && Apart(st.executions[x], st.executions[y])
    requires Can(st, e) && Fresh(st, e) && Actor(e) == Some(x)
    requires ExecutionOk(st, x) && ExecutionOk(st, y)
    ensures Unchanged(st, Next(st, e), y)
  {
    hide DoneOk, SummaryOk, StatusOk, CancelOk, AnswerOk;
  }

  lemma CreatedLeavesOthers(st: State, e: Event, y: nat)
    requires Inv(st) && Can(st, e) && Fresh(st, e) && e.Create? && y < |st.executions|
    ensures Unchanged(st, Next(st, e), y)
  {
    assert ExecutionOk(st, y);
  }

  lemma CreatedIsOk(st: State, e: Event)
    requires Inv(st) && Can(st, e) && Fresh(st, e) && e.Create?
    ensures ExecutionOk(Next(st, e), |st.executions|)
  {
    TargetsAreTheNames(e.names, "");
  }

  lemma FiredIsOk(st: State, e: Event, y: nat)
    requires Can(st, e) && (e.CancelFire? || e.CancelCheck?) && y < |st.executions| && ExecutionOk(st, y)
    ensures ExecutionOk(Next(st, e), y)
  {
  }

  // ----- the whole invariant -----

  lemma EveryExecutionOk(st: State, e: Event, y: nat)
    requires Inv(st) && Can(st, e) && Fresh(st, e) && y < |Next(st, e).executions|
    ensures ExecutionOk(Next(st, e), y)
  {
    hide Can, Fresh, Next, ExecutionOk, Unchanged, Apart;
    match e
    case Create(_, _, _) =>
      Sizes(st, e);
      if y == |st.executions| {
        CreatedIsOk(st, e);
      } else {
        CreatedLeavesOthers(st, e, y);
        UnchangedIsOk(st, Next(st, e), y);
      }
    case CancelCheck(_) => Sizes(st, e); FiredIsOk(st, e, y);
    case CancelFire(_) => Sizes(st, e); FiredIsOk(st, e, y);
    case _ =>
      Sizes(st, e);
      var x := Actor(e).value;
      if x == y {
        ActorOk(st, e);
      } else {
        ApartBoth(st, x, y);
        OtherUnchanged(st, e, x, y);
        UnchangedIsOk(st, Next(st, e), y);
      }
  }

  lemma ActorOk(st: State, e: Event)
    requires Inv(st) && Can(st, e) && Fresh(st, e) && Actor(e).Some? && Actor(e).value < |st.executions|
    ensures Actor(e).value < |Next(st, e).executions| && ExecutionOk(Next(st, e), Actor(e).value)
  {
    hide Can, Fresh, Next, ExecutionOk;
    Sizes(st, e);
    var x := Actor(e).value;
    match e
    case RecordAudit(_, _) => AuditStepOk(st, e, x);
    case FinishAudit(_) => AuditStepOk(st, e, x);
    case Start(_, _) => StatusStepOk(st, e, x);
    case Store(_) => StatusStepOk(st, e, x);
    case Arm(_) => CancelStepOk(st, e, x);
    case Disarm(_) => CancelStepOk(st, e, x);
    case _ => InnerStepOk(st, e, x);
  }

  lemma Sizes(st: State, e: Event)
    requires Can(st, e)
    ensures |Next(st, e).executions| == if e.Create? then |st.executions| + 1 else |st.executions|
    ensures Actor(e).Some? ==> Actor(e).value < |st.executions|
  {
  }

  lemma ApartBoth(st: State, x: nat, y: nat)
    requires Inv(st) && x < |st.executions| && y < |st.executions| && x != y
    ensures Apart(st.executions[x], st.executions[y])
  {
    assert if x < y then Apart(st.executions[x], st.executions[y]) else Apart(st.executions[y], st.executions[x]);
  }

  lemma IdentityKept(st: State, e: Event, x: nat)
    requires Can(st, e) && x < |st.executions|
    ensures x < |Next(st, e).executions|
    ensures var before, after := st.executions[x], Next(st, e).executions[x];
            && after.id == before.id
            && (if e.RecordAudit? && e.x == x then after.event == e.event
                else after.event == before.event && (after.phase == Inserted <==> before.phase == Inserted))
  {
  }

  lemma ApartKept(st: State, e: Event, x: nat, y: nat)
    requires Inv(st) && Can(st, e) && Fresh(st, e) && x < y < |Next(st, e).executions|
    ensures Apart(Next(st, e).executions[x], Next(st, e).executions[y])
  {
    hide Can, Next, SummaryOk, StatusOk, CancelOk, AnswerOk;
    Sizes(st, e);
    IdentityKept(st, e, x);
    assert ExecutionOk(st, x);
    if y < |st.executions| {
      IdentityKept(st, e, y);
      assert ExecutionOk(st, y);
      ApartBoth(st, x, y);
    } else {
      CreatedLast(st, e);
    }
  }

  lemma CreatedLast(st: State, e: Event)
    requires Can(st, e) && e.Create?
    ensures |Next(st, e).executions| == |st.executions| + 1
    ensures Next(st, e).executions[|st.executions|].id == e.id
    ensures Next(st, e).executions[|st.executions|].phase == Inserted
  {
  }

  lemma TableKeys(st: State, e: Event)
    requires Can(st, e)
    requires Actor(e).Some? ==> Actor(e).value < |st.executions|
    requires Actor(e).Some? ==> st.executions[Actor(e).value].id in st.tables.invocations.Keys * st.tables.results.Keys
    ensures var t, t' := st.tables, Next(st, e).tables;
            && t'.invocations.Keys == t.invocations.Keys + (if e.Create? then {e.id} else {})
            && t'.results.Keys == t.results.Keys + (if e.Create? then {e.id} else {})
            && t'.auditByInvoke.Keys
               == t.auditByInvoke.Keys + (if e.RecordAudit? then {st.executions[e.x].id} else {})
    ensures Next(st, e).cancelFns.Keys <= st.cancelFns.Keys + (if e.Arm? then {st.executions[e.x].id} else {})
  {
    hide Targets, SortByNode, Statuses, Verdict, NextExecutions, NextCancelers, HasResult, CanComplete;
    assert Next(st, e).tables == NextTables(st, e);
  }

  lemma KeysKept(st: State, e: Event)
    requires Inv(st) && Can(st, e)
    ensures KeysOk(Next(st, e))
  {
    hide Can, Next, ExecutionOk, Apart;
    Sizes(st, e);
    if Actor(e).Some? {
      assert ExecutionOk(st, Actor(e).value);
      ActorIsKnown(st, Actor(e).value);
    }
    TableKeys(st, e);
    forall id | id in Next(st, e).tables.invocations ensures HasExecution(Next(st, e), id) {
      if id in st.tables.invocations {
        var x :| 0 <= x < |st.executions| && st.executions[x].id == id;
        IdentityKept(st, e, x);
        assert Next(st, e).executions[x].id == id;
      } else {
        CreatedLast(st, e);
        assert Next(st, e).executions[|st.executions|].id == id;
      }
    }
  }

  lemma ActorIsKnown(st: State, x: nat)
    requires x < |st.executions| && ExecutionOk(st, x)
    ensures st.executions[x].id in st.tables.invocations.Keys * st.tables.results.Keys
  {
  }

  lemma InvKept(st: State, e: Event)
    requires Inv(st) && Can(st, e) && Fresh(st, e)
    ensures Inv(Next(st, e))
  {
    hide Can, Fresh, Next, ExecutionOk, Apart, KeysOk;
    var st' := Next(st, e);
    forall x | 0 <= x < |st'.executions| ensures ExecutionOk(st', x) {
      EveryExecutionOk(st, e, x);
    }
    forall x, y | 0 <= x < y < |st'.executions| ensures Apart(st'.executions[x], st'.executions[y]) {
      ApartKept(st, e, x, y);
    }
    KeysKept(st, e);
  }

  lemma {:induction false} InvAlong(st: State, es: seq<Event>)
    requires Inv(st) && Run(st, es)
    ensures Inv(After(st, es))
    decreases |es|
  {
    if es != [] {
      InvKept(st, es[0]);
      InvAlong(Next(st, es[0]), es[1..]);
    }
  }

  lemma InvAtStart()
    ensures Inv(START)
  {
  }
}
