/** The invocation service as a state machine.  One event is one section under the service's lock,
    one operation on its cancel functions, or one read of a context, so everything else may happen
    between two of them. */
module InvocationTables {
  import opened Tunnel
  import opened FanOut

  datatype Invocation = Invocation(async: bool, targets: seq<string>, status: Status,
                                   startedAt: Option<int>, finishedAt: Option<int>)

  datatype Decision = Accepted | Ended(status: Status)
  datatype AuditEvent = AuditEvent(invocation: Id, decision: Decision, finishedAt: Option<int>)

  datatype Tables = Tables(invocations: map<Id, Invocation>, results: map<Id, seq<Result>>,
                           audits: map<Id, AuditEvent>, auditByInvoke: map<Id, Id>)

  function Created(t: Tables, id: Id, async: bool, targets: seq<string>): Tables {
    t.(invocations := t.invocations[id := Invocation(async, targets, Pending, None, None)],
       results := t.results[id := []])
  }

  function AuditStarted(t: Tables, id: Id, event: Id): Tables {
    t.(audits := t.audits[event := AuditEvent(id, Accepted, None)],
       auditByInvoke := t.auditByInvoke[id := event])
  }

  function MarkedRunning(t: Tables, id: Id, at: int): Tables {
    if id in t.invocations then
      t.(invocations := t.invocations[id := t.invocations[id].(status := Running, startedAt := Some(at))])
    else t
  }

  function Finished(t: Tables, id: Id, status: Status, started: int, finished: int, rs: seq<Result>): Tables {
    var t' := t.(results := t.results[id := rs]);
    if id in t.invocations then
      var inv := t.invocations[id];
      var inv' := inv.(status := status, finishedAt := Some(finished),
                       startedAt := if inv.startedAt == None then Some(started) else inv.startedAt);
      t'.(invocations := t.invocations[id := inv'])
    else t'
  }

  function AuditFinished(t: Tables, id: Id, status: Status, finished: int): Tables {
    if id in t.auditByInvoke && t.auditByInvoke[id] != "" && t.auditByInvoke[id] in t.audits then
      var event := t.auditByInvoke[id];
      t.(audits := t.audits[event := t.audits[event].(decision := Ended(status), finishedAt := Some(finished))])
    else t
  }
}

module Invocations {
  import opened Tunnel
  import opened FanOut
  import opened InvocationTables

  /** How far `CreateInvocation` and `executeInvocation` have come with one invocation. */
  datatype Phase = Inserted | Audited | Armed | Executing | Summed | Stored | Closed | Disarmed | Answered

  function Rank(p: Phase): nat {
    match p
    case Inserted => 0 case Audited => 1 case Armed => 2 case Executing => 3 case Summed => 4
    case Stored => 5 case Closed => 6 case Disarmed => 7 case Answered => 8
  }

  /** A context is usable until it is aborted or its deadline passes. */
  datatype Context = Usable | Aborted | Expired

  /** The goroutines of one invocation.  `done` holds the results of the targets that have finished,
      in the order they finished.  `sawCancel` is what the summary read from the context. */
  datatype Execution = Execution(
    id: Id, event: Id, async: bool, targets: seq<string>, phase: Phase, context: Context,
    done: seq<Result>, sawCancel: bool, verdict: Status, started: int, finished: int,
    answer: Option<(Invocation, seq<Result>)>)

  /** `cancelers` are the calls of `CancelInvocation` that have found a pending or running
      invocation and not yet looked for its cancel function.  A cancel function is the number of
      the execution whose context it cancels. */
  datatype State = State(tables: Tables, cancelFns: map<Id, nat>, executions: seq<Execution>,
                         cancelers: multiset<Id>)

  datatype Event =
    | Create(id: Id, names: seq<string>, async: bool)
    | RecordAudit(x: nat, event: Id)
    | Arm(x: nat)
    | Start(x: nat, at: int)
    | Complete(x: nat, result: Result)
    | Summarize(x: nat, at: int)
    | Store(x: nat)
    | FinishAudit(x: nat)
    | Disarm(x: nat)
    | Answer(x: nat)
    | CallerGone(x: nat, expired: bool)
    | CancelCheck(id: Id)
    | CancelFire(id: Id)

  predicate In(st: State, x: nat, phase: Phase) {
    x < |st.executions| && st.executions[x].phase == phase
  }

  predicate HasResult(e: Execution, node: string) {
    exists r :: r in e.done && r.node == node
  }

  predicate CanComplete(e: Execution, r: Result) {
    r.node in e.targets && !HasResult(e, r.node) && r.status in {Succeeded, Failed, Canceled}
  }

  predicate Can(st: State, e: Event) {
    match e
    case Create(_, _, _) => true
    case RecordAudit(x, _) => In(st, x, Inserted)
    case Arm(x) => In(st, x, Audited) && st.executions[x].async
    case Start(x, _) => if In(st, x, Audited) then !st.executions[x].async else In(st, x, Armed)
    case Complete(x, r) => In(st, x, Executing) && CanComplete(st.executions[x], r)
    case Summarize(x, _) =>
      In(st, x, Executing) && forall n | n in st.executions[x].targets :: HasResult(st.executions[x], n)
    case Store(x) => In(st, x, Summed)
    case FinishAudit(x) => In(st, x, Stored)
    case Disarm(x) => In(st, x, Closed)
    case Answer(x) =>
      In(st, x, Disarmed) && !st.executions[x].async
      && st.executions[x].id in st.tables.invocations
    case CallerGone(x, _) => x < |st.executions| && !st.executions[x].async
    case CancelCheck(id) => id in st.tables.invocations
    case CancelFire(id) => id in st.cancelers
  }

  /** Generated identifiers are new, and none is empty. */
  predicate Fresh(st: State, e: Event) {
    match e
    case Create(id, _, _) => id !in st.tables.invocations
    case RecordAudit(_, event) => event !in st.tables.audits && event != ""
    case _ => true
  }

  function NextTables(st: State, e: Event): Tables
    requires Can(st, e)
  {
    var t := st.tables;
    match e
    case Create(id, names, async) => Created(t, id, async, Targets(names))
    case RecordAudit(x, event) => AuditStarted(t, st.executions[x].id, event)
    case Start(x, at) => MarkedRunning(t, st.executions[x].id, at)
    case Store(x) =>
      var y := st.executions[x];
      InvocationTables.Finished(t, y.id, y.verdict, y.started, y.finished, SortByNode(y.done))
    case FinishAudit(x) =>
      AuditFinished(t, st.executions[x].id, st.executions[x].verdict, st.executions[x].finished)
    case _ => t
  }

  function NextCancelFns(st: State, e: Event): map<Id, nat>
    requires Can(st, e)
  {
    match e
    case Arm(x) => st.cancelFns[st.executions[x].id := x]
    case Disarm(x) => st.cancelFns - {st.executions[x].id}
    case _ => st.cancelFns
  }

  /** A context keeps the error it got first. */
  function Kept(c: Context, why: Context): Context {
    if c == Usable then why else c
  }

  function NextExecutions(st: State, e: Event): seq<Execution>
    requires Can(st, e)
  {
    var es := st.executions;
    match e
    case Create(id, names, async) =>
      es + [Execution(id, "", async, Targets(names), Inserted, Usable, [], false, Pending, 0, 0, None)]
    case RecordAudit(x, event) => es[x := es[x].(event := event, phase := Audited)]
    case Arm(x) => es[x := es[x].(phase := Armed)]
    case Start(x, at) => es[x := es[x].(phase := Executing, started := at)]
    case Complete(x, r) => es[x := es[x].(done := es[x].done + [r])]
    case Summarize(x, at) =>
      var canceled := es[x].context == Aborted;
      es[x := es[x].(phase := Summed, finished := at, sawCancel := canceled,
                     verdict := Verdict(Statuses(es[x].done), canceled))]
    case Store(x) => es[x := es[x].(phase := Stored)]
    case FinishAudit(x) => es[x := es[x].(phase := Closed)]
    case Disarm(x) => es[x := es[x].(phase := Disarmed)]
    case Answer(x) =>
      es[x := es[x].(phase := Answered,
                     answer := Some((st.tables.invocations[es[x].id], SortByNode(es[x].done))))]
    case CallerGone(x, expired) =>
      es[x := es[x].(context := Kept(es[x].context, if expired then Expired else Aborted))]
    case CancelCheck(_) => es
    case CancelFire(id) =>
      if id in st.cancelFns && st.cancelFns[id] < |es| then
        var x := st.cancelFns[id];
        es[x := es[x].(context := Kept(es[x].context, Aborted))]
      else es
  }

  function NextCancelers(st: State, e: Event): multiset<Id>
    requires Can(st, e)
  {
    match e
    case CancelCheck(id) =>
      if Terminal(st.tables.invocations[id].status) then st.cancelers else st.cancelers + multiset{id}
    case CancelFire(id) => st.cancelers - multiset{id}
    case _ => st.cancelers
  }

  function Next(st: State, e: Event): State
    requires Can(st, e)
  {
    State(NextTables(st, e), NextCancelFns(st, e), NextExecutions(st, e), NextCancelers(st, e))
  }

  ghost predicate Run(st: State, es: seq<Event>)
    decreases |es|
  {
    es == [] || (Can(st, es[0]) && Fresh(st, es[0]) && Run(Next(st, es[0]), es[1..]))
  }

  function After(st: State, es: seq<Event>): State
    requires Run(st, es)
    decreases |es|
  {
    if es == [] then st else After(Next(st, es[0]), es[1..])
  }

  const START: State := State(Tables(map[], map[], map[], map[]), map[], [], multiset{})
}
