/** What every run of the tool-call protocol guarantees. */
module ProtocolTheorems {
  import opened Tunnel
  import opened RouterTable
  import opened RelayTable
  import opened Protocol
  import opened ProtocolInvariant
  import opened ProtocolFrames
  import CenterSteps = ProtocolCenterSteps
  import RelaySteps = ProtocolRelaySteps
  import ReturnSteps = ProtocolReturnSteps
  import AgentSteps = ProtocolAgentSteps
  import NetworkSteps = ProtocolNetworkSteps

  // ----- the invariant holds in every run -----

  lemma KeepCenter(st: State, b: Book, e: CenterEvent) returns (b': Book)
    requires Inv(st, b) && CanCenter(st, e) && (e.Begin? ==> IdFree(st, e.id))
    ensures Inv(NextCenter(st, e), b')
  {
    hide Inv, IdFree;
    match e
    case Begin(id, host, job, route) => b' := CenterSteps.KeepBegin(st, b, id, host, job, route);
    case SendRequest(c, ok) => b' := CenterSteps.KeepSendRequest(st, b, c, ok);
    case Expire(c, canceled) => b' := CenterSteps.KeepExpire(st, b, c, canceled);
    case SendCancel(c, ok) => b' := CenterSteps.KeepSendCancel(st, b, c, ok);
    case TakeReply(c) => b' := CenterSteps.KeepTakeReply(st, b, c);
    case Return(c) => b' := CenterSteps.KeepReturn(st, b, c);
    case CenterLoad(s) => b' := CenterSteps.KeepCenterLoad(st, b, s);
    case CenterPut(s) => b' := CenterSteps.KeepCenterPut(st, b, s);
  }

  lemma KeepRelay(st: State, b: Book, e: RelayEvent) returns (b': Book)
    requires Inv(st, b) && CanRelay(st, e)
    ensures Inv(NextRelay(st, e), b')
  {
    hide Inv;
    match e
    case RelayLookup(p) => b' := RelaySteps.KeepRelayLookup(st, b, p);
    case RelayStore(p) => b' := RelaySteps.KeepRelayStore(st, b, p);
    case RelaySend(p, ok) => b' := RelaySteps.KeepRelaySend(st, b, p, ok);
    case RelayUndo(p) => b' := RelaySteps.KeepRelayUndo(st, b, p);
    case RelayRefuse(p, ok) => b' := RelaySteps.KeepRelayRefuse(st, b, p, ok);
    case RelayCancel(p) => b' := ReturnSteps.KeepRelayCancel(st, b, p);
    case RelayCancelLookup(p) => b' := ReturnSteps.KeepRelayCancelLookup(st, b, p);
    case RelayCancelSend(p, ok) => b' := ReturnSteps.KeepRelayCancelSend(st, b, p, ok);
    case RelayReply(s) => b' := ReturnSteps.KeepRelayReply(st, b, s);
    case RelayForward(s, ok) => b' := ReturnSteps.KeepRelayForward(st, b, s, ok);
    case Retable(p, table) => b' := ReturnSteps.KeepRetable(st, b, p, table);
  }

  lemma KeepAgent(st: State, b: Book, e: AgentEvent) returns (b': Book)
    requires Inv(st, b) && CanAgent(st, e)
    ensures Inv(NextAgent(st, e), b')
  {
    hide Inv;
    match e
    case AgentStart(a) => b' := AgentSteps.KeepAgentStart(st, b, a);
    case AgentCancel(a) => b' := AgentSteps.KeepAgentCancel(st, b, a);
    case TaskReply(t, handled, ok) => b' := AgentSteps.KeepTaskReply(st, b, t, handled, ok);
    case TaskCleanup(t) => b' := AgentSteps.KeepTaskCleanup(st, b, t);
  }

  lemma KeepNetwork(st: State, b: Book, e: NetworkEvent) returns (b': Book)
    requires Inv(st, b) && CanNetwork(st, e)
    ensures Inv(NextNetwork(st, e), b')
  {
    hide Inv;
    match e
    case ProxyDial(p) => b' := NetworkSteps.KeepProxyDial(st, b, p);
    case ProxyAck(p) => b' := NetworkSteps.KeepProxyAck(st, b, p);
    case ProxyUp(p) => b' := NetworkSteps.KeepProxyUp(st, b, p);
    case ProxyDown(p) => b' := NetworkSteps.KeepProxyDown(st, b, p);
    case AgentDial(a) => b' := NetworkSteps.KeepAgentDial(st, b, a);
    case AgentAck(a) => b' := NetworkSteps.KeepAgentAck(st, b, a);
    case AgentUp(a) => b' := NetworkSteps.KeepAgentUp(st, b, a);
    case AgentDown(a) => b' := NetworkSteps.KeepAgentDown(st, b, a);
    case Break(s) => b' := NetworkSteps.KeepBreak(st, b, s);
    case Lose(s, i, j) => b' := NetworkSteps.KeepLose(st, b, s, i, j);
  }

  lemma Keep(st: State, b: Book, e: Event) returns (b': Book)
    requires Inv(st, b) && Can(st, e)
    requires e.AtCenter? && e.center.Begin? ==> IdFree(st, e.center.id)
    ensures Inv(Next(st, e), b')
  {
    hide Inv, IdFree, CanCenter, CanRelay, CanAgent, CanNetwork, NextCenter, NextRelay, NextAgent, NextNetwork;
    match e
    case AtCenter(x) => b' := KeepCenter(st, b, x);
    case AtRelay(x) => b' := KeepRelay(st, b, x);
    case AtAgent(x) => b' := KeepAgent(st, b, x);
    case AtNetwork(x) => b' := KeepNetwork(st, b, x);
  }

  lemma {:induction false} KeepRun(st: State, b: Book, es: seq<Event>) returns (b': Book)
    requires Inv(st, b) && Run(st, es)
    ensures Inv(After(st, es), b')
    decreases |es|
  {
    hide Inv, IdFree, Can, Next;
    if es == [] {
      b' := b;
    } else {
      var b1 := Keep(st, b, es[0]);
      b' := KeepRun(Next(st, es[0]), b1, es[1..]);
    }
  }

  /** The states in which runs from initial states end. */
  ghost predicate Reachable(st: State) {
    exists st0, es :: EndsIn(st0, es, st)
  }

  ghost predicate EndsIn(st0: State, es: seq<Event>, st: State) {
    Initial(st0) && Run(st0, es) && After(st0, es) == st
  }

  lemma Reached(st: State) returns (b: Book)
    requires Reachable(st)
    ensures Inv(st, b)
  {
    var st0, es :| EndsIn(st0, es, st);
    hide Run, After;
    InitialInv(st0);
    b := KeepRun(st0, Book([], []), es);
  }

  /** A run in which no request ID is checked: every step is possible, nothing more. */
  predicate Legal(st: State, es: seq<Event>)
    decreases |es|
  {
    es == [] || (Can(st, es[0]) && Legal(Next(st, es[0]), es[1..]))
  }

  function Play(st: State, es: seq<Event>): State
    requires Legal(st, es)
    decreases |es|
  {
    if es == [] then st else Play(Next(st, es[0]), es[1..])
  }

  lemma PlayFirst(st: State, e: Event, es: seq<Event>)
    requires Can(st, e) && Legal(Next(st, e), es)
    ensures Legal(st, [e] + es) && Play(st, [e] + es) == Play(Next(st, e), es)
  {
    assert ([e] + es)[1..] == es;
  }

  function BeginIds(es: seq<Event>): seq<Id> {
    if es == [] then []
    else (if es[0].AtCenter? && es[0].center.Begin? then [es[0].center.id] else []) + BeginIds(es[1..])
  }

  predicate AllDifferent(ids: seq<Id>) {
    forall i, j | 0 <= i < j < |ids| :: ids[i] != ids[j]
  }

  /** An ID no call has used is free. */
  lemma UnusedIdIsFree(st: State, b: Book, id: Id)
    requires Inv(st, b) && forall c | 0 <= c < |st.calls| :: st.calls[c].id != id
    ensures IdFree(st, id)
  {
    hide CallOk, AgentOk;
    forall s | 0 <= s < |st.streams|
      ensures (forall i | 0 <= i < |st.streams[s].down| :: st.streams[s].down[i].id != id)
      ensures (forall i | 0 <= i < |st.streams[s].up| :: st.streams[s].up[i].id != id)
      ensures st.streams[s].hand != Free ==> st.streams[s].hand.reply.id != id
    {
      assert StreamOk(st, b, s);
    }
    forall p | 0 <= p < |st.proxies|
      ensures Held(st.proxies[p].reader).Some? ==> Held(st.proxies[p].reader).value.id != id
      ensures id !in st.proxies[p].relay.pendingRequests
    {
      assert ProxyOk(st, b, p);
    }
    forall t | 0 <= t < |st.tasks| ensures st.tasks[t].id != id {
      assert TaskOk(st, b, t);
    }
  }

  /** The calls of a state and the IDs still to come are all different. */
  predicate ApartFrom(st: State, ids: seq<Id>) {
    && AllDifferent(ids)
    && forall c, i | 0 <= c < |st.calls| && 0 <= i < |ids| :: st.calls[c].id != ids[i]
  }

  lemma NextCalls(st: State, e: Event)
    requires Can(st, e)
    ensures var begins := e.AtCenter? && e.center.Begin?;
            && |Next(st, e).calls| == |st.calls| + (if begins then 1 else 0)
            && (forall c | 0 <= c < |st.calls| :: Next(st, e).calls[c].id == st.calls[c].id)
            && (begins ==> Next(st, e).calls[|st.calls|].id == e.center.id)
  {
    match e
    case AtCenter(x) =>
    case AtRelay(x) => NextCallsRelay(st, x);
    case AtAgent(x) =>
    case AtNetwork(x) => NextCallsNetwork(st, x);
  }

  lemma NextCallsRelay(st: State, e: RelayEvent)
    requires CanRelay(st, e)
    ensures NextRelay(st, e).calls == st.calls
  {
  }

  lemma NextCallsNetwork(st: State, e: NetworkEvent)
    requires CanNetwork(st, e)
    ensures NextNetwork(st, e).calls == st.calls
  {
  }

  lemma {:induction false} DifferentIsRun(st: State, b: Book, es: seq<Event>)
    requires Inv(st, b) && Legal(st, es) && ApartFrom(st, BeginIds(es))
    ensures Run(st, es) && After(st, es) == Play(st, es)
    decreases |es|
  {
    hide Inv, IdFree, Can, Next;
    if es != [] {
      var e := es[0];
      if e.AtCenter? && e.center.Begin? {
        assert BeginIds(es) == [e.center.id] + BeginIds(es[1..]);
        assert e.center.id == BeginIds(es)[0];
        UnusedIdIsFree(st, b, e.center.id);
      } else {
        assert BeginIds(es) == BeginIds(es[1..]);
      }
      var b1 := Keep(st, b, e);
      NextCalls(st, e);
      StillApart(st, Next(st, e), es);
      DifferentIsRun(Next(st, e), b1, es[1..]);
    }
  }

  lemma StillApart(st: State, st': State, es: seq<Event>)
    requires es != [] && ApartFrom(st, BeginIds(es))
    requires var begins := es[0].AtCenter? && es[0].center.Begin?;
             && |st'.calls| == |st.calls| + (if begins then 1 else 0)
             && (forall c | 0 <= c < |st.calls| :: st'.calls[c].id == st.calls[c].id)
             && (begins ==> st'.calls[|st.calls|].id == es[0].center.id)
    ensures ApartFrom(st', BeginIds(es[1..]))
  {
    var ids, rest := BeginIds(es), BeginIds(es[1..]);
    var k := if es[0].AtCenter? && es[0].center.Begin? then 1 else 0;
    assert |ids| == |rest| + k;
    assert forall i | 0 <= i < |rest| :: rest[i] == ids[i + k];
    if k == 1 {
      assert ids[0] == es[0].center.id;
    }
  }

  /** If no request ID is ever used twice, every begin finds its ID free. */
  lemma DistinctIdsAreFree(st: State, es: seq<Event>)
    requires Initial(st) && Legal(st, es) && AllDifferent(BeginIds(es))
    ensures Run(st, es) && After(st, es) == Play(st, es)
  {
    hide Legal, Play, Run, After, Inv;
    InitialInv(st);
    DifferentIsRun(st, Book([], []), es);
  }

  // ----- what Send returns -----

  datatype SendResult = Unfinished | Result(json: string) | AgentError(code: string, message: string)
                      | Timeout | Cancel | SendError

  /** The return value of `Send`. */
  function Returns(st: State, c: nat): SendResult
    requires c < |st.calls|
  {
    if st.calls[c].phase != Returned then Unfinished else
    match st.calls[c].outcome
    case NoOutcome => Unfinished
    case SendFailed => SendError
    case TimedOut => Timeout
    case Canceled => Cancel
    case Got(m) =>
      if m.Reply? then
        match m.body
        case ToolResponse(json) => Result(json)
        case ErrorResponse(code, message) => AgentError(code, message)
      else SendError
  }

  /** Goroutine `t` ran the job of call `c` on an agent of the call's host and replied `body`. */
  predicate Answered(st: State, c: nat, t: nat, body: Body) {
    && c < |st.calls| && t < |st.tasks| && st.tasks[t].agent < |st.agents|
    && st.tasks[t].origin == c
    && st.tasks[t].id == st.calls[c].id
    && st.tasks[t].job == st.calls[c].job
    && st.agents[st.tasks[t].agent].host == st.calls[c].host
    && st.tasks[t].reply == Some(body)
  }

  /** In every reachable state, a `Send` returns a result only if an agent of its host made that result for
      this very call; an agent error is that agent's error for this call, or the proxy's refusal,
      and then no goroutine ever ran for the call. */
  lemma SendReturnsItsOwnReply(st: State, c: nat)
    requires Reachable(st) && c < |st.calls|
    ensures match Returns(st, c)
            case Result(json) => exists t :: Answered(st, c, t, ToolResponse(json))
            case AgentError(code, message) =>
              || (code != "HOST_NOT_FOUND" && exists t :: Answered(st, c, t, ErrorResponse(code, message)))
              || (ErrorResponse(code, message) == HostNotFound(st.calls[c].host)
                  && forall t | 0 <= t < |st.tasks| :: st.tasks[t].origin != c)
            case _ => true
  {
    var b := Reached(st);
    OwnReplyOf(st, b, c);
  }

  lemma OwnReplyOf(st: State, b: Book, c: nat)
    requires Inv(st, b) && c < |st.calls|
    ensures match Returns(st, c)
            case Result(json) => exists t :: Answered(st, c, t, ToolResponse(json))
            case AgentError(code, message) =>
              || (code != "HOST_NOT_FOUND" && exists t :: Answered(st, c, t, ErrorResponse(code, message)))
              || (ErrorResponse(code, message) == HostNotFound(st.calls[c].host) && NoTask(st, c))
            case _ => true
  {
    hide StreamOk, ProxyOk, AgentOk;
    assert CallOk(st, b, c);
    if st.calls[c].outcome.Got? {
      var m := st.calls[c].outcome.reply;
      match m.maker
      case MadeByTask(t) =>
        assert TaskOk(st, b, t);
        assert Answered(st, c, t, m.body);
        assert "TOOL_NOT_FOUND"[0] != "HOST_NOT_FOUND"[0] && |"TOOL_ERROR"| != |"HOST_NOT_FOUND"|;
      case MadeByProxy(p) =>
    }
  }
}
