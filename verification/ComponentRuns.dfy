/** What the events of one uninterrupted function call come to.  For every function of the router,
    the proxy and the agent that module Components has as a method, a list of events of the
    protocol, and the state in which they end. */
module ComponentRuns {
  import opened Tunnel
  import opened RouterTable
  import opened RelayTable
  import opened AgentTable
  import opened Protocol
  import opened ProtocolTheorems

  lemma PlayOne(st: State, e: Event)
    requires Can(st, e)
    ensures Legal(st, [e]) && Play(st, [e]) == Next(st, e)
  {
    assert [e][1..] == [];
  }

  lemma PlayTwo(st: State, e0: Event, e1: Event)
    requires Can(st, e0) && Can(Next(st, e0), e1)
    ensures Legal(st, [e0, e1]) && Play(st, [e0, e1]) == Next(Next(st, e0), e1)
  {
    hide Legal, Play, Can, Next;
    PlayOne(Next(st, e0), e1);
    PlayFirst(st, e0, [e1]);
    assert [e0] + [e1] == [e0, e1];
  }

  lemma PlayThree(st: State, e0: Event, e1: Event, e2: Event)
    requires Can(st, e0) && Can(Next(st, e0), e1) && Can(Next(Next(st, e0), e1), e2)
    ensures Legal(st, [e0, e1, e2]) && Play(st, [e0, e1, e2]) == Next(Next(Next(st, e0), e1), e2)
  {
    hide Legal, Play, Can, Next;
    PlayTwo(Next(st, e0), e1, e2);
    PlayFirst(st, e0, [e1, e2]);
    assert [e0] + [e1, e2] == [e0, e1, e2];
  }

  lemma PlayFour(st: State, e0: Event, e1: Event, e2: Event, e3: Event)
    requires Can(st, e0) && Can(Next(st, e0), e1) && Can(Next(Next(st, e0), e1), e2)
    requires Can(Next(Next(Next(st, e0), e1), e2), e3)
    ensures Legal(st, [e0, e1, e2, e3])
    ensures Play(st, [e0, e1, e2, e3]) == Next(Next(Next(Next(st, e0), e1), e2), e3)
  {
    hide Legal, Play, Can, Next;
    PlayThree(Next(st, e0), e1, e2, e3);
    PlayFirst(st, e0, [e1, e2, e3]);
    assert [e0] + [e1, e2, e3] == [e0, e1, e2, e3];
  }

  /** A message has been sent down `s`, or up, or not at all. */
  function Sent(ss: seq<Stream>, s: nat, m: Msg, ok: bool): seq<Stream>
    requires s < |ss|
  {
    if ok then ss[s := ss[s].(down := ss[s].down + [m])] else ss
  }

  function SentUp(ss: seq<Stream>, s: nat, m: Msg, ok: bool): seq<Stream>
    requires s < |ss|
  {
    if ok then ss[s := ss[s].(up := ss[s].up + [m])] else ss
  }

  // ----- the center -----

  /** `Send` up to its wait, or to its return if the send fails. */
  function AskEvents(req: Msg, route: nat, ok: bool): seq<Event>
    requires req.ToolRequest?
  {
    var c := req.origin;
    if ok then [AtCenter(Begin(req.id, req.target, req.job, route)), AtCenter(SendRequest(c, true))]
    else [AtCenter(Begin(req.id, req.target, req.job, route)), AtCenter(SendRequest(c, false)), AtCenter(Return(c))]
  }

  lemma AskPlays(st: State, req: Msg, route: nat)
    requires req.ToolRequest? && req.origin == |st.calls| == |st.router.slots|
    requires RouteOk(st, req.target, route)
    ensures var ok := !st.streams[route].broken;
            var es := AskEvents(req, route, ok);
            var c := req.origin;
            && Legal(st, es)
            && Play(st, es).streams == Sent(st.streams, route, req, ok)
            && Play(st, es).router == (if ok then Store(st.router, req.id) else Delete(Store(st.router, req.id), req.id))
            && |Play(st, es).calls| == |st.calls| + 1
            && Returns(Play(st, es), c) == (if ok then Unfinished else SendError)
  {
    var c := req.origin;
    var begin := AtCenter(Begin(req.id, req.target, req.job, route));
    if !st.streams[route].broken {
      PlayTwo(st, begin, AtCenter(SendRequest(c, true)));
    } else {
      PlayThree(st, begin, AtCenter(SendRequest(c, false)), AtCenter(Return(c)));
    }
  }

  /** `Send` from the end of its context to its return. */
  function GiveUpEvents(c: nat, canceled: bool, ok: bool): seq<Event> {
    [AtCenter(Expire(c, canceled)), AtCenter(SendCancel(c, ok)), AtCenter(Return(c))]
  }

  lemma GiveUpPlays(st: State, c: nat, canceled: bool)
    requires CallIn(st, c, Waiting) && st.calls[c].route < |st.streams|
    ensures var route, id := st.calls[c].route, st.calls[c].id;
            var ok := !st.streams[route].broken;
            var es := GiveUpEvents(c, canceled, ok);
            && Legal(st, es)
            && Play(st, es).streams == Sent(st.streams, route, CancelRequest(id, c), ok)
            && Play(st, es).router == Delete(st.router, id)
            && |Play(st, es).calls| == |st.calls|
            && Returns(Play(st, es), c) == (if canceled then Cancel else Timeout)
  {
    PlayThree(st, AtCenter(Expire(c, canceled)), AtCenter(SendCancel(c, !st.streams[st.calls[c].route].broken)),
              AtCenter(Return(c)));
  }

  /** `Send` from the reply in its slot to its return. */
  function AcceptEvents(c: nat): seq<Event> {
    [AtCenter(TakeReply(c)), AtCenter(Return(c))]
  }

  lemma AcceptPlays(st: State, c: nat)
    requires CanTakeReply(st, c)
    ensures Legal(st, AcceptEvents(c))
    ensures Play(st, AcceptEvents(c)).router == Delete(Take(st.router, c), st.calls[c].id)
    ensures Play(st, AcceptEvents(c)).streams == st.streams
    ensures Play(st, AcceptEvents(c)).calls
            == st.calls[c := st.calls[c].(phase := Returned, outcome := Got(st.router.slots[c].value))]
  {
    PlayTwo(st, AtCenter(TakeReply(c)), AtCenter(Return(c)));
  }

  /** `Deliver`, from the receive on stream `s`. */
  function DeliverEvents(s: nat, known: bool): seq<Event> {
    if known then [AtCenter(CenterLoad(s)), AtCenter(CenterPut(s))] else [AtCenter(CenterLoad(s))]
  }

  lemma DeliverPlays(st: State, s: nat)
    requires CanCenterLoad(st, s)
    requires forall id | id in st.router.pending :: st.router.pending[id] < |st.router.slots|
    ensures var m := st.streams[s].up[0];
            var known := m.id in st.router.pending;
            var es := DeliverEvents(s, known);
            && Legal(st, es)
            && Play(st, es).streams == st.streams[s := st.streams[s].(up := st.streams[s].up[1..], hand := Free)]
            && Play(st, es).calls == st.calls
            && Play(st, es).router == if known then Put(st.router, st.router.pending[m.id], m) else st.router
  {
    if st.streams[s].up[0].id in st.router.pending {
      PlayTwo(st, AtCenter(CenterLoad(s)), AtCenter(CenterPut(s)));
    } else {
      PlayOne(st, AtCenter(CenterLoad(s)));
    }
  }

  // ----- the proxy -----

  /** `DeliverToolRequest`, from the receive on the upstream. */
  function ToolRequestEvents(p: nat, known: bool, ok: bool): seq<Event> {
    if !known then [AtRelay(RelayLookup(p)), AtRelay(RelayRefuse(p, ok))]
    else if ok then [AtRelay(RelayLookup(p)), AtRelay(RelayStore(p)), AtRelay(RelaySend(p, true))]
    else [AtRelay(RelayLookup(p)), AtRelay(RelayStore(p)), AtRelay(RelaySend(p, false)), AtRelay(RelayUndo(p))]
  }

  /** The upstream's next message has been received. */
  function Received(st: State, p: nat): seq<Stream>
    requires ReaderFree(st, p)
  {
    PopDown(st.streams, st.proxies[p].link.stream)
  }

  lemma RefusalPlays(st: State, p: nat)
    requires CanRelayLookup(st, p) && NextUpstream(st, p).target !in st.proxies[p].relay.table
    ensures var s := st.proxies[p].link.stream;
            var ok := !st.streams[s].broken;
            var es := ToolRequestEvents(p, false, ok);
            && Legal(st, es)
            && Play(st, es).proxies == st.proxies
            && Play(st, es).streams == SentUp(Received(st, p), s, Refusal(NextUpstream(st, p), p), ok)
  {
    var ok := !st.streams[st.proxies[p].link.stream].broken;
    PlayTwo(st, AtRelay(RelayLookup(p)), AtRelay(RelayRefuse(p, ok)));
    assert Play(st, ToolRequestEvents(p, false, ok)).proxies[p] == st.proxies[p];
  }

  lemma RequestPlays(st: State, p: nat)
    requires CanRelayLookup(st, p) && NextUpstream(st, p).target in st.proxies[p].relay.table
    requires st.proxies[p].relay.table[NextUpstream(st, p).target] < |st.streams|
    requires st.proxies[p].relay.table[NextUpstream(st, p).target] != st.proxies[p].link.stream
    ensures var m, x := NextUpstream(st, p), st.proxies[p];
            var to := x.relay.table[m.target];
            var ok := !st.streams[to].broken;
            var es := ToolRequestEvents(p, true, ok);
            && Legal(st, es)
            && Play(st, es).streams == Sent(Received(st, p), to, m, ok)
            && Play(st, es).proxies == st.proxies[p := x.(
                 relay := if ok then Track(x.relay, m) else Forget(Track(x.relay, m), m.id))]
  {
    var to := st.proxies[p].relay.table[NextUpstream(st, p).target];
    var looked := Next(st, AtRelay(RelayLookup(p)));
    var stored := Next(looked, AtRelay(RelayStore(p)));
    assert stored.streams[to] == st.streams[to];
    if !st.streams[to].broken {
      PlayThree(st, AtRelay(RelayLookup(p)), AtRelay(RelayStore(p)), AtRelay(RelaySend(p, true)));
    } else {
      PlayFour(st, AtRelay(RelayLookup(p)), AtRelay(RelayStore(p)), AtRelay(RelaySend(p, false)),
               AtRelay(RelayUndo(p)));
    }
  }

  /** `DeliverCancelRequest`, from the receive on the upstream. */
  function CancelEvents(p: nat, known: bool, registered: bool, ok: bool): seq<Event> {
    if !known then [AtRelay(RelayCancel(p))]
    else if !registered then [AtRelay(RelayCancel(p)), AtRelay(RelayCancelLookup(p))]
    else [AtRelay(RelayCancel(p)), AtRelay(RelayCancelLookup(p)), AtRelay(RelayCancelSend(p, ok))]
  }

  lemma LostCancelPlays(st: State, p: nat)
    requires CanRelayCancel(st, p)
    requires var m, x := NextUpstream(st, p), st.proxies[p];
             m.id in x.relay.pendingRequests ==> x.relay.pendingRequests[m.id].host !in x.relay.table
    ensures var m, x := NextUpstream(st, p), st.proxies[p];
            var es := CancelEvents(p, m.id in x.relay.pendingRequests, false, false);
            && Legal(st, es)
            && Play(st, es).streams == Received(st, p)
            && Play(st, es).proxies == st.proxies[p := x.(relay := Forget(x.relay, m.id))]
  {
    if NextUpstream(st, p).id in st.proxies[p].relay.pendingRequests {
      PlayTwo(st, AtRelay(RelayCancel(p)), AtRelay(RelayCancelLookup(p)));
    } else {
      PlayOne(st, AtRelay(RelayCancel(p)));
    }
  }

  lemma CancelPlays(st: State, p: nat)
    requires CanRelayCancel(st, p)
    requires var m, x := NextUpstream(st, p), st.proxies[p];
             && m.id in x.relay.pendingRequests
             && var host := x.relay.pendingRequests[m.id].host;
                host in x.relay.table && x.relay.table[host] < |st.streams| && x.relay.table[host] != x.link.stream
    ensures var m, x := NextUpstream(st, p), st.proxies[p];
            var to := x.relay.table[x.relay.pendingRequests[m.id].host];
            var ok := !st.streams[to].broken;
            var es := CancelEvents(p, true, true, ok);
            && Legal(st, es)
            && Play(st, es).streams == Sent(Received(st, p), to, m, ok)
            && Play(st, es).proxies == st.proxies[p := x.(relay := Forget(x.relay, m.id))]
  {
    var x := st.proxies[p];
    var to := x.relay.table[x.relay.pendingRequests[NextUpstream(st, p).id].host];
    PlayThree(st, AtRelay(RelayCancel(p)), AtRelay(RelayCancelLookup(p)),
              AtRelay(RelayCancelSend(p, !st.streams[to].broken)));
  }

  /** The reply cases of the proxy's read loop, from the receive on stream `s`. */
  function ReplyEvents(s: nat, ok: bool): seq<Event> {
    [AtRelay(Protocol.RelayReply(s)), AtRelay(RelayForward(s, ok))]
  }

  lemma ReplyPlays(st: State, s: nat, ok: bool)
    requires CanRelayReply(st, s)
    requires var link := st.proxies[st.streams[s].server.proxy].link;
             if link.Live? then link.stream < |st.streams| && ok == !st.streams[link.stream].broken && link.stream != s
             else !ok
    ensures var p, m := st.streams[s].server.proxy, st.streams[s].up[0];
            var x, popped := st.proxies[p], st.streams[s := st.streams[s].(up := st.streams[s].up[1..])];
            && Legal(st, ReplyEvents(s, ok))
            && Play(st, ReplyEvents(s, ok)).proxies == st.proxies[p := x.(relay := Forget(x.relay, m.id))]
            && Play(st, ReplyEvents(s, ok)).streams == if ok then SentUp(popped, x.link.stream, m, true) else popped
  {
    PlayTwo(st, AtRelay(Protocol.RelayReply(s)), AtRelay(RelayForward(s, ok)));
  }

  // ----- the agent -----

  /** The end of goroutine `t`. */
  function FinishEvents(t: nat, handled: Handled, ok: bool): seq<Event> {
    [AtAgent(TaskReply(t, handled, ok)), AtAgent(TaskCleanup(t))]
  }

  lemma FinishPlays(st: State, t: nat, handled: Handled, ok: bool)
    requires CanTaskReply(st, t, ok)
    requires var link := st.agents[st.tasks[t].agent].link;
             link.Live? ==> link.stream < |st.streams| && ok == !st.streams[link.stream].broken
    ensures var x := st.tasks[t];
            var g := st.agents[x.agent];
            && Legal(st, FinishEvents(t, handled, ok))
            && Play(st, FinishEvents(t, handled, ok)).tasks
               == st.tasks[t := x.(phase := Done, reply := Some(ReplyBody(handled)), canceled := true)]
            && Play(st, FinishEvents(t, handled, ok)).agents
               == st.agents[x.agent := g.(cancelFns := Dropped(g.cancelFns, x.id))]
            && Play(st, FinishEvents(t, handled, ok)).streams
               == if ok then SentUp(st.streams, g.link.stream, Reply(x.id, ReplyBody(handled), x.origin, MadeByTask(t)), true)
                  else st.streams
  {
    PlayTwo(st, AtAgent(TaskReply(t, handled, ok)), AtAgent(TaskCleanup(t)));
  }
}
