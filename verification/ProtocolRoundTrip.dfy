/** A call that nothing disturbs, from `Send` to the agent and back.

    The other theorems say what no run can do.  These say that the protocol does its work: from every
    state in which the streams to a host are up, a call returns what its handler ends with, directly
    or by way of a proxy, and leaves routers, relay tables, streams and cancel functions as it found
    them; and from every state in which a proxy and its agent are down, dialing makes such a state. */
module ProtocolRoundTrip {
  import opened Tunnel
  import opened RouterTable
  import opened RelayTable
  import opened AgentTable
  import opened Protocol
  import opened ProtocolTheorems
  import opened ComponentRuns

  lemma {:induction false} PlayAppend(st: State, es: seq<Event>, fs: seq<Event>)
    requires Legal(st, es) && Legal(Play(st, es), fs)
    ensures Legal(st, es + fs) && Play(st, es + fs) == Play(Play(st, es), fs)
    decreases |es|
  {
    hide Can, Next;
    if es == [] {
      assert es + fs == fs;
    } else {
      PlayAppend(Next(st, es[0]), es[1..], fs);
      assert (es + fs)[1..] == es[1..] + fs;
    }
  }

  // ----- ready to be called -----

  /** The stream is up, nothing is on it, and its reader has nothing in hand. */
  predicate Quiet(st: State, s: nat, client: Client, server: Server) {
    s < |st.streams| && st.streams[s] == Stream(client, server, [], [], false, true, Free)
  }

  /** Agent `a` reads stream `s` from `server`, and `id` is not in use. */
  predicate AgentReady(st: State, a: nat, s: nat, server: Server, host: Host, id: Id) {
    && a < |st.agents| && st.agents[a].host == host && st.agents[a].link == Live(s)
    && Quiet(st, s, AgentNode(a), server)
    && id !in st.agents[a].cancelFns
  }

  predicate CenterReady(st: State, id: Id) {
    |st.router.slots| == |st.calls| && id !in st.router.pending
  }

  /** Proxy `p` reads stream `u` from the center. */
  predicate ProxyReady(st: State, p: nat, u: nat, id: Id) {
    && p < |st.proxies| && st.proxies[p].reader == Idle && st.proxies[p].link == Live(u)
    && Quiet(st, u, ProxyNode(p), Center)
    && id !in st.proxies[p].relay.pendingRequests
  }

  predicate Reaches(st: State, p: nat, host: Host, s: nat) {
    p < |st.proxies| && host in st.proxies[p].relay.table && st.proxies[p].relay.table[host] == s
  }

  // ----- the states on the way -----

  function On(ss: seq<Stream>, s: nat, down: seq<Msg>, up: seq<Msg>): seq<Stream>
    requires s < |ss|
  {
    ss[s := ss[s].(down := down, up := up)]
  }

  /** What goes on an empty stream and off again. */
  lemma OnAndOff(ss: seq<Stream>, s: nat, m: Msg, hand: Hand)
    requires s < |ss| && !ss[s].broken && ss[s].down == [] && ss[s].up == []
    ensures PushDown(ss, s, m) == On(ss, s, [m], []) && PushUp(ss, s, m) == On(ss, s, [], [m])
    ensures PopDown(On(ss, s, [m], []), s) == ss
    ensures PopUp(On(ss, s, [], [m]), s, hand) == ss[s := ss[s].(hand := hand)]
    ensures ss[s].hand == Free ==> ss[s := ss[s].(hand := hand)][s := ss[s].(hand := hand).(hand := Free)] == ss
  {
    var x := ss[s];
    assert x.down + [m] == [m] && x.up + [m] == [m];
    assert [m][1..] == [];
    assert x.(down := [], up := []) == x && x.(hand := hand).(hand := Free) == x.(hand := Free);
    assert ss[s := x] == ss;
  }

  /** The call waits; what was sent is still to be put on a stream. */
  function Called(st: State, id: Id, host: Host, job: Job, route: nat): State {
    st.(router := Store(st.router, id),
        calls := st.calls + [Call(id, host, job, route, Waiting, NoOutcome)])
  }

  /** The call has returned `m`, and its slot is empty again. */
  function Answered(st: State, id: Id, host: Host, job: Job, route: nat, m: Msg): State {
    st.(router := RouterState(st.router.pending, st.router.slots + [None]),
        calls := st.calls + [Call(id, host, job, route, Returned, Got(m))])
  }

  /** The goroutine has come and gone. */
  function Ran(st: State, a: nat, id: Id, job: Job, origin: nat, body: Body): State {
    st.(tasks := st.tasks + [Task(a, id, job, origin, Done, true, Some(body))])
  }

  // ----- the parts of a round trip -----

  function AskPart(st: State, id: Id, host: Host, job: Job, route: nat): seq<Event> {
    AskEvents(ToolRequest(id, job, host, |st.calls|), route, true)
  }

  lemma AskPlaysOut(st: State, id: Id, host: Host, job: Job, route: nat)
    requires CenterReady(st, id) && RouteOk(st, host, route)
    requires st.streams[route].down == [] && st.streams[route].up == [] && !st.streams[route].broken
    ensures Legal(st, AskPart(st, id, host, job, route))
    ensures Play(st, AskPart(st, id, host, job, route))
            == var m := ToolRequest(id, job, host, |st.calls|);
               Called(st, id, host, job, route).(streams := On(st.streams, route, [m], []))
  {
    var c := |st.calls|;
    OnAndOff(st.streams, route, ToolRequest(id, job, host, c), Free);
    PlayTwo(st, AtCenter(Begin(id, host, job, route)), AtCenter(SendRequest(c, true)));
  }

  /** `st` holds the request on stream `s` for agent `a`; `free` is `st` without it. */
  lemma AgentPlaysOut(st: State, a: nat, s: nat, server: Server, m: Msg, h: Handled)
    requires m.ToolRequest? && AgentReady(st, a, s, server, m.target, m.id)
    ensures var asked := st.(streams := On(st.streams, s, [m], []));
            var es := [AtAgent(AgentStart(a))] + FinishEvents(|st.tasks|, h, true);
            && Legal(asked, es)
            && Play(asked, es) == Ran(st, a, m.id, m.job, m.origin, ReplyBody(h)).(
                 streams := On(st.streams, s, [], [Reply(m.id, ReplyBody(h), m.origin, MadeByTask(|st.tasks|))]))
  {
    var asked := st.(streams := On(st.streams, s, [m], []));
    var t := |st.tasks|;
    var e0, e1, e2 := AtAgent(AgentStart(a)), AtAgent(TaskReply(t, h, true)), AtAgent(TaskCleanup(t));
    OnAndOff(st.streams, s, m, Free);
    OnAndOff(st.streams, s, Reply(m.id, ReplyBody(h), m.origin, MadeByTask(t)), Free);
    var s1 := Next(asked, e0);
    assert s1.streams == st.streams;
    var s2 := Next(s1, e1);
    var s3 := Next(s2, e2);
    assert st.agents[a].cancelFns[m.id := t] - {m.id} == st.agents[a].cancelFns;
    assert s3.agents == st.agents;
    PlayThree(asked, e0, e1, e2);
    assert [e0] + [e1, e2] == [e0, e1, e2];
  }

  /** The reply is in the call's slot. */
  function Delivered(st: State, id: Id, host: Host, job: Job, route: nat, m: Msg): State {
    var called := Called(st, id, host, job, route);
    called.(router := RouterState(called.router.pending, st.router.slots + [Some(m)]))
  }

  lemma SlotPlaysOut(st: State, id: Id, host: Host, job: Job, route: nat, m: Msg)
    requires CenterReady(st, id) && m.Reply? && m.id == id
    requires route < |st.streams| && st.streams[route].server == Center && !st.streams[route].broken
    requires st.streams[route].hand == Free && st.streams[route].up == [] && st.streams[route].down == []
    ensures var full := Called(st, id, host, job, route).(streams := On(st.streams, route, [], [m]));
            Legal(full, DeliverEvents(route, true))
            && Play(full, DeliverEvents(route, true)) == Delivered(st, id, host, job, route, m)
  {
    var c, full := |st.calls|, Called(st, id, host, job, route).(streams := On(st.streams, route, [], [m]));
    var e0, e1 := AtCenter(CenterLoad(route)), AtCenter(CenterPut(route));
    OnAndOff(st.streams, route, m, Putting(m, c));
    PlayTwo(full, e0, e1);
  }

  lemma AcceptPlaysOut(st: State, id: Id, host: Host, job: Job, route: nat, m: Msg)
    requires CenterReady(st, id)
    ensures var c, full := |st.calls|, Delivered(st, id, host, job, route, m);
            Legal(full, AcceptEvents(c)) && Play(full, AcceptEvents(c)) == Answered(st, id, host, job, route, m)
  {
    var c, full := |st.calls|, Delivered(st, id, host, job, route, m);
    var e0, e1 := AtCenter(TakeReply(c)), AtCenter(Return(c));
    assert st.router.pending[id := c] - {id} == st.router.pending;
    PlayTwo(full, e0, e1);
  }

  lemma DeliverPlaysOut(st: State, id: Id, host: Host, job: Job, route: nat, m: Msg)
    requires CenterReady(st, id) && m.Reply? && m.id == id
    requires route < |st.streams| && st.streams[route].server == Center && !st.streams[route].broken
    requires st.streams[route].hand == Free && st.streams[route].up == [] && st.streams[route].down == []
    ensures var c, full := |st.calls|, Called(st, id, host, job, route).(streams := On(st.streams, route, [], [m]));
            var es := DeliverEvents(route, true) + AcceptEvents(c);
            Legal(full, es) && Play(full, es) == Answered(st, id, host, job, route, m)
  {
    hide Legal, Play, Delivered, Answered, Called, DeliverEvents, AcceptEvents;
    var full := Called(st, id, host, job, route).(streams := On(st.streams, route, [], [m]));
    SlotPlaysOut(st, id, host, job, route, m);
    AcceptPlaysOut(st, id, host, job, route, m);
    PlayAppend(full, DeliverEvents(route, true), AcceptEvents(|st.calls|));
  }

  // ----- directly -----

  /** A call to an agent of the center, undisturbed. */
  function DirectTrip(st: State, id: Id, host: Host, job: Job, a: nat, s: nat, h: Handled): seq<Event> {
    AskPart(st, id, host, job, s)
    + (([AtAgent(AgentStart(a))] + FinishEvents(|st.tasks|, h, true))
       + (DeliverEvents(s, true) + AcceptEvents(|st.calls|)))
  }

  /** What `Send` returns for each way the handler can end. */
  predicate ReturnsFor(r: SendResult, h: Handled) {
    match h
    case UnknownTool(message) => r == AgentError("TOOL_NOT_FOUND", message)
    case Failed(message) => r == AgentError("TOOL_ERROR", message)
    case Succeeded(json) => r == Result(json)
  }

  /** From every state in which an agent's stream is up and the ID is new, a call to the agent that
      nothing disturbs returns what its handler ends with, and nothing is left of it but the
      returned call, its empty slot and the finished goroutine. */
  lemma DirectCallReturns(st: State, id: Id, host: Host, job: Job, a: nat, s: nat, h: Handled)
    requires CenterReady(st, id) && AgentReady(st, a, s, Center, host, id)
    ensures var es, c := DirectTrip(st, id, host, job, a, s, h), |st.calls|;
            && Legal(st, es)
            && Play(st, es).(calls := st.calls, tasks := st.tasks, router := st.router) == st
            && Play(st, es).router == RouterState(st.router.pending, st.router.slots + [None])
            && |Play(st, es).calls| == c + 1 && Play(st, es).calls[..c] == st.calls
            && ReturnsFor(Returns(Play(st, es), c), h)
  {
    hide Legal, Play, Can, Next;
    var m := ToolRequest(id, job, host, |st.calls|);
    var reply := Reply(id, ReplyBody(h), |st.calls|, MadeByTask(|st.tasks|));
    AskPlaysOut(st, id, host, job, s);
    var called := Called(st, id, host, job, s);
    AgentPlaysOut(called, a, s, Center, m, h);
    var ran := Ran(st, a, id, job, |st.calls|, ReplyBody(h));
    DeliverPlaysOut(ran, id, host, job, s, reply);
    var agent := [AtAgent(AgentStart(a))] + FinishEvents(|st.tasks|, h, true);
    var back := DeliverEvents(s, true) + AcceptEvents(|st.calls|);
    PlayAppend(called.(streams := On(st.streams, s, [m], [])), agent, back);
    PlayAppend(st, AskPart(st, id, host, job, s), agent + back);
  }

  // ----- by way of a proxy -----

  function ProxyTrip(st: State, id: Id, host: Host, job: Job, p: nat, u: nat, a: nat, s: nat, h: Handled): seq<Event> {
    AskPart(st, id, host, job, u)
    + (ToolRequestEvents(p, true, true)
       + (([AtAgent(AgentStart(a))] + FinishEvents(|st.tasks|, h, true))
          + (ReplyEvents(s, true) + (DeliverEvents(u, true) + AcceptEvents(|st.calls|)))))
  }

  /** The proxy knows the request. */
  function Tracking(st: State, p: nat, m: Msg): State
    requires p < |st.proxies| && m.ToolRequest?
  {
    st.(proxies := st.proxies[p := st.proxies[p].(relay := Track(st.proxies[p].relay, m))])
  }

  lemma RelayTakes(st: State, p: nat, u: nat, s: nat, m: Msg)
    requires m.ToolRequest? && ProxyReady(st, p, u, m.id) && Reaches(st, p, m.target, s)
    ensures var asked := st.(streams := On(st.streams, u, [m], []));
            && CanRelayLookup(asked, p) && CanRelayStore(DoRelayLookup(asked, p), p)
            && DoRelayStore(DoRelayLookup(asked, p), p)
               == st.(proxies := st.proxies[p := st.proxies[p].(relay := Track(st.proxies[p].relay, m),
                                                                 reader := Sending(m, s))])
  {
    OnAndOff(st.streams, u, m, Free);
    var looked := DoRelayLookup(st.(streams := On(st.streams, u, [m], [])), p);
    assert looked.streams == st.streams;
  }

  lemma RelayPlaysOut(st: State, p: nat, u: nat, s: nat, m: Msg)
    requires m.ToolRequest? && ProxyReady(st, p, u, m.id) && Reaches(st, p, m.target, s)
    requires s < |st.streams| && s != u && !st.streams[s].broken && st.streams[s].down == [] && st.streams[s].up == []
    ensures var asked := st.(streams := On(st.streams, u, [m], []));
            && Legal(asked, ToolRequestEvents(p, true, true))
            && Play(asked, ToolRequestEvents(p, true, true))
               == Tracking(st, p, m).(streams := On(st.streams, s, [m], []))
  {
    hide CanRelayLookup, DoRelayLookup, CanRelayStore, DoRelayStore;
    var asked := st.(streams := On(st.streams, u, [m], []));
    RelayTakes(st, p, u, s, m);
    OnAndOff(st.streams, s, m, Free);
    PlayThree(asked, AtRelay(RelayLookup(p)), AtRelay(RelayStore(p)), AtRelay(RelaySend(p, true)));
  }

  lemma ForwardPlaysOut(st: State, p: nat, u: nat, s: nat, a: nat, req: Msg, m: Msg)
    requires req.ToolRequest? && m.Reply? && m.id == req.id
    requires ProxyReady(st, p, u, m.id) && Quiet(st, s, AgentNode(a), AtProxy(p))
    ensures var done := Tracking(st, p, req).(streams := On(st.streams, s, [], [m]));
            && Legal(done, ReplyEvents(s, true))
            && Play(done, ReplyEvents(s, true)) == st.(streams := On(st.streams, u, [], [m]))
  {
    var done := Tracking(st, p, req).(streams := On(st.streams, s, [], [m]));
    var e0, e1 := AtRelay(Protocol.RelayReply(s)), AtRelay(RelayForward(s, true));
    OnAndOff(st.streams, s, m, Forwarding(m));
    OnAndOff(st.streams, u, m, Free);
    var s1 := Next(done, e0);
    assert st.proxies[p].relay.pendingRequests[req.id := RelayTable.Entry(req.target, req.origin)] - {m.id}
           == st.proxies[p].relay.pendingRequests;
    assert s1.proxies == st.proxies;
    var s2 := Next(s1, e1);
    assert s2.streams == On(st.streams, u, [], [m]);
    PlayTwo(done, e0, e1);
  }

  /** The same for a call that a proxy relays.  Request and reply pass through the proxy unchanged, and
      it forgets the request. */
  lemma RelayedCallReturns(st: State, id: Id, host: Host, job: Job, p: nat, u: nat, a: nat, s: nat, h: Handled)
    requires CenterReady(st, id) && ProxyReady(st, p, u, id) && Reaches(st, p, host, s)
    requires AgentReady(st, a, s, AtProxy(p), host, id)
    ensures var es, c := ProxyTrip(st, id, host, job, p, u, a, s, h), |st.calls|;
            && Legal(st, es)
            && Play(st, es).(calls := st.calls, tasks := st.tasks, router := st.router) == st
            && Play(st, es).router == RouterState(st.router.pending, st.router.slots + [None])
            && |Play(st, es).calls| == c + 1 && Play(st, es).calls[..c] == st.calls
            && ReturnsFor(Returns(Play(st, es), c), h)
  {
    hide Legal, Play, Can, Next;
    var m := ToolRequest(id, job, host, |st.calls|);
    var reply := Reply(id, ReplyBody(h), |st.calls|, MadeByTask(|st.tasks|));
    AskPlaysOut(st, id, host, job, u);
    var called := Called(st, id, host, job, u);
    RelayPlaysOut(called, p, u, s, m);
    AgentPlaysOut(Tracking(called, p, m), a, s, AtProxy(p), m, h);
    var ran := Ran(called, a, id, job, |st.calls|, ReplyBody(h));
    ForwardPlaysOut(ran, p, u, s, a, m, reply);
    DeliverPlaysOut(Ran(st, a, id, job, |st.calls|, ReplyBody(h)), id, host, job, u, reply);
    var agent := [AtAgent(AgentStart(a))] + FinishEvents(|st.tasks|, h, true);
    var back := DeliverEvents(u, true) + AcceptEvents(|st.calls|);
    PlayAppend(Tracking(ran, p, m).(streams := On(st.streams, s, [], [reply])), ReplyEvents(s, true), back);
    PlayAppend(Tracking(called, p, m).(streams := On(st.streams, s, [m], [])), agent, ReplyEvents(s, true) + back);
    PlayAppend(called.(streams := On(st.streams, u, [m], [])), ToolRequestEvents(p, true, true),
               agent + (ReplyEvents(s, true) + back));
    PlayAppend(st, AskPart(st, id, host, job, u),
               ToolRequestEvents(p, true, true) + (agent + (ReplyEvents(s, true) + back)));
  }

  // ----- a host the proxy does not know -----

  function RefusedTrip(st: State, id: Id, host: Host, job: Job, p: nat, u: nat): seq<Event> {
    AskPart(st, id, host, job, u)
    + (ToolRequestEvents(p, false, true) + (DeliverEvents(u, true) + AcceptEvents(|st.calls|)))
  }

  lemma RefusePlaysOut(st: State, p: nat, u: nat, m: Msg)
    requires m.ToolRequest? && ProxyReady(st, p, u, m.id) && m.target !in st.proxies[p].relay.table
    ensures var asked := st.(streams := On(st.streams, u, [m], []));
            && Legal(asked, ToolRequestEvents(p, false, true))
            && Play(asked, ToolRequestEvents(p, false, true))
               == st.(streams := On(st.streams, u, [], [Refusal(m, p)]))
  {
    var asked := st.(streams := On(st.streams, u, [m], []));
    var e0, e1 := AtRelay(RelayLookup(p)), AtRelay(RelayRefuse(p, true));
    OnAndOff(st.streams, u, m, Free);
    OnAndOff(st.streams, u, Refusal(m, p), Free);
    var s1 := Next(asked, e0);
    assert s1.streams == st.streams;
    var s2 := Next(s1, e1);
    assert s2.proxies == st.proxies;
    PlayTwo(asked, e0, e1);
  }

  /** A call to a host its proxy does not know returns that error, and leaves nothing else behind. */
  lemma UnknownHostIsRefused(st: State, id: Id, host: Host, job: Job, p: nat, u: nat)
    requires CenterReady(st, id) && ProxyReady(st, p, u, id) && host !in st.proxies[p].relay.table
    ensures var es, c := RefusedTrip(st, id, host, job, p, u), |st.calls|;
            && Legal(st, es)
            && Play(st, es).(calls := st.calls, router := st.router) == st
            && Play(st, es).router == RouterState(st.router.pending, st.router.slots + [None])
            && |Play(st, es).calls| == c + 1 && Play(st, es).calls[..c] == st.calls
            && Returns(Play(st, es), c)
               == AgentError("HOST_NOT_FOUND", "proxy: target host " + host + " not found")
  {
    hide Legal, Play, Can, Next;
    var m := ToolRequest(id, job, host, |st.calls|);
    AskPlaysOut(st, id, host, job, u);
    var called := Called(st, id, host, job, u);
    RefusePlaysOut(called, p, u, m);
    DeliverPlaysOut(st, id, host, job, u, Refusal(m, p));
    var back := DeliverEvents(u, true) + AcceptEvents(|st.calls|);
    PlayAppend(called.(streams := On(st.streams, u, [m], [])), ToolRequestEvents(p, false, true), back);
    PlayAppend(st, AskPart(st, id, host, job, u), ToolRequestEvents(p, false, true) + back);
  }

  // ----- getting ready -----

  function ProxyConnects(p: nat): seq<Event> {
    [AtNetwork(ProxyDial(p)), AtNetwork(ProxyAck(p)), AtNetwork(ProxyUp(p))]
  }

  function AgentConnects(a: nat): seq<Event> {
    [AtNetwork(AgentDial(a)), AtNetwork(AgentAck(a)), AtNetwork(AgentUp(a))]
  }

  /** A proxy that dials, and is accepted, reads a new stream and has forgotten what it relayed over
      older ones. */
  lemma ProxyGetsReady(st: State, p: nat)
    requires p < |st.proxies| && st.proxies[p].link.Down?
    ensures Legal(st, ProxyConnects(p))
    ensures var u, x := |st.streams|, st.proxies[p];
            Play(st, ProxyConnects(p))
            == st.(streams := st.streams + [Stream(ProxyNode(p), Center, [], [], false, true, Free)],
                   proxies := st.proxies[p := x.(relay := RelayState(x.relay.table, map[]), link := Live(u), session := Some(u))])
  {
    var e0, e1, e2 := AtNetwork(ProxyDial(p)), AtNetwork(ProxyAck(p)), AtNetwork(ProxyUp(p));
    var s1 := Next(st, e0);
    var s2 := Next(s1, e1);
    assert s2.streams == st.streams + [Stream(ProxyNode(p), Center, [], [], false, true, Free)];
    PlayThree(st, e0, e1, e2);
  }

  lemma AgentGetsReady(st: State, a: nat)
    requires a < |st.agents| && st.agents[a].link.Down?
    ensures Legal(st, AgentConnects(a))
    ensures var s, x := |st.streams|, st.agents[a];
            Play(st, AgentConnects(a))
            == st.(streams := st.streams + [Stream(AgentNode(a), x.parent, [], [], false, true, Free)],
                   agents := st.agents[a := x.(link := Live(s))])
  {
    var e0, e1, e2 := AtNetwork(AgentDial(a)), AtNetwork(AgentAck(a)), AtNetwork(AgentUp(a));
    var s1 := Next(st, e0);
    var s2 := Next(s1, e1);
    assert s2.streams == st.streams + [Stream(AgentNode(a), st.agents[a].parent, [], [], false, true, Free)];
    PlayThree(st, e0, e1, e2);
  }

  /** From an initial state: a proxy and one of its agents connect, the agent's registration enters the
      proxy's table, and a call returns what its handler ends with. */
  lemma FirstCallReturns(st: State, p: nat, a: nat, id: Id, job: Job, h: Handled)
    requires Initial(st) && p < |st.proxies| && a < |st.agents| && st.agents[a].parent == AtProxy(p)
    ensures var host := st.agents[a].host;
            var up := ProxyConnects(p) + (AgentConnects(a) + [AtRelay(Retable(p, map[host := 1]))]);
            && Legal(st, up)
            && var ready := Play(st, up);
               && Legal(ready, ProxyTrip(ready, id, host, job, p, 0, a, 1, h))
               && var end := Play(ready, ProxyTrip(ready, id, host, job, p, 0, a, 1, h));
                  |end.calls| == 1 && ReturnsFor(Returns(end, 0), h)
  {
    var host := st.agents[a].host;
    var table := AtRelay(Retable(p, map[host := 1]));
    ProxyGetsReady(st, p);
    var s1 := Play(st, ProxyConnects(p));
    AgentGetsReady(s1, a);
    var s2 := Play(s1, AgentConnects(a));
    hide Legal, Play;
    PlayOne(s2, table);
    PlayAppend(s1, AgentConnects(a), [table]);
    PlayAppend(st, ProxyConnects(p), AgentConnects(a) + [table]);
    var ready := Play(st, ProxyConnects(p) + (AgentConnects(a) + [table]));
    assert ready == Next(s2, table);
    RelayedCallReturns(ready, id, host, job, p, 0, a, 1, h);
  }
}
