/** The tool-call protocol as a state machine.  One event is one atomic step of one goroutine:
    a map operation, a channel operation, or a send on a stream.  Receiving a message is merged
    with the map operation that follows it in the same goroutine.

    The center's registry does not appear: a call carries the stream its record names
    (`route`), which may be any stream that serves its host.  A proxy's registry is its routing
    table, which registration traffic may change to any other valid table at any time. */
module Protocol {
  import opened Tunnel
  import opened RouterTable
  import opened RelayTable
  import opened AgentTable

  datatype Phase = Stored | Waiting | Expired | Closing | Returned
  datatype Outcome = NoOutcome | SendFailed | TimedOut | Canceled | Got(reply: Msg)

  /** One execution of `Router.Send`. */
  datatype Call = Call(id: Id, host: Host, job: Job, route: nat, phase: Phase, outcome: Outcome)

  /** What the proxy's upstream read loop holds between two of its atomic steps. */
  datatype Reader =
    | Idle
    | Storing(req: Msg, to: nat)
    | Sending(req: Msg, to: nat)
    | Undoing(req: Msg)
    | Refusing(req: Msg)
    | CancelRouting(cancel: Msg, host: Host)
    | CancelSending(cancel: Msg, to: nat)

  /** `session` is the stream of the last registration the upstream accepted; no step reads it. */
  datatype Proxy = Proxy(relay: RelayState, reader: Reader, link: Link, session: Option<nat>)

  /** `cancelFns` maps a request ID to the goroutine whose context it cancels. */
  datatype Agent = Agent(host: Host, parent: Server, link: Link, cancelFns: CancelFns)

  datatype TaskPhase = Running | Replied | Done

  /** One goroutine started by `dispatch`. */
  datatype Task = Task(agent: nat, id: Id, job: Job, origin: nat,
                       phase: TaskPhase, canceled: bool, reply: Option<Body>)

  datatype State = State(
    router: RouterState, calls: seq<Call>, streams: seq<Stream>,
    proxies: seq<Proxy>, agents: seq<Agent>, tasks: seq<Task>)

  /** How a tool handler can end. */
  datatype Handled = UnknownTool(message: string) | Failed(message: string) | Succeeded(json: string)

  function ReplyBody(h: Handled): Body {
    match h
    case UnknownTool(message) => ErrorResponse("TOOL_NOT_FOUND", message)
    case Failed(message) => ErrorResponse("TOOL_ERROR", message)
    case Succeeded(json) => ToolResponse(json)
  }

  /** Steps of `Router.Send` and of the center's read loops. */
  datatype CenterEvent =
    | Begin(id: Id, host: Host, job: Job, route: nat)
    | SendRequest(c: nat, ok: bool)
    | Expire(c: nat, canceled: bool)
    | SendCancel(c: nat, ok: bool)
    | TakeReply(c: nat)
    | Return(c: nat)
    | CenterLoad(s: nat)
    | CenterPut(s: nat)

  /** Steps of a proxy. */
  datatype RelayEvent =
    | RelayLookup(p: nat)
    | RelayStore(p: nat)
    | RelaySend(p: nat, ok: bool)
    | RelayUndo(p: nat)
    | RelayRefuse(p: nat, ok: bool)
    | RelayCancel(p: nat)
    | RelayCancelLookup(p: nat)
    | RelayCancelSend(p: nat, ok: bool)
    | RelayReply(s: nat)
    | RelayForward(s: nat, ok: bool)
    | Retable(p: nat, table: map<Host, nat>)

  /** Steps of an agent's read loop and of its goroutines. */
  datatype AgentEvent =
    | AgentStart(a: nat)
    | AgentCancel(a: nat)
    | TaskReply(t: nat, handled: Handled, ok: bool)
    | TaskCleanup(t: nat)

  /** Dialers connecting and hanging up, and streams breaking. */
  datatype NetworkEvent =
    | ProxyDial(p: nat)
    | ProxyAck(p: nat)
    | ProxyUp(p: nat)
    | ProxyDown(p: nat)
    | AgentDial(a: nat)
    | AgentAck(a: nat)
    | AgentUp(a: nat)
    | AgentDown(a: nat)
    | Break(s: nat)
    | Lose(s: nat, keepDown: nat, keepUp: nat)

  datatype Event =
    | AtCenter(center: CenterEvent)
    | AtRelay(relay: RelayEvent)
    | AtAgent(agent: AgentEvent)
    | AtNetwork(network: NetworkEvent)

  // ----- queues -----

  /** A successful send.  What is sent on a stream that is already broken is lost. */
  function PushDown(ss: seq<Stream>, s: nat, m: Msg): seq<Stream>
    requires s < |ss|
  {
    if ss[s].broken then ss else ss[s := ss[s].(down := ss[s].down + [m])]
  }

  function PushUp(ss: seq<Stream>, s: nat, m: Msg): seq<Stream>
    requires s < |ss|
  {
    if ss[s].broken then ss else ss[s := ss[s].(up := ss[s].up + [m])]
  }

  function PopDown(ss: seq<Stream>, s: nat): seq<Stream>
    requires s < |ss| && |ss[s].down| > 0
  {
    ss[s := ss[s].(down := ss[s].down[1..])]
  }

  /** The server takes a message and holds `hand`. */
  function PopUp(ss: seq<Stream>, s: nat, hand: Hand): seq<Stream>
    requires s < |ss| && |ss[s].up| > 0
  {
    ss[s := ss[s].(up := ss[s].up[1..], hand := hand)]
  }

  /** A send on a stream fails only if the stream is broken. */
  predicate MaySend(st: State, s: nat, ok: bool) {
    s < |st.streams| && (ok || st.streams[s].broken)
  }

  // ----- routes -----

  /** A stream served by the center on which requests for `host` may be sent: it leads to a
      proxy or to an agent of that name. */
  predicate RouteOk(st: State, host: Host, s: nat) {
    && s < |st.streams|
    && st.streams[s].server == Center
    && match st.streams[s].client
       case AgentNode(a) => a < |st.agents| && st.agents[a].host == host
       case ProxyNode(p) => p < |st.proxies|
  }

  /** The same for a stream served by proxy `p`. */
  predicate TargetOk(st: State, p: nat, host: Host, s: nat) {
    && s < |st.streams|
    && st.streams[s].server == AtProxy(p)
    && match st.streams[s].client
       case AgentNode(a) => a < |st.agents| && st.agents[a].host == host
       case ProxyNode(_) => false
  }

  predicate TableOk(st: State, p: nat, table: map<Host, nat>) {
    forall h | h in table :: TargetOk(st, p, h, table[h])
  }

  // ----- the center's Send -----

  function DoBegin(st: State, id: Id, host: Host, job: Job, route: nat): State {
    st.(router := Store(st.router, id),
        calls := st.calls + [Call(id, host, job, route, Stored, NoOutcome)])
  }

  predicate CallIn(st: State, c: nat, phase: Phase) {
    c < |st.calls| && c < |st.router.slots| && st.calls[c].phase == phase
  }

  function Request(st: State, c: nat): Msg
    requires c < |st.calls|
  {
    ToolRequest(st.calls[c].id, st.calls[c].job, st.calls[c].host, c)
  }

  function DoSendRequest(st: State, c: nat, ok: bool): State
    requires CallIn(st, c, Stored) && MaySend(st, st.calls[c].route, ok)
  {
    if ok then
      st.(streams := PushDown(st.streams, st.calls[c].route, Request(st, c)),
          calls := st.calls[c := st.calls[c].(phase := Waiting)])
    else
      st.(calls := st.calls[c := st.calls[c].(phase := Closing, outcome := SendFailed)])
  }

  function DoExpire(st: State, c: nat, canceled: bool): State
    requires CallIn(st, c, Waiting)
  {
    st.(calls := st.calls[c := st.calls[c].(phase := Expired,
                                             outcome := if canceled then Canceled else TimedOut)])
  }

  function DoSendCancel(st: State, c: nat, ok: bool): State
    requires CallIn(st, c, Expired) && MaySend(st, st.calls[c].route, ok)
  {
    var closing := st.(calls := st.calls[c := st.calls[c].(phase := Closing)]);
    if ok then
      closing.(streams := PushDown(st.streams, st.calls[c].route, CancelRequest(st.calls[c].id, c)))
    else
      closing
  }

  predicate CanTakeReply(st: State, c: nat) {
    CallIn(st, c, Waiting) && st.router.slots[c].Some?
  }

  function DoTakeReply(st: State, c: nat): State
    requires CanTakeReply(st, c)
  {
    st.(router := Take(st.router, c),
        calls := st.calls[c := st.calls[c].(phase := Closing, outcome := Got(st.router.slots[c].value))])
  }

  function DoReturn(st: State, c: nat): State
    requires CallIn(st, c, Closing)
  {
    st.(router := Delete(st.router, st.calls[c].id),
        calls := st.calls[c := st.calls[c].(phase := Returned)])
  }

  // ----- the center's read loops -----

  /** The reader of stream `s` on side `server` is free and its next message is a reply. */
  predicate ReplyWaits(st: State, s: nat) {
    && s < |st.streams|
    && st.streams[s].hand == Free
    && |st.streams[s].up| > 0
    && st.streams[s].up[0].Reply?
  }

  predicate CanCenterLoad(st: State, s: nat) {
    ReplyWaits(st, s) && st.streams[s].server == Center
  }

  function DoCenterLoad(st: State, s: nat): State
    requires CanCenterLoad(st, s)
  {
    var m := st.streams[s].up[0];
    var hand := if m.id in st.router.pending then Putting(m, st.router.pending[m.id]) else Free;
    st.(streams := PopUp(st.streams, s, hand))
  }

  predicate CanCenterPut(st: State, s: nat) {
    && s < |st.streams|
    && st.streams[s].hand.Putting?
    && st.streams[s].hand.slot < |st.router.slots|
  }

  function DoCenterPut(st: State, s: nat): State
    requires CanCenterPut(st, s)
  {
    var hand := st.streams[s].hand;
    st.(router := Put(st.router, hand.slot, hand.reply),
        streams := st.streams[s := st.streams[s].(hand := Free)])
  }

  // ----- the proxy's upstream read loop -----

  predicate ReaderFree(st: State, p: nat) {
    && p < |st.proxies|
    && st.proxies[p].reader == Idle
    && st.proxies[p].link.Live?
    && st.proxies[p].link.stream < |st.streams|
    && |st.streams[st.proxies[p].link.stream].down| > 0
  }

  function NextUpstream(st: State, p: nat): Msg
    requires ReaderFree(st, p)
  {
    st.streams[st.proxies[p].link.stream].down[0]
  }

  predicate CanRelayLookup(st: State, p: nat) {
    ReaderFree(st, p) && NextUpstream(st, p).ToolRequest?
  }

  function DoRelayLookup(st: State, p: nat): State
    requires CanRelayLookup(st, p)
  {
    var x := st.proxies[p];
    var req := NextUpstream(st, p);
    var reader := if req.target in x.relay.table then Storing(req, x.relay.table[req.target])
                  else Refusing(req);
    st.(streams := PopDown(st.streams, x.link.stream),
        proxies := st.proxies[p := x.(reader := reader)])
  }

  predicate CanRelayStore(st: State, p: nat) {
    p < |st.proxies| && st.proxies[p].reader.Storing? && st.proxies[p].reader.req.ToolRequest?
  }

  function DoRelayStore(st: State, p: nat): State
    requires CanRelayStore(st, p)
  {
    var x := st.proxies[p];
    st.(proxies := st.proxies[p := x.(relay := Track(x.relay, x.reader.req),
                                      reader := Sending(x.reader.req, x.reader.to))])
  }

  predicate CanRelaySend(st: State, p: nat, ok: bool) {
    p < |st.proxies| && st.proxies[p].reader.Sending? && MaySend(st, st.proxies[p].reader.to, ok)
  }

  function DoRelaySend(st: State, p: nat, ok: bool): State
    requires CanRelaySend(st, p, ok)
  {
    var x := st.proxies[p];
    if ok then
      st.(streams := PushDown(st.streams, x.reader.to, x.reader.req),
          proxies := st.proxies[p := x.(reader := Idle)])
    else
      st.(proxies := st.proxies[p := x.(reader := Undoing(x.reader.req))])
  }

  predicate CanRelayUndo(st: State, p: nat) {
    p < |st.proxies| && st.proxies[p].reader.Undoing?
  }

  function DoRelayUndo(st: State, p: nat): State
    requires CanRelayUndo(st, p)
  {
    var x := st.proxies[p];
    st.(proxies := st.proxies[p := x.(relay := Forget(x.relay, x.reader.req.id), reader := Idle)])
  }

  /** A send through the proxy's dialer: it fails when there is no live stream. */
  predicate MaySendUp(st: State, link: Link, ok: bool) {
    if link.Live? then MaySend(st, link.stream, ok) else !ok
  }

  predicate CanRelayRefuse(st: State, p: nat, ok: bool) {
    && p < |st.proxies|
    && st.proxies[p].reader.Refusing?
    && st.proxies[p].reader.req.ToolRequest?
    && MaySendUp(st, st.proxies[p].link, ok)
  }

  function DoRelayRefuse(st: State, p: nat, ok: bool): State
    requires CanRelayRefuse(st, p, ok)
  {
    var x := st.proxies[p];
    var idle := st.(proxies := st.proxies[p := x.(reader := Idle)]);
    if ok then idle.(streams := PushUp(st.streams, x.link.stream, Refusal(x.reader.req, p))) else idle
  }

  predicate CanRelayCancel(st: State, p: nat) {
    ReaderFree(st, p) && NextUpstream(st, p).CancelRequest?
  }

  function DoRelayCancel(st: State, p: nat): State
    requires CanRelayCancel(st, p)
  {
    var x := st.proxies[p];
    var m := NextUpstream(st, p);
    var reader := if m.id in x.relay.pendingRequests
                  then CancelRouting(m, x.relay.pendingRequests[m.id].host) else Idle;
    st.(streams := PopDown(st.streams, x.link.stream),
        proxies := st.proxies[p := x.(relay := Forget(x.relay, m.id), reader := reader)])
  }

  predicate CanRelayCancelLookup(st: State, p: nat) {
    p < |st.proxies| && st.proxies[p].reader.CancelRouting?
  }

  function DoRelayCancelLookup(st: State, p: nat): State
    requires CanRelayCancelLookup(st, p)
  {
    var x := st.proxies[p];
    var reader := if x.reader.host in x.relay.table
                  then CancelSending(x.reader.cancel, x.relay.table[x.reader.host]) else Idle;
    st.(proxies := st.proxies[p := x.(reader := reader)])
  }

  predicate CanRelayCancelSend(st: State, p: nat, ok: bool) {
    p < |st.proxies| && st.proxies[p].reader.CancelSending? && MaySend(st, st.proxies[p].reader.to, ok)
  }

  function DoRelayCancelSend(st: State, p: nat, ok: bool): State
    requires CanRelayCancelSend(st, p, ok)
  {
    var x := st.proxies[p];
    var idle := st.(proxies := st.proxies[p := x.(reader := Idle)]);
    if ok then idle.(streams := PushDown(st.streams, x.reader.to, x.reader.cancel)) else idle
  }

  // ----- the proxy's downstream handlers -----

  predicate CanRelayReply(st: State, s: nat) {
    && ReplyWaits(st, s)
    && st.streams[s].server.AtProxy?
    && st.streams[s].server.proxy < |st.proxies|
  }

  function DoRelayReply(st: State, s: nat): State
    requires CanRelayReply(st, s)
  {
    var m := st.streams[s].up[0];
    var p := st.streams[s].server.proxy;
    var x := st.proxies[p];
    st.(streams := PopUp(st.streams, s, Forwarding(m)),
        proxies := st.proxies[p := x.(relay := Forget(x.relay, m.id))])
  }

  predicate CanRelayForward(st: State, s: nat, ok: bool) {
    && s < |st.streams|
    && st.streams[s].hand.Forwarding?
    && st.streams[s].server.AtProxy?
    && st.streams[s].server.proxy < |st.proxies|
    && MaySendUp(st, st.proxies[st.streams[s].server.proxy].link, ok)
  }

  function DoRelayForward(st: State, s: nat, ok: bool): State
    requires CanRelayForward(st, s, ok)
  {
    var m := st.streams[s].hand.reply;
    var free := st.streams[s := st.streams[s].(hand := Free)];
    if ok then
      st.(streams := PushUp(free, st.proxies[st.streams[s].server.proxy].link.stream, m))
    else
      st.(streams := free)
  }

  // ----- the agent -----

  predicate AgentReads(st: State, a: nat) {
    && a < |st.agents|
    && st.agents[a].link.Live?
    && st.agents[a].link.stream < |st.streams|
    && |st.streams[st.agents[a].link.stream].down| > 0
  }

  function NextForAgent(st: State, a: nat): Msg
    requires AgentReads(st, a)
  {
    st.streams[st.agents[a].link.stream].down[0]
  }

  predicate CanAgentStart(st: State, a: nat) {
    AgentReads(st, a) && NextForAgent(st, a).ToolRequest?
  }

  function DoAgentStart(st: State, a: nat): State
    requires CanAgentStart(st, a)
  {
    var x := st.agents[a];
    var m := NextForAgent(st, a);
    st.(streams := PopDown(st.streams, x.link.stream),
        agents := st.agents[a := x.(cancelFns := Started(x.cancelFns, m.id, |st.tasks|))],
        tasks := st.tasks + [Task(a, m.id, m.job, m.origin, Running, false, None)])
  }

  predicate CanAgentCancel(st: State, a: nat) {
    && AgentReads(st, a)
    && NextForAgent(st, a).CancelRequest?
    && var x := st.agents[a]; var id := NextForAgent(st, a).id;
       (id in x.cancelFns ==> x.cancelFns[id] < |st.tasks|)
  }

  function DoAgentCancel(st: State, a: nat): State
    requires CanAgentCancel(st, a)
  {
    var x := st.agents[a];
    var id := NextForAgent(st, a).id;
    var popped := PopDown(st.streams, x.link.stream);
    if id in x.cancelFns then
      var t := x.cancelFns[id];
      st.(streams := popped,
          agents := st.agents[a := x.(cancelFns := Dropped(x.cancelFns, id))],
          tasks := st.tasks[t := st.tasks[t].(canceled := true)])
    else
      st.(streams := popped)
  }

  predicate CanTaskReply(st: State, t: nat, ok: bool) {
    && t < |st.tasks|
    && st.tasks[t].phase == Running
    && st.tasks[t].agent < |st.agents|
    && MaySendUp(st, st.agents[st.tasks[t].agent].link, ok)
  }

  function DoTaskReply(st: State, t: nat, handled: Handled, ok: bool): State
    requires CanTaskReply(st, t, ok)
  {
    var x := st.tasks[t];
    var body := ReplyBody(handled);
    var replied := st.(tasks := st.tasks[t := x.(phase := Replied, reply := Some(body))]);
    if ok then
      replied.(streams := PushUp(st.streams, st.agents[x.agent].link.stream,
                                 Reply(x.id, body, x.origin, MadeByTask(t))))
    else
      replied
  }

  predicate CanTaskCleanup(st: State, t: nat) {
    t < |st.tasks| && st.tasks[t].phase == Replied && st.tasks[t].agent < |st.agents|
  }

  function DoTaskCleanup(st: State, t: nat): State
    requires CanTaskCleanup(st, t)
  {
    var x := st.tasks[t];
    var g := st.agents[x.agent];
    st.(tasks := st.tasks[t := x.(phase := Done, canceled := true)],
        agents := st.agents[x.agent := g.(cancelFns := Dropped(g.cancelFns, x.id))])
  }

  // ----- dialers and the network -----

  function Opened(client: Client, server: Server): Stream {
    Stream(client, server, [], [], false, false, Free)
  }

  function DoProxyDial(st: State, p: nat): State
    requires p < |st.proxies|
  {
    st.(streams := st.streams + [Opened(ProxyNode(p), Center)],
        proxies := st.proxies[p := st.proxies[p].(link := Dialing(|st.streams|))])
  }

  /** `OnRegisterAck`: the stale relay entries are dropped before the new stream is in use, so
      the re-registrations that follow find no live stream and are not sent. */
  function DoProxyAck(st: State, p: nat): State
    requires p < |st.proxies| && st.proxies[p].link.Dialing? && st.proxies[p].link.stream < |st.streams|
  {
    var x := st.proxies[p];
    var s := x.link.stream;
    st.(streams := st.streams[s := st.streams[s].(accepted := true)],
        proxies := st.proxies[p := x.(relay := Clear(x.relay), link := Acked(s), session := Some(s))])
  }

  function DoProxyUp(st: State, p: nat): State
    requires p < |st.proxies| && st.proxies[p].link.Acked?
  {
    var x := st.proxies[p];
    st.(proxies := st.proxies[p := x.(link := Live(x.link.stream))])
  }

  function Cut(ss: seq<Stream>, s: nat): seq<Stream>
    requires s < |ss|
  {
    ss[s := ss[s].(broken := true)]
  }

  predicate LinkUsed(st: State, link: Link) {
    !link.Down? && link.stream < |st.streams|
  }

  function DoProxyDown(st: State, p: nat): State
    requires p < |st.proxies| && LinkUsed(st, st.proxies[p].link)
  {
    var x := st.proxies[p];
    st.(streams := Cut(st.streams, x.link.stream), proxies := st.proxies[p := x.(link := Down)])
  }

  function DoAgentDial(st: State, a: nat): State
    requires a < |st.agents|
  {
    var x := st.agents[a];
    st.(streams := st.streams + [Opened(AgentNode(a), x.parent)],
        agents := st.agents[a := x.(link := Dialing(|st.streams|))])
  }

  function DoAgentAck(st: State, a: nat): State
    requires a < |st.agents| && st.agents[a].link.Dialing? && st.agents[a].link.stream < |st.streams|
  {
    var x := st.agents[a];
    var s := x.link.stream;
    st.(streams := st.streams[s := st.streams[s].(accepted := true)],
        agents := st.agents[a := x.(link := Acked(s))])
  }

  function DoAgentUp(st: State, a: nat): State
    requires a < |st.agents| && st.agents[a].link.Acked?
  {
    var x := st.agents[a];
    st.(agents := st.agents[a := x.(link := Live(x.link.stream))])
  }

  function DoAgentDown(st: State, a: nat): State
    requires a < |st.agents| && LinkUsed(st, st.agents[a].link)
  {
    var x := st.agents[a];
    st.(streams := Cut(st.streams, x.link.stream), agents := st.agents[a := x.(link := Down)])
  }

  function DoRetable(st: State, p: nat, table: map<Host, nat>): State
    requires p < |st.proxies|
  {
    var x := st.proxies[p];
    st.(proxies := st.proxies[p := x.(relay := x.relay.(table := table))])
  }

  predicate CanLose(st: State, s: nat, keepDown: nat, keepUp: nat) {
    && s < |st.streams|
    && st.streams[s].broken
    && keepDown <= |st.streams[s].down|
    && keepUp <= |st.streams[s].up|
  }

  function DoLose(st: State, s: nat, keepDown: nat, keepUp: nat): State
    requires CanLose(st, s, keepDown, keepUp)
  {
    var x := st.streams[s];
    st.(streams := st.streams[s := x.(down := x.down[..keepDown], up := x.up[..keepUp])])
  }

  // ----- runs -----

  predicate CanCenter(st: State, e: CenterEvent) {
    match e
    case Begin(_, host, _, route) => RouteOk(st, host, route)
    case SendRequest(c, ok) => CallIn(st, c, Stored) && MaySend(st, st.calls[c].route, ok)
    case Expire(c, _) => CallIn(st, c, Waiting)
    case SendCancel(c, ok) => CallIn(st, c, Expired) && MaySend(st, st.calls[c].route, ok)
    case TakeReply(c) => CanTakeReply(st, c)
    case Return(c) => CallIn(st, c, Closing)
    case CenterLoad(s) => CanCenterLoad(st, s)
    case CenterPut(s) => CanCenterPut(st, s)
  }

  function NextCenter(st: State, e: CenterEvent): State
    requires CanCenter(st, e)
  {
    match e
    case Begin(id, host, job, route) => DoBegin(st, id, host, job, route)
    case SendRequest(c, ok) => DoSendRequest(st, c, ok)
    case Expire(c, canceled) => DoExpire(st, c, canceled)
    case SendCancel(c, ok) => DoSendCancel(st, c, ok)
    case TakeReply(c) => DoTakeReply(st, c)
    case Return(c) => DoReturn(st, c)
    case CenterLoad(s) => DoCenterLoad(st, s)
    case CenterPut(s) => DoCenterPut(st, s)
  }

  predicate CanRelay(st: State, e: RelayEvent) {
    match e
    case RelayLookup(p) => CanRelayLookup(st, p)
    case RelayStore(p) => CanRelayStore(st, p)
    case RelaySend(p, ok) => CanRelaySend(st, p, ok)
    case RelayUndo(p) => CanRelayUndo(st, p)
    case RelayRefuse(p, ok) => CanRelayRefuse(st, p, ok)
    case RelayCancel(p) => CanRelayCancel(st, p)
    case RelayCancelLookup(p) => CanRelayCancelLookup(st, p)
    case RelayCancelSend(p, ok) => CanRelayCancelSend(st, p, ok)
    case RelayReply(s) => CanRelayReply(st, s)
    case RelayForward(s, ok) => CanRelayForward(st, s, ok)
    case Retable(p, table) => p < |st.proxies| && TableOk(st, p, table)
  }

  function NextRelay(st: State, e: RelayEvent): State
    requires CanRelay(st, e)
  {
    match e
    case RelayLookup(p) => DoRelayLookup(st, p)
    case RelayStore(p) => DoRelayStore(st, p)
    case RelaySend(p, ok) => DoRelaySend(st, p, ok)
    case RelayUndo(p) => DoRelayUndo(st, p)
    case RelayRefuse(p, ok) => DoRelayRefuse(st, p, ok)
    case RelayCancel(p) => DoRelayCancel(st, p)
    case RelayCancelLookup(p) => DoRelayCancelLookup(st, p)
    case RelayCancelSend(p, ok) => DoRelayCancelSend(st, p, ok)
    case RelayReply(s) => DoRelayReply(st, s)
    case RelayForward(s, ok) => DoRelayForward(st, s, ok)
    case Retable(p, table) => DoRetable(st, p, table)
  }

  predicate CanAgent(st: State, e: AgentEvent) {
    match e
    case AgentStart(a) => CanAgentStart(st, a)
    case AgentCancel(a) => CanAgentCancel(st, a)
    case TaskReply(t, _, ok) => CanTaskReply(st, t, ok)
    case TaskCleanup(t) => CanTaskCleanup(st, t)
  }

  function NextAgent(st: State, e: AgentEvent): State
    requires CanAgent(st, e)
  {
    match e
    case AgentStart(a) => DoAgentStart(st, a)
    case AgentCancel(a) => DoAgentCancel(st, a)
    case TaskReply(t, handled, ok) => DoTaskReply(st, t, handled, ok)
    case TaskCleanup(t) => DoTaskCleanup(st, t)
  }

  predicate CanNetwork(st: State, e: NetworkEvent) {
    match e
    case ProxyDial(p) => p < |st.proxies| && st.proxies[p].link.Down?
    case ProxyAck(p) =>
      p < |st.proxies| && st.proxies[p].link.Dialing? && st.proxies[p].link.stream < |st.streams|
    case ProxyUp(p) => p < |st.proxies| && st.proxies[p].link.Acked?
    case ProxyDown(p) =>
      p < |st.proxies| && st.proxies[p].reader == Idle && LinkUsed(st, st.proxies[p].link)
    case AgentDial(a) => a < |st.agents| && st.agents[a].link.Down?
    case AgentAck(a) =>
      a < |st.agents| && st.agents[a].link.Dialing? && st.agents[a].link.stream < |st.streams|
    case AgentUp(a) => a < |st.agents| && st.agents[a].link.Acked?
    case AgentDown(a) => a < |st.agents| && LinkUsed(st, st.agents[a].link)
    case Break(s) => s < |st.streams|
    case Lose(s, keepDown, keepUp) => CanLose(st, s, keepDown, keepUp)
  }

  function NextNetwork(st: State, e: NetworkEvent): State
    requires CanNetwork(st, e)
  {
    match e
    case ProxyDial(p) => DoProxyDial(st, p)
    case ProxyAck(p) => DoProxyAck(st, p)
    case ProxyUp(p) => DoProxyUp(st, p)
    case ProxyDown(p) => DoProxyDown(st, p)
    case AgentDial(a) => DoAgentDial(st, a)
    case AgentAck(a) => DoAgentAck(st, a)
    case AgentUp(a) => DoAgentUp(st, a)
    case AgentDown(a) => DoAgentDown(st, a)
    case Break(s) => st.(streams := Cut(st.streams, s))
    case Lose(s, keepDown, keepUp) => DoLose(st, s, keepDown, keepUp)
  }

  predicate Can(st: State, e: Event) {
    match e
    case AtCenter(x) => CanCenter(st, x)
    case AtRelay(x) => CanRelay(st, x)
    case AtAgent(x) => CanAgent(st, x)
    case AtNetwork(x) => CanNetwork(st, x)
  }

  function Next(st: State, e: Event): State
    requires Can(st, e)
  {
    match e
    case AtCenter(x) => NextCenter(st, x)
    case AtRelay(x) => NextRelay(st, x)
    case AtAgent(x) => NextAgent(st, x)
    case AtNetwork(x) => NextNetwork(st, x)
  }

  /** Nothing has happened yet.  Each agent and each proxy dials one fixed parent. */
  predicate Initial(st: State) {
    && st.router == RouterState(map[], [])
    && st.calls == [] && st.streams == [] && st.tasks == []
    && (forall p | 0 <= p < |st.proxies| ::
          st.proxies[p] == Proxy(RelayState(map[], map[]), Idle, Down, None))
    && (forall a | 0 <= a < |st.agents| ::
          && st.agents[a].link == Down
          && st.agents[a].cancelFns == map[]
          && (st.agents[a].parent.AtProxy? ==> st.agents[a].parent.proxy < |st.proxies|))
  }

  // ----- request IDs in flight -----

  ghost predicate NoMessage(st: State, id: Id) {
    forall s | 0 <= s < |st.streams| ::
      && (forall i | 0 <= i < |st.streams[s].down| :: st.streams[s].down[i].id != id)
      && (forall i | 0 <= i < |st.streams[s].up| :: st.streams[s].up[i].id != id)
      && (st.streams[s].hand != Free ==> st.streams[s].hand.reply.id != id)
  }

  function Held(r: Reader): Option<Msg> {
    match r
    case Idle => None
    case Storing(req, _) => Some(req)
    case Sending(req, _) => Some(req)
    case Undoing(req) => Some(req)
    case Refusing(req) => Some(req)
    case CancelRouting(cancel, _) => Some(cancel)
    case CancelSending(cancel, _) => Some(cancel)
  }

  /** No message, no goroutine, no relay entry and no unfinished call carries `id`. */
  ghost predicate IdFree(st: State, id: Id) {
    && NoMessage(st, id)
    && (forall p | 0 <= p < |st.proxies| ::
          && (Held(st.proxies[p].reader).Some? ==> Held(st.proxies[p].reader).value.id != id)
          && id !in st.proxies[p].relay.pendingRequests)
    && (forall t | 0 <= t < |st.tasks| :: st.tasks[t].phase != Done ==> st.tasks[t].id != id)
    && (forall c | 0 <= c < |st.calls| :: st.calls[c].phase != Returned ==> st.calls[c].id != id)
  }

  /** `es` is a run from `st` in which every call begins with an ID that is free at that
      moment. */
  ghost predicate Run(st: State, es: seq<Event>)
    decreases |es|
  {
    es == [] ||
    (&& Can(st, es[0])
     && (es[0].AtCenter? && es[0].center.Begin? ==> IdFree(st, es[0].center.id))
     && Run(Next(st, es[0]), es[1..]))
  }

  ghost function After(st: State, es: seq<Event>): State
    requires Run(st, es)
    decreases |es|
  {
    if es == [] then st else After(Next(st, es[0]), es[1..])
  }
}
