/** The router, the proxy and the agent with the state they update in place.  Each method is one
    function of the program, run without interruption.  Its contract says that it refines the
    protocol: if the object holds what the protocol's state `st` has for it, then the events of
    that function are possible in `st`, and afterwards the object, and the streams it sends on, hold
    what the state after these events has. */
module Components {
  import opened Tunnel
  import opened RouterTable
  import opened RelayTable
  import opened AgentTable
  import opened Protocol
  import opened ProtocolTheorems
  import opened ComponentRuns

  datatype Registration = Registration(host: Host, path: seq<Host>)

  /** The sending side of a stream.  `sent` is what has been sent and not read yet; a send on a
      stream that is not live fails. */
  class Wire {
    var live: bool
    var sent: seq<Msg>
    var registrations: seq<Registration>

    constructor ()
      ensures live && sent == [] && registrations == []
    {
      live, sent, registrations := true, [], [];
    }

    /** The server's side of stream `s`. */
    ghost predicate IsDown(st: State, s: nat)
      reads this
    {
      s < |st.streams| && live == !st.streams[s].broken && sent == st.streams[s].down
    }

    /** The client's side of the stream its dialer has, if it has one. */
    ghost predicate IsUp(st: State, link: Link)
      reads this
    {
      if link.Live? then
        link.stream < |st.streams| && live == !st.streams[link.stream].broken && sent == st.streams[link.stream].up
      else !live
    }

    method Send(m: Msg) returns (ok: bool)
      modifies this`sent
      ensures ok == live
      ensures sent == old(sent) + if ok then [m] else []
    {
      ok := live;
      if ok {
        sent := sent + [m];
      }
    }

    method SendRegistration(r: Registration) returns (ok: bool)
      modifies this`registrations
      ensures ok == live
      ensures registrations == old(registrations) + if ok then [r] else []
    {
      ok := live;
      if ok {
        registrations := registrations + [r];
      }
    }
  }

  // ----- the center's router -----

  class Router {
    var pending: map<Id, nat>
    var slots: seq<Option<Msg>>

    ghost predicate Valid()
      reads this
    {
      forall id | id in pending :: pending[id] < |slots|
    }

    ghost predicate Holds(st: State)
      reads this
    {
      st.router == RouterState(pending, slots) && |st.calls| == |slots|
    }

    constructor ()
      ensures Valid() && pending == map[] && slots == []
    {
      pending, slots := map[], [];
    }

    /** The part of `Send` before it waits.  When the send fails the slot is given up at once, and the
        call has returned the error. */
    method Ask(req: Msg, wire: Wire, ghost st: State, ghost route: nat) returns (c: nat, ok: bool)
      requires Valid() && Holds(st) && wire.IsDown(st, route)
      requires req.ToolRequest? && req.origin == |slots| && RouteOk(st, req.target, route)
      modifies this, wire`sent
      ensures Valid() && c == req.origin && ok == wire.live
      ensures Legal(st, AskEvents(req, route, ok))
      ensures var st' := Play(st, AskEvents(req, route, ok));
              c < |st'.calls| && Returns(st', c) == if ok then Unfinished else SendError
      ensures Holds(Play(st, AskEvents(req, route, ok))) && wire.IsDown(Play(st, AskEvents(req, route, ok)), route)
    {
      hide Legal, Play, AskEvents;
      AskPlays(st, req, route);
      c := |slots|;
      slots := slots + [None];
      pending := pending[req.id := c];
      ok := wire.Send(req);
      if !ok {
        pending := pending - {req.id};
      }
    }

    /** The part of `Send` after the context is done: the cancel is sent whether or not the
        send succeeds.  The error returned says whether the caller canceled or the time ran out. */
    method GiveUp(id: Id, c: nat, wire: Wire, canceled: bool, ghost st: State) returns (r: SendResult)
      requires Valid() && Holds(st) && CallIn(st, c, Waiting) && st.calls[c].id == id
      requires wire.IsDown(st, st.calls[c].route)
      modifies this, wire`sent
      ensures Valid() && Legal(st, GiveUpEvents(c, canceled, wire.live))
      ensures Holds(Play(st, GiveUpEvents(c, canceled, wire.live)))
      ensures wire.IsDown(Play(st, GiveUpEvents(c, canceled, wire.live)), st.calls[c].route)
      ensures canceled ==> r == Cancel
      ensures !canceled ==> r == Timeout
      ensures var st' := Play(st, GiveUpEvents(c, canceled, wire.live)); c < |st'.calls| && Returns(st', c) == r
    {
      hide Legal, Play, GiveUpEvents;
      GiveUpPlays(st, c, canceled);
      var _ := wire.Send(CancelRequest(id, c));
      pending := pending - {id};
      if canceled {
        return Cancel;
      }
      return Timeout;
    }

    /** The part of `Send` after a reply is in the slot.  What is returned is the reply's content. */
    method Accept(id: Id, c: nat, ghost st: State) returns (r: SendResult)
      requires Valid() && Holds(st) && CanTakeReply(st, c) && st.calls[c].id == id
      modifies this
      ensures Valid() && Legal(st, AcceptEvents(c)) && Holds(Play(st, AcceptEvents(c)))
      ensures var m := st.router.slots[c].value;
              match r
              case Result(json) => m.Reply? && m.body == ToolResponse(json)
              case AgentError(code, message) => m.Reply? && m.body == ErrorResponse(code, message)
              case SendError => !m.Reply?
              case _ => false
      ensures var st' := Play(st, AcceptEvents(c)); c < |st'.calls| && Returns(st', c) == r
    {
      hide Legal, Play, AcceptEvents;
      AcceptPlays(st, c);
      var m := slots[c].value;
      slots := slots[c := None];
      pending := pending - {id};
      match m
      case Reply(_, ToolResponse(json), _, _) => return Result(json);
      case Reply(_, ErrorResponse(code, message), _, _) => return AgentError(code, message);
      case _ => return SendError;
    }

    /** Load and a non-blocking send: a reply nobody waits for, or that finds its slot full, is
        dropped. */
    method Deliver(id: Id, m: Msg, ghost st: State, ghost s: nat)
      requires Valid() && Holds(st) && CanCenterLoad(st, s) && st.streams[s].up[0] == m && m.id == id
      modifies this
      ensures Valid() && Legal(st, DeliverEvents(s, id in old(pending)))
      ensures Holds(Play(st, DeliverEvents(s, id in old(pending))))
      ensures Play(st, DeliverEvents(s, id in old(pending))).streams
              == st.streams[s := st.streams[s].(up := st.streams[s].up[1..], hand := Free)]
    {
      hide Legal, Play, DeliverEvents;
      DeliverPlays(st, s);
      if id !in pending {
        return;
      }
      var c := pending[id];
      if slots[c].None? {
        slots := slots[c := Some(m)];
      }
    }

    /** Only replies are delivered. */
    method DeliverFromMessage(m: Msg, ghost st: State, ghost s: nat)
      requires Valid() && Holds(st) && (m.Reply? ==> CanCenterLoad(st, s) && st.streams[s].up[0] == m)
      modifies this
      ensures Valid()
      ensures m.Reply? ==>
                && Legal(st, DeliverEvents(s, m.id in old(pending)))
                && Holds(Play(st, DeliverEvents(s, m.id in old(pending))))
      ensures !m.Reply? ==> Holds(st)
    {
      match m
      case Reply(id, _, _, _) => Deliver(id, m, st, s);
      case _ =>
    }
  }

  // ----- the proxy -----

  datatype Downstream = Downstream(host: Host, path: seq<Host>, online: bool)

  /** What `ReregisterAll` sends while the upstream is live. */
  function Reregistrations(proxy: Host, records: seq<Downstream>): seq<Registration> {
    if records == [] then []
    else (if records[0].online then [Registration(records[0].host, [proxy] + records[0].path)] else [])
         + Reregistrations(proxy, records[1..])
  }

  lemma {:induction false} ReregistrationsAppend(proxy: Host, records: seq<Downstream>, r: Downstream)
    ensures Reregistrations(proxy, records + [r])
            == Reregistrations(proxy, records)
               + if r.online then [Registration(r.host, [proxy] + r.path)] else []
  {
    if records != [] {
      assert (records + [r])[1..] == records[1..] + [r];
      ReregistrationsAppend(proxy, records[1..], r);
    }
  }

  class DownstreamService {
    const number: nat
    const hostname: Host
    var routes: map<Host, Wire>
    var pendingRequests: map<Id, Entry>
    const upstream: Wire

    constructor (number: nat, hostname: Host, upstream: Wire)
      ensures this.number == number && this.hostname == hostname && this.upstream == upstream
      ensures routes == map[] && pendingRequests == map[]
    {
      this.number, this.hostname, this.upstream := number, hostname, upstream;
      routes, pendingRequests := map[], map[];
    }

    /** Hosts are reached on the same stream exactly if they have the same wire, and none is reached
        on the upstream. */
    ghost predicate HoldsRoutes(st: State)
      requires number < |st.proxies|
      reads this, routes.Values
    {
      var table, link := st.proxies[number].relay.table, st.proxies[number].link;
      && routes.Keys == table.Keys
      && upstream !in routes.Values
      && (forall h | h in routes :: routes[h].IsDown(st, table[h]) && (link.Live? ==> table[h] != link.stream))
      && (forall h, k | h in routes && k in routes :: table[h] == table[k] <==> routes[h] == routes[k])
    }

    ghost predicate Holds(st: State)
      reads this, upstream, routes.Values
    {
      && number < |st.proxies|
      && pendingRequests == st.proxies[number].relay.pendingRequests
      && upstream.IsUp(st, st.proxies[number].link)
      && HoldsRoutes(st)
    }

    method DeliverToolRequest(m: Msg, ghost st: State)
      requires Holds(st) && CanRelayLookup(st, number) && NextUpstream(st, number) == m
      modifies this`pendingRequests, upstream`sent, routes.Values`sent
      ensures var ok := if m.target in routes then routes[m.target].live else upstream.live;
              var es := ToolRequestEvents(number, m.target in routes, ok);
              Legal(st, es) && Holds(Play(st, es)) && Play(st, es).proxies[number].reader == Idle
    {
      hide Legal, Play, ToolRequestEvents;
      if m.target !in routes {
        RefusalPlays(st, number);
        var _ := upstream.Send(Refusal(m, number));
        return;
      }
      RequestPlays(st, number);
      var wire := routes[m.target];
      pendingRequests := pendingRequests[m.id := Entry(m.target, m.origin)];
      var ok := wire.Send(m);
      if !ok {
        pendingRequests := pendingRequests - {m.id};
      }
    }

    method DeliverCancelRequest(m: Msg, ghost st: State)
      requires Holds(st) && CanRelayCancel(st, number) && NextUpstream(st, number) == m
      modifies this`pendingRequests, routes.Values`sent
      ensures var known := m.id in old(pendingRequests);
              var registered := known && old(pendingRequests)[m.id].host in routes;
              var es := CancelEvents(number, known, registered,
                                     registered && routes[old(pendingRequests)[m.id].host].live);
              Legal(st, es) && Holds(Play(st, es)) && Play(st, es).proxies[number].reader == Idle
    {
      hide Legal, Play, CancelEvents;
      if m.id !in pendingRequests {
        LostCancelPlays(st, number);
        return;
      }
      var host := pendingRequests[m.id].host;
      pendingRequests := pendingRequests - {m.id};
      if host !in routes {
        LostCancelPlays(st, number);
        return;
      }
      CancelPlays(st, number);
      var _ := routes[host].Send(m);
    }

    /** The reply cases of `Connect`'s read loop. */
    method RelayReply(m: Msg, ghost st: State, ghost s: nat)
      requires Holds(st) && CanRelayReply(st, s)
      requires st.streams[s].up[0] == m && st.streams[s].server.proxy == number
      requires st.proxies[number].link.Live? ==> s != st.proxies[number].link.stream
      modifies this`pendingRequests, upstream`sent
      ensures var es := ReplyEvents(s, upstream.live); Legal(st, es) && Holds(Play(st, es))
    {
      hide Legal, Play, ReplyEvents;
      ReplyPlays(st, s, upstream.live);
      pendingRequests := pendingRequests - {m.id};
      var _ := upstream.Send(m);
    }

    method ClearPending()
      modifies this`pendingRequests
      ensures pendingRequests == map[]
    {
      while pendingRequests != map[]
        decreases |pendingRequests|
      {
        var id :| id in pendingRequests;
        ghost var before := pendingRequests;
        pendingRequests := pendingRequests - {id};
        assert before.Keys == pendingRequests.Keys + {id};
      }
    }

    /** Every relay entry is dropped; then the online records are registered again, in order,
        until a send fails. */
    method ReregisterAll(records: seq<Downstream>)
      modifies this`pendingRequests, upstream`registrations
      ensures pendingRequests == map[]
      ensures upstream.registrations
              == old(upstream.registrations) + if upstream.live then Reregistrations(hostname, records) else []
    {
      ClearPending();
      var i := 0;
      while i < |records|
        invariant 0 <= i <= |records| && pendingRequests == map[]
        invariant upstream.registrations
                  == old(upstream.registrations) + if upstream.live then Reregistrations(hostname, records[..i]) else []
      {
        var r := records[i];
        ReregistrationsAppend(hostname, records[..i], r);
        assert records[..i + 1] == records[..i] + [r];
        i := i + 1;
        if r.online {
          var ok := upstream.SendRegistration(Registration(r.host, [hostname] + r.path));
          if !ok {
            return;
          }
        }
      }
      assert records[..i] == records;
    }

    /** `ReregisterAll` as the dialer calls it, when the ack has come and the new stream is not in
        use yet: it is the protocol's step for the ack, and nothing is registered. */
    method OnRegisterAck(records: seq<Downstream>, ghost st: State)
      requires Holds(st) && CanNetwork(st, ProxyAck(number))
      modifies this`pendingRequests, upstream`registrations
      ensures Holds(DoProxyAck(st, number)) && upstream.registrations == old(upstream.registrations)
    {
      ReregisterAll(records);
    }
  }

  // ----- the agent -----

  class Agent {
    const number: nat
    var cancelFns: CancelFns
    var canceled: map<nat, bool>  // whether the context of a goroutine is canceled
    const upstream: Wire

    constructor (number: nat, upstream: Wire)
      ensures cancelFns == map[] && canceled == map[] && this.number == number && this.upstream == upstream
    {
      this.number, cancelFns, canceled, this.upstream := number, map[], map[], upstream;
    }

    /** The goroutines are the protocol's goroutines of this agent. */
    ghost predicate Holds(st: State)
      reads this, upstream
    {
      && number < |st.agents|
      && cancelFns == st.agents[number].cancelFns
      && upstream.IsUp(st, st.agents[number].link)
      && (forall id | id in cancelFns :: cancelFns[id] in canceled)
      && (forall t :: t in canceled <==> 0 <= t < |st.tasks| && st.tasks[t].agent == number)
      && (forall t | t in canceled :: canceled[t] == st.tasks[t].canceled)
    }

    /** The part of `dispatch` that runs in the read loop; `t` is the goroutine it may start. */
    method Dispatch(m: Msg, t: nat, ghost st: State)
      requires Holds(st) && AgentReads(st, number) && NextForAgent(st, number) == m && t == |st.tasks|
      modifies this
      ensures match m
              case CancelRequest(_, _) =>
                CanAgentCancel(st, number) && Holds(DoAgentCancel(st, number))
              case ToolRequest(_, _, _, _) =>
                CanAgentStart(st, number) && Holds(DoAgentStart(st, number))
              case Reply(_, _, _, _) => Holds(st)
    {
      match m
      case CancelRequest(id, _) =>
        if id in cancelFns {
          canceled := canceled[cancelFns[id] := true];
          cancelFns := cancelFns - {id};
        }
      case ToolRequest(id, _, _, _) =>
        cancelFns := cancelFns[id := t];
        canceled := canceled[t := false];
      case Reply(_, _, _, _) =>
    }

    /** The one reply of goroutine `t`, if the upstream takes it: an error for an unknown tool, an error
        for a handler that failed, or the handler's result. */
    method Answer(t: nat, id: Id, origin: nat, handled: Handled)
      modifies upstream`sent
      ensures upstream.sent
              == old(upstream.sent) + if upstream.live then [Reply(id, ReplyBody(handled), origin, MadeByTask(t))] else []
      ensures !upstream.live ==> upstream.sent == old(upstream.sent)
      ensures upstream.live ==>
                match handled
                case UnknownTool(message) =>
                  upstream.sent == old(upstream.sent)
                                   + [Reply(id, ErrorResponse("TOOL_NOT_FOUND", message), origin, MadeByTask(t))]
                case Failed(message) =>
                  upstream.sent == old(upstream.sent)
                                   + [Reply(id, ErrorResponse("TOOL_ERROR", message), origin, MadeByTask(t))]
                case Succeeded(json) =>
                  upstream.sent == old(upstream.sent) + [Reply(id, ToolResponse(json), origin, MadeByTask(t))]
    {
      var body := match handled
        case UnknownTool(message) => ErrorResponse("TOOL_NOT_FOUND", message)
        case Failed(message) => ErrorResponse("TOOL_ERROR", message)
        case Succeeded(json) => ToolResponse(json);
      var _ := upstream.Send(Reply(id, body, origin, MadeByTask(t)));
    }

    /** The end of goroutine `t`: one reply is attempted, then the goroutine is forgotten. */
    method Finish(t: nat, id: Id, origin: nat, handled: Handled, ghost st: State)
      requires Holds(st) && t < |st.tasks| && st.tasks[t].agent == number && st.tasks[t].phase == Running
      requires st.tasks[t].id == id && st.tasks[t].origin == origin
      modifies this, upstream`sent
      ensures Legal(st, FinishEvents(t, handled, upstream.live))
      ensures Holds(Play(st, FinishEvents(t, handled, upstream.live)))
      ensures var st' := Play(st, FinishEvents(t, handled, upstream.live)); t < |st'.tasks| && st'.tasks[t].phase == Done
      ensures !upstream.live ==> upstream.sent == old(upstream.sent)
      ensures upstream.live ==>
                match handled
                case UnknownTool(message) =>
                  upstream.sent == old(upstream.sent)
                                   + [Reply(id, ErrorResponse("TOOL_NOT_FOUND", message), origin, MadeByTask(t))]
                case Failed(message) =>
                  upstream.sent == old(upstream.sent)
                                   + [Reply(id, ErrorResponse("TOOL_ERROR", message), origin, MadeByTask(t))]
                case Succeeded(json) =>
                  upstream.sent == old(upstream.sent) + [Reply(id, ToolResponse(json), origin, MadeByTask(t))]
    {
      hide Legal, Play, FinishEvents, ReplyBody;
      FinishPlays(st, t, handled, upstream.live);
      Answer(t, id, origin, handled);
      canceled := canceled[t := true];
      cancelFns := cancelFns - {id};
    }
  }
}
