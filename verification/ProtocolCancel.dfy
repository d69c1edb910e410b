/** Cancels arrive behind their requests and stop the right goroutine, and an ID whose call is
    over can be used again. */
module ProtocolCancel {
  import opened Tunnel
  import opened RouterTable
  import opened RelayTable
  import opened Protocol
  import opened ProtocolInvariant
  import opened ProtocolTheorems
  import opened ProtocolConservation

  // ----- order -----

  /** The request of call `c` has not passed the read loop of the first hop. */
  predicate RequestAtFirstHop(st: State, c: nat) {
    && c < |st.calls|
    && (|| st.calls[c].phase == Stored
        || (st.calls[c].route < |st.streams|
            && exists j :: 0 <= j < |st.streams[st.calls[c].route].down|
                           && st.streams[st.calls[c].route].down[j] == Request(st, c))
        || exists p :: 0 <= p < |st.proxies| && Holds(st.proxies[p].reader, c))
  }

  /** In every reachable state, a cancel comes from a `Send` that gave up, follows its request on the same
      stream, and reaches a later hop only after the request has left the earlier one. */
  lemma CancelFollowsItsRequest(st: State, s: nat, i: nat)
    requires Reachable(st)
    requires s < |st.streams| && i < |st.streams[s].down| && st.streams[s].down[i].CancelRequest?
    ensures var c := st.streams[s].down[i].origin;
            && c < |st.calls|
            && (st.calls[c].outcome == TimedOut || st.calls[c].outcome == Canceled)
            && (forall j | 0 <= j < |st.streams[s].down| && st.streams[s].down[j].origin == c && j != i ::
                  j < i && st.streams[s].down[j] == Request(st, c))
            && (s != st.calls[c].route ==> !RequestAtFirstHop(st, c))
  {
    hide Inv, Reachable;
    var b := Reached(st);
    CancelOrder(st, b, s, i);
  }

  lemma CancelOrder(st: State, b: Book, s: nat, i: nat)
    requires Inv(st, b)
    requires s < |st.streams| && i < |st.streams[s].down| && st.streams[s].down[i].CancelRequest?
    ensures var c := st.streams[s].down[i].origin;
            && c < |st.calls|
            && (st.calls[c].outcome == TimedOut || st.calls[c].outcome == Canceled)
            && (forall j | 0 <= j < |st.streams[s].down| && st.streams[s].down[j].origin == c && j != i ::
                  j < i && st.streams[s].down[j] == Request(st, c))
            && (s != st.calls[c].route ==> !RequestAtFirstHop(st, c))
  {
    hide AgentOk, TaskOk;
    assert StreamOk(st, b, s);
    var c := st.streams[s].down[i].origin;
    assert DownMsgOk(st, b, s, st.streams[s].down[i]);
    assert CallOk(st, b, c);
    forall j | 0 <= j < |st.streams[s].down| && st.streams[s].down[j].origin == c && j != i
      ensures j < i && st.streams[s].down[j] == Request(st, c)
    {
      assert DownMsgOk(st, b, s, st.streams[s].down[j]);
    }
    if s != st.calls[c].route {
      NotAtFirstHop(st, b, c);
    }
  }

  lemma NotAtFirstHop(st: State, b: Book, c: nat)
    requires Inv(st, b) && c < |st.calls| && !Upstream(b.loc[c], st.calls[c].route)
    requires CallOk(st, b, c)
    ensures !RequestAtFirstHop(st, c)
  {
    hide AgentOk, TaskOk;
    var r := st.calls[c].route;
    assert StreamOk(st, b, r);
    forall j | 0 <= j < |st.streams[r].down| ensures st.streams[r].down[j] != Request(st, c) {
      assert DownMsgOk(st, b, r, st.streams[r].down[j]);
    }
    forall p | 0 <= p < |st.proxies| ensures !Holds(st.proxies[p].reader, c) {
      assert ProxyOk(st, b, p);
    }
  }

  /** In every reachable state, when a hop takes a cancel, the request is not behind it: not on the same
      stream, not on the stream before it, not in the hands of a read loop. */
  lemma CancelIsTakenLast(st: State, s: nat)
    requires Reachable(st)
    requires s < |st.streams| && |st.streams[s].down| > 0 && st.streams[s].down[0].CancelRequest?
    ensures var c := st.streams[s].down[0].origin;
            c < |st.calls| && forall j | 0 <= j < |st.streams[s].down| :: st.streams[s].down[j] != Request(st, c)
    ensures var c := st.streams[s].down[0].origin;
            s == st.calls[c].route || !RequestAtFirstHop(st, c)
  {
    CancelFollowsItsRequest(st, s, 0);
    var c := st.streams[s].down[0].origin;
    assert Request(st, c).origin == c;
  }

  // ----- effect -----

  /** The goroutine of call `c` is running at an agent behind proxy `p`, or its request is on the
      way there, or its reply on the way back. */
  predicate BehindProxy(st: State, c: nat, p: nat) {
    || (exists t :: 0 <= t < |st.tasks| && st.tasks[t].origin == c && st.tasks[t].phase == Running)
    || (exists s, i :: 0 <= s < |st.streams| && st.streams[s].server == AtProxy(p)
                       && 0 <= i < |st.streams[s].down|
                       && st.streams[s].down[i].ToolRequest? && st.streams[s].down[i].origin == c)
    || (exists s, i :: 0 <= s < |st.streams| && st.streams[s].server == AtProxy(p)
                       && 0 <= i < |st.streams[s].up| && st.streams[s].up[i].origin == c)
  }

  /** In every reachable state, a proxy that takes the cancel of a call it has handed on, and whose reply has
      not come back, finds the call's entry and routes the cancel to the call's host. */
  lemma ProxyRoutesTheCancel(st: State, p: nat)
    requires Reachable(st)
    requires CanRelayCancel(st, p) && BehindProxy(st, NextUpstream(st, p).origin, p)
    ensures var m := NextUpstream(st, p);
            && m.origin < |st.calls|
            && DoRelayCancel(st, p).proxies[p].reader == CancelRouting(m, st.calls[m.origin].host)
            && m.id !in DoRelayCancel(st, p).proxies[p].relay.pendingRequests
  {
    hide Inv, Reachable;
    var b := Reached(st);
    ProxyKnowsTheCall(st, b, p);
  }

  lemma BehindIsBeyond(st: State, b: Book, c: nat, p: nat)
    requires Inv(st, b) && c < |st.calls| && BehindProxy(st, c, p)
    requires CallOk(st, b, c)
    ensures Beyond(st, b, c, p)
  {
    hide ProxyOk, AgentOk;
    if t :| 0 <= t < |st.tasks| && st.tasks[t].origin == c && st.tasks[t].phase == Running {
      assert TaskOk(st, b, t);
    } else if s, i :| 0 <= s < |st.streams| && st.streams[s].server == AtProxy(p)
                       && 0 <= i < |st.streams[s].down|
                       && st.streams[s].down[i].ToolRequest? && st.streams[s].down[i].origin == c {
      assert StreamOk(st, b, s);
      assert DownMsgOk(st, b, s, st.streams[s].down[i]);
    } else {
      var s, i :| 0 <= s < |st.streams| && st.streams[s].server == AtProxy(p)
                  && 0 <= i < |st.streams[s].up| && st.streams[s].up[i].origin == c;
      assert StreamOk(st, b, s);
      assert ReplyAt(st, b, st.streams[s].up[i], OnUp(s));
    }
  }

  lemma ProxyKnowsTheCall(st: State, b: Book, p: nat)
    requires Inv(st, b) && CanRelayCancel(st, p) && BehindProxy(st, NextUpstream(st, p).origin, p)
    ensures var m := NextUpstream(st, p);
            && m.origin < |st.calls| && m.id == st.calls[m.origin].id
            && m.id in st.proxies[p].relay.pendingRequests
            && st.proxies[p].relay.pendingRequests[m.id] == RelayTable.Entry(st.calls[m.origin].host, m.origin)
  {
    hide StreamOk, AgentOk, TaskOk, ReaderOk, EntryOk;
    RelaySteps.RelayHead(st, b, p);
    var m := NextUpstream(st, p);
    BehindIsBeyond(st, b, m.origin, p);
    assert Remembered(st, b, p, st.proxies[p], m.origin);
  }

  /** If the host is still in the proxy's table, the three remaining steps of the read loop put
      the cancel behind whatever is on the host's stream. */
  lemma CancelIsSentOn(st: State, p: nat)
    requires CanRelayCancel(st, p)
    requires DoRelayCancel(st, p).proxies[p].reader.CancelRouting?
    requires var x := st.proxies[p]; var host := DoRelayCancel(st, p).proxies[p].reader.host;
             host in x.relay.table && x.relay.table[host] < |st.streams|
             && x.relay.table[host] != x.link.stream && !st.streams[x.relay.table[host]].broken
    ensures var m := NextUpstream(st, p);
            var to := st.proxies[p].relay.table[DoRelayCancel(st, p).proxies[p].reader.host];
            var taken := DoRelayCancel(st, p);
            && CanRelayCancelLookup(taken, p)
            && CanRelayCancelSend(DoRelayCancelLookup(taken, p), p, true)
            && var sent := DoRelayCancelSend(DoRelayCancelLookup(taken, p), p, true);
               sent.streams[to].down == st.streams[to].down + [m] && sent.proxies[p].reader == Idle
  {
  }

  /** In every reachable state, an agent that takes the cancel of a call whose goroutine it is still running
      cancels that goroutine; and whatever cancel it takes, it cancels no goroutine of another
      call. */
  lemma AgentCancelsTheRightOne(st: State, a: nat)
    requires Reachable(st) && CanAgentCancel(st, a)
    ensures var c := NextForAgent(st, a).origin; var st' := DoAgentCancel(st, a);
            && |st'.tasks| == |st.tasks|
            && (forall t | 0 <= t < |st.tasks| && st.tasks[t].agent == a && st.tasks[t].origin == c
                           && st.tasks[t].phase != Done :: st'.tasks[t].canceled)
            && (forall t | 0 <= t < |st.tasks| && st.tasks[t].origin != c :: st'.tasks[t] == st.tasks[t])
  {
    hide Inv, Reachable;
    var b := Reached(st);
    RightTask(st, b, a);
  }

  lemma RightTask(st: State, b: Book, a: nat)
    requires Inv(st, b) && CanAgentCancel(st, a)
    ensures var c := NextForAgent(st, a).origin; var st' := DoAgentCancel(st, a);
            && |st'.tasks| == |st.tasks|
            && (forall t | 0 <= t < |st.tasks| && st.tasks[t].agent == a && st.tasks[t].origin == c
                           && st.tasks[t].phase != Done :: st'.tasks[t].canceled)
            && (forall t | 0 <= t < |st.tasks| && st.tasks[t].origin != c :: st'.tasks[t] == st.tasks[t])
  {
    hide StreamOk, CallOk, ProxyOk;
    AgentSteps.AgentHead(st, b, a);
    var m := NextForAgent(st, a);
    var fns := st.agents[a].cancelFns;
    if m.id in fns {
      AgentSteps.SameOrigin(st, b, fns[m.id], m);
    }
    forall t | 0 <= t < |st.tasks| && st.tasks[t].agent == a && st.tasks[t].origin == m.origin
               && st.tasks[t].phase != Done
      ensures DoAgentCancel(st, a).tasks[t].canceled
    {
      assert TaskOk(st, b, t);
    }
  }

  // ----- using an ID again -----

  /** Nothing that belongs to call `c` is in flight any more. */
  predicate Drained(st: State, c: nat) {
    && c < |st.calls| && st.calls[c].phase == Returned
    && (forall s | 0 <= s < |st.streams| ::
          && (forall i | 0 <= i < |st.streams[s].down| :: st.streams[s].down[i].origin != c)
          && (forall i | 0 <= i < |st.streams[s].up| :: st.streams[s].up[i].origin != c)
          && (st.streams[s].hand != Free ==> st.streams[s].hand.reply.origin != c))
    && (forall p | 0 <= p < |st.proxies| ::
          Held(st.proxies[p].reader).Some? ==> Held(st.proxies[p].reader).value.origin != c)
    && GoroutinesDone(st, c)
  }

  /** In every reachable state, once everything that belongs to the last call that used an ID has drained,
      the ID is free again, unless the call is stranded at its proxy. */
  lemma DrainedIdIsFreeAgain(st: State, c: nat)
    requires Reachable(st)
    requires Drained(st, c) && Current(st, c) && !Stranded(st, c)
    ensures IdFree(st, st.calls[c].id)
  {
    hide Inv, Reachable;
    var b := Reached(st);
    DrainedIsFree(st, b, c);
  }

  lemma DrainedIsFree(st: State, b: Book, c: nat)
    requires Inv(st, b) && Drained(st, c) && Current(st, c) && !Stranded(st, c)
    ensures IdFree(st, st.calls[c].id)
  {
    hide Inv;
    DrainedMessages(st, b, c);
    DrainedProxies(st, b, c);
    DrainedRest(st, b, c);
  }

  lemma DrainedMessages(st: State, b: Book, c: nat)
    requires Inv(st, b) && Drained(st, c) && Current(st, c)
    ensures NoMessage(st, st.calls[c].id)
  {
    hide CallOk, ProxyOk, AgentOk, TaskOk;
    var id := st.calls[c].id;
    forall s | 0 <= s < |st.streams|
      ensures (forall i | 0 <= i < |st.streams[s].down| :: st.streams[s].down[i].id != id)
      ensures (forall i | 0 <= i < |st.streams[s].up| :: st.streams[s].up[i].id != id)
      ensures st.streams[s].hand != Free ==> st.streams[s].hand.reply.id != id
    {
      assert StreamOk(st, b, s);
      forall i | 0 <= i < |st.streams[s].down| ensures st.streams[s].down[i].id != id {
        assert DownMsgOk(st, b, s, st.streams[s].down[i]);
      }
      forall i | 0 <= i < |st.streams[s].up| ensures st.streams[s].up[i].id != id {
        assert ReplyAt(st, b, st.streams[s].up[i], OnUp(s));
      }
    }
  }

  lemma DrainedProxies(st: State, b: Book, c: nat)
    requires Inv(st, b) && Drained(st, c) && Current(st, c) && !Stranded(st, c)
    ensures forall p | 0 <= p < |st.proxies| ::
              && (Held(st.proxies[p].reader).Some? ==> Held(st.proxies[p].reader).value.id != st.calls[c].id)
              && st.calls[c].id !in st.proxies[p].relay.pendingRequests
  {
    hide StreamOk, AgentOk, TaskOk;
    assert CallOk(st, b, c);
    assert CancelDrained(st, c);
    forall p | 0 <= p < |st.proxies|
      ensures Held(st.proxies[p].reader).Some? ==> Held(st.proxies[p].reader).value.id != st.calls[c].id
      ensures st.calls[c].id !in st.proxies[p].relay.pendingRequests
    {
      assert ProxyOk(st, b, p);
      NoEntryLeft(st, b, c, p);
      var x := st.proxies[p];
      assert forall id | id in x.relay.pendingRequests :: EntryOk(st, b, p, x, id, x.relay.pendingRequests[id]);
    }
  }

  lemma DrainedRest(st: State, b: Book, c: nat)
    requires Inv(st, b) && Drained(st, c) && Current(st, c)
    ensures forall t | 0 <= t < |st.tasks| :: st.tasks[t].phase != Done ==> st.tasks[t].id != st.calls[c].id
    ensures forall d | 0 <= d < |st.calls| :: st.calls[d].phase != Returned ==> st.calls[d].id != st.calls[c].id
  {
    hide StreamOk, ProxyOk, AgentOk;
    forall t | 0 <= t < |st.tasks| && st.tasks[t].phase != Done ensures st.tasks[t].id != st.calls[c].id {
      assert TaskOk(st, b, t);
    }
    forall d | 0 <= d < |st.calls| && st.calls[d].phase != Returned ensures st.calls[d].id != st.calls[c].id {
      assert CallOk(st, b, d);
    }
  }
}
