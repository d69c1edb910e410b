/** The proxy's steps on cancels and replies keep the invariant, and so does a change of its routing
    table.

    Every event has a lemma `Keep...`.  Its proof has a lemma `...Step`, which shows that the step
    touches no more than it names, and lemmas named after what is touched: the proxy (`...Proxy`),
    the call (`...Call`) and a stream.

    A cancel takes its call's entry with it, so behind the read loop there is no entry any more,
    and a reply that comes back takes the entry if it is still there.  Neither meets an entry of
    another call, because the ID is in use by no other. */
module ProtocolReturnSteps {
  import opened Tunnel
  import opened RouterTable
  import opened RelayTable
  import opened Protocol
  import opened ProtocolInvariant
  import opened ProtocolFrames
  import opened ProtocolRelaySteps

  // ----- RelayCancel -----

  /** Where the cancel goes when the read loop takes it. */
  function Routed(st: State, p: nat): CancelLoc
    requires CanRelayCancel(st, p)
  {
    if NextUpstream(st, p).id in st.proxies[p].relay.pendingRequests then CancelAtReader(p) else CancelOver
  }

  lemma RelayCancelStep(st: State, b: Book, p: nat)
    requires Inv(st, b) && CanRelayCancel(st, p)
    requires var m := NextUpstream(st, p); var s := st.proxies[p].link.stream;
             && m.origin < |b.cancel| && b.cancel[m.origin] == CancelOnDown(s)
             && m.origin < |st.calls| && Via(st, m.origin, p)
    ensures var m := NextUpstream(st, p); var s := st.proxies[p].link.stream;
            Step(st, b, DoRelayCancel(st, p), MoveCancel(b, m.origin, Routed(st, p)),
                 NONE.(s1 := s, x := m.origin, p := p))
  {
    hide StreamOk, CallOk, ProxyOk, AgentOk, TaskOk;
  }

  lemma CancelTakenCall(st: State, b: Book, p: nat)
    requires CanRelayCancel(st, p) && ProxyOk(st, b, p) && Sizes(st, b)
    requires HeadOk(st, b, p, st.proxies[p].link.stream, NextUpstream(st, p))
    requires var c := NextUpstream(st, p).origin;
             b.loc[c] != OnDown(st.proxies[p].link.stream) && b.loc[c] != Unsent
    requires Frame(st, b, DoRelayCancel(st, p))
    ensures var c := NextUpstream(st, p).origin;
            CallOk(DoRelayCancel(st, p), MoveCancel(b, c, Routed(st, p)), c)
  {
    hide EntryOk, ReaderOk;
    var c := NextUpstream(st, p).origin;
    RoutesKept(st, b, DoRelayCancel(st, p));
  }

  lemma CancelTakenProxy(st: State, b: Book, p: nat)
    requires CanRelayCancel(st, p) && ProxyOk(st, b, p) && Sizes(st, b)
    requires HeadOk(st, b, p, st.proxies[p].link.stream, NextUpstream(st, p))
    requires Frame(st, b, DoRelayCancel(st, p))
    ensures ProxyOk(DoRelayCancel(st, p), MoveCancel(b, NextUpstream(st, p).origin, Routed(st, p)), p)
  {
    hide CallOk, EntryOk, Frame;
    var st' := DoRelayCancel(st, p);
    var m := NextUpstream(st, p);
    var b' := MoveCancel(b, m.origin, Routed(st, p));
    EntryIsOwn(st, b, p, m);
    MsgKept(st, b, st', m);
    ProxyTouched(st, b, st', b', p, m.origin);
  }

  lemma KeepRelayCancel(st: State, b: Book, p: nat) returns (b': Book)
    requires Inv(st, b) && CanRelayCancel(st, p)
    ensures Inv(DoRelayCancel(st, p), b')
  {
    hide StreamOk, CallOk, ProxyOk, AgentOk, TaskOk, StreamsSame, CallsSame, MessagesStay, ProxiesSame, TasksSame;
    var st' := DoRelayCancel(st, p);
    var s := st.proxies[p].link.stream;
    var c := NextUpstream(st, p).origin;
    RelayHead(st, b, p);
    CancelFirst(st, b, s);
    RelayCancelStep(st, b, p);
    b' := MoveCancel(b, c, Routed(st, p));
    CancelTakenCall(st, b, p);
    CancelTakenProxy(st, b, p);
    PopDownKept(st, b, st', b', s);
    Assemble(st, b, st', b', NONE.(s1 := s, x := c, p := p));
  }

  // ----- RelayCancelLookup -----

  lemma CancelMovesStep(st: State, b: Book, p: nat, st': State, c: nat, k: CancelLoc)
    requires Inv(st, b) && p < |st.proxies| && c < |st.calls| && Via(st, c, p)
    requires |st'.proxies| == |st.proxies| && st' == st.(proxies := st.proxies[p := st'.proxies[p]])
    requires c < |b.cancel| && (k == b.cancel[c] || (b.cancel[c] == CancelAtReader(p) && k == CancelOver))
    ensures Step(st, b, st', MoveCancel(b, c, k), NONE.(x := c, p := p))
  {
    hide StreamOk, CallOk, ProxyOk, AgentOk, TaskOk;
  }

  lemma CancelLookedUpProxy(st: State, b: Book, p: nat, k: CancelLoc)
    requires CanRelayCancelLookup(st, p) && ProxyOk(st, b, p) && Sizes(st, b)
    requires HoldsCancel(st, b, p, st.proxies[p].reader.cancel)
    requires k == if st.proxies[p].reader.host in st.proxies[p].relay.table then CancelAtReader(p) else CancelOver
    requires Frame(st, b, DoRelayCancelLookup(st, p))
    ensures ProxyOk(DoRelayCancelLookup(st, p), MoveCancel(b, st.proxies[p].reader.cancel.origin, k), p)
  {
    hide CallOk, EntryOk, Frame;
    var st' := DoRelayCancelLookup(st, p);
    var m := st.proxies[p].reader.cancel;
    EntryIsOwn(st, b, p, m);
    NoCancelEntry(st, b, p, m);
    RoutesKept(st, b, st');
    MsgKept(st, b, st', m);
    ProxyTouched(st, b, st', MoveCancel(b, m.origin, k), p, m.origin);
  }

  /** Once the cancel of a call has reached the read loop, the call has no entry. */
  lemma NoCancelEntry(st: State, b: Book, p: nat, m: Msg)
    requires p < |st.proxies| && ProxyOk(st, b, p) && HoldsCancel(st, b, p, m)
    ensures NoEntry(st.proxies[p], m.origin)
    ensures EntriesFrom(st, b, st, b, p, st.proxies[p], m.origin) && NoneDropped(st, p, st.proxies[p], m.origin)
  {
    var x := st.proxies[p];
    forall id | id in x.relay.pendingRequests ensures x.relay.pendingRequests[id].origin != m.origin {
      assert EntryOk(st, b, p, x, id, x.relay.pendingRequests[id]);
    }
  }

  lemma CancelMovedCall(st: State, b: Book, p: nat, st': State, m: Msg, k: CancelLoc)
    requires HoldsCancel(st, b, p, m) && Frame(st, b, st')
    requires st'.calls == st.calls && st'.router == st.router && st'.tasks == st.tasks
    requires p < |st.proxies| && (k == CancelOver || k == CancelAtReader(p))
    requires StaysOf(st, st', m.origin)
    ensures CallOk(st', MoveCancel(b, m.origin, k), m.origin)
  {
    RoutesKept(st, b, st');
  }

  lemma KeepRelayCancelLookup(st: State, b: Book, p: nat) returns (b': Book)
    requires Inv(st, b) && CanRelayCancelLookup(st, p)
    ensures Inv(DoRelayCancelLookup(st, p), b')
  {
    hide StreamOk, CallOk, ProxyOk, AgentOk, TaskOk, StreamsSame, CallsSame, MessagesStay, ProxiesSame, TasksSame;
    var st' := DoRelayCancelLookup(st, p);
    SendingRequest(st, b, p);
    CancelHeld(st, b, p);
    var x := st.proxies[p];
    var m := x.reader.cancel;
    var k := if x.reader.host in x.relay.table then CancelAtReader(p) else CancelOver;
    b' := MoveCancel(b, m.origin, k);
    CancelMovesStep(st, b, p, st', m.origin, k);
    CancelMovedCall(st, b, p, st', m, k);
    CancelLookedUpProxy(st, b, p, k);
    Assemble(st, b, st', b', NONE.(x := m.origin, p := p));
  }

  // ----- RelayCancelSend -----

  lemma CancelSentStep(st: State, b: Book, p: nat)
    requires Inv(st, b) && CanRelayCancelSend(st, p, true)
    requires var m := st.proxies[p].reader.cancel;
             && m.origin < |b.cancel| && b.cancel[m.origin] == CancelAtReader(p)
             && m.origin < |st.calls| && Via(st, m.origin, p)
             && st.proxies[p].reader.to != st.calls[m.origin].route
    ensures var m := st.proxies[p].reader.cancel; var to := st.proxies[p].reader.to;
            Step(st, b, DoRelayCancelSend(st, p, true), MoveCancel(b, m.origin, CancelOnDown(to)),
                 NONE.(s1 := to, x := m.origin, p := p))
  {
    hide StreamOk, CallOk, ProxyOk, AgentOk, TaskOk;
  }

  lemma CancelSentCall(st: State, b: Book, p: nat)
    requires CanRelayCancelSend(st, p, true) && ProxyOk(st, b, p)
    requires HoldsCancel(st, b, p, st.proxies[p].reader.cancel)
    requires var m := st.proxies[p].reader.cancel;
             CancelRequest(st.calls[m.origin].id, m.origin) !in st.streams[st.proxies[p].reader.to].down
    requires Frame(st, b, DoRelayCancelSend(st, p, true))
    ensures var m := st.proxies[p].reader.cancel; var to := st.proxies[p].reader.to;
            && to != st.calls[m.origin].route
            && CallOk(DoRelayCancelSend(st, p, true), MoveCancel(b, m.origin, CancelOnDown(to)), m.origin)
            && DownMsgOk(DoRelayCancelSend(st, p, true), MoveCancel(b, m.origin, CancelOnDown(to)), to, m)
  {
    hide EntryOk;
    var st' := DoRelayCancelSend(st, p, true);
    RoutesKept(st, b, st');
    MsgKept(st, b, st', st.proxies[p].reader.cancel);
  }

  lemma CancelSentProxy(st: State, b: Book, p: nat, ok: bool, k: CancelLoc)
    requires CanRelayCancelSend(st, p, ok) && ProxyOk(st, b, p) && Sizes(st, b)
    requires HoldsCancel(st, b, p, st.proxies[p].reader.cancel)
    requires var m := st.proxies[p].reader.cancel;
             k == CancelOver || (k.CancelOnDown? && k.s != st.calls[m.origin].route)
    requires Frame(st, b, DoRelayCancelSend(st, p, ok))
    ensures ProxyOk(DoRelayCancelSend(st, p, ok), MoveCancel(b, st.proxies[p].reader.cancel.origin, k), p)
  {
    hide CallOk, EntryOk, Frame;
    var st' := DoRelayCancelSend(st, p, ok);
    var m := st.proxies[p].reader.cancel;
    EntryIsOwn(st, b, p, m);
    NoCancelEntry(st, b, p, m);
    ProxyTouched(st, b, st', MoveCancel(b, m.origin, k), p, m.origin);
  }

  lemma CancelTargets(st: State, b: Book, p: nat)
    requires Inv(st, b) && p < |st.proxies| && st.proxies[p].reader.CancelSending?
    requires HoldsCancel(st, b, p, st.proxies[p].reader.cancel)
    ensures var m := st.proxies[p].reader.cancel; var to := st.proxies[p].reader.to;
            to < |st.streams| && to != st.calls[m.origin].route
            && StreamOk(st, b, to)
            && m == CancelRequest(st.calls[m.origin].id, m.origin)
  {
    hide AgentOk, TaskOk;
    assert ProxyOk(st, b, p);
  }

  lemma KeepRelayCancelSend(st: State, b: Book, p: nat, ok: bool) returns (b': Book)
    requires Inv(st, b) && CanRelayCancelSend(st, p, ok)
    ensures Inv(DoRelayCancelSend(st, p, ok), b')
  {
    hide StreamOk, CallOk, ProxyOk, AgentOk, TaskOk, StreamsSame, CallsSame, MessagesStay, ProxiesSame, TasksSame;
    var st' := DoRelayCancelSend(st, p, ok);
    SendingRequest(st, b, p);
    CancelHeld(st, b, p);
    var m, to := st.proxies[p].reader.cancel, st.proxies[p].reader.to;
    CancelTargets(st, b, p);
    NoCancelThere(st, b, m.origin, to);
    if ok {
      b' := MoveCancel(b, m.origin, CancelOnDown(to));
      CancelSentStep(st, b, p);
      CancelSentCall(st, b, p);
      CancelSentProxy(st, b, p, ok, CancelOnDown(to));
      PushDownKept(st, b, st', b', to, m);
      Assemble(st, b, st', b', NONE.(s1 := to, x := m.origin, p := p));
    } else {
      b' := MoveCancel(b, m.origin, CancelOver);
      CancelMovesStep(st, b, p, st', m.origin, CancelOver);
      CancelMovedCall(st, b, p, st', m, CancelOver);
      CancelSentProxy(st, b, p, ok, CancelOver);
      Assemble(st, b, st', b', NONE.(x := m.origin, p := p));
    }
  }

  // ----- RelayReply -----

  lemma RelayReplyStep(st: State, b: Book, s: nat)
    requires Inv(st, b) && CanRelayReply(st, s)
    requires var c := st.streams[s].up[0].origin; var p := st.streams[s].server.proxy;
             c < |b.loc| && b.loc[c] == OnUp(s) && c < |st.calls| && Via(st, c, p)
    ensures var c := st.streams[s].up[0].origin; var p := st.streams[s].server.proxy;
            Step(st, b, DoRelayReply(st, s), Move(b, c, AtHandler(s)), NONE.(s1 := s, x := c, p := p))
  {
    hide StreamOk, CallOk, ProxyOk, AgentOk, TaskOk;
  }

  lemma ReplyWaiting(st: State, b: Book, s: nat)
    requires Inv(st, b) && CanRelayReply(st, s)
    ensures var m := st.streams[s].up[0]; var p := st.streams[s].server.proxy;
            && StreamOk(st, b, s) && ReplyAt(st, b, m, OnUp(s))
            && CallOk(st, b, m.origin) && Via(st, m.origin, p) && ProxyOk(st, b, p)
  {
    hide ProxyOk, AgentOk, TaskOk;
    assert StreamOk(st, b, s);
    var m := st.streams[s].up[0];
    assert ReplyAt(st, b, m, OnUp(s));
    assert CallOk(st, b, m.origin);
  }

  lemma ReplyTakenProxy(st: State, b: Book, s: nat)
    requires CanRelayReply(st, s) && Sizes(st, b) && ReadersVia(st, b)
    requires var m := st.streams[s].up[0]; var p := st.streams[s].server.proxy;
             ReplyAt(st, b, m, OnUp(s)) && Via(st, m.origin, p) && ProxyOk(st, b, p)
    requires Frame(st, b, DoRelayReply(st, s))
    ensures ProxyOk(DoRelayReply(st, s), Move(b, st.streams[s].up[0].origin, AtHandler(s)), st.streams[s].server.proxy)
  {
    hide EntryOk, CallOk, Frame;
    var st' := DoRelayReply(st, s);
    var m := st.streams[s].up[0];
    var p := st.streams[s].server.proxy;
    var b' := Move(b, m.origin, AtHandler(s));
    EntryIsOwn(st, b, p, m);
    ReaderKept(st, b, st', b', p, st'.proxies[p], m.origin);
    ProxyTouched(st, b, st', b', p, m.origin);
  }

  lemma ReplyTakenCall(st: State, b: Book, s: nat)
    requires CanRelayReply(st, s) && Sizes(st, b)
    requires var m := st.streams[s].up[0]; ReplyAt(st, b, m, OnUp(s)) && CallOk(st, b, m.origin)
    requires Frame(st, b, DoRelayReply(st, s))
    ensures var m := st.streams[s].up[0]; var b' := Move(b, m.origin, AtHandler(s));
            && CallOk(DoRelayReply(st, s), b', m.origin)
            && HandOk(DoRelayReply(st, s), b', s, st.streams[s].server, Forwarding(m))
  {
    RoutesKept(st, b, DoRelayReply(st, s));
    MsgKept(st, b, DoRelayReply(st, s), st.streams[s].up[0]);
  }

  lemma KeepRelayReply(st: State, b: Book, s: nat) returns (b': Book)
    requires Inv(st, b) && CanRelayReply(st, s)
    ensures Inv(DoRelayReply(st, s), b')
  {
    hide StreamOk, CallOk, ProxyOk, AgentOk, TaskOk, StreamsSame, CallsSame, MessagesStay, ProxiesSame, TasksSame;
    var st' := DoRelayReply(st, s);
    var c, p := st.streams[s].up[0].origin, st.streams[s].server.proxy;
    ReplyWaiting(st, b, s);
    ReadersFromCalls(st, b);
    RelayReplyStep(st, b, s);
    b' := Move(b, c, AtHandler(s));
    ReplyTakenCall(st, b, s);
    ReplyTakenProxy(st, b, s);
    PopUpKept(st, b, st', b', s);
    Assemble(st, b, st', b', NONE.(s1 := s, x := c, p := p));
  }

  // ----- RelayForward -----

  function Upstreamed(st: State, s: nat): nat
    requires CanRelayForward(st, s, true)
  {
    st.proxies[st.streams[s].server.proxy].link.stream
  }

  /** A message that moves between two places no relay table speaks about. */
  lemma ProxiesUnaware(st: State, b: Book, st': State, c: nat, l: Loc)
    requires Sizes(st, b) && c < |st.calls| && st'.proxies == st.proxies && st'.calls == st.calls
    requires |st'.streams| == |st.streams|
    requires forall s | 0 <= s < |st.streams| ::
               st'.streams[s].server == st.streams[s].server && st'.streams[s].accepted == st.streams[s].accepted
    requires b.loc[c].AtHandler?
    requires l == Lost || (l.OnUp? && l.s < |st.streams| && st.streams[l.s].server == Center)
    ensures ProxiesSame(st, b, st', Move(b, c, l), -1)
  {
    var b' := Move(b, c, l);
    forall p | 0 <= p < |st.proxies| ensures SameForAll(st, b, st', b', p, -1) {
      forall d | 0 <= d < |st.calls| && Via(st, d, p) ensures SameFor(st, b, st', b', p, d) {}
    }
  }

  lemma ForwardSentStep(st: State, b: Book, s: nat)
    requires Inv(st, b) && CanRelayForward(st, s, true)
    requires var c := st.streams[s].hand.reply.origin;
             && c < |b.loc| && b.loc[c] == AtHandler(s) && c < |st.calls|
             && st.streams[Upstreamed(st, s)].server == Center
    ensures var c := st.streams[s].hand.reply.origin; var u := Upstreamed(st, s);
            Step(st, b, DoRelayForward(st, s, true), Move(b, c, OnUp(u)), NONE.(s1 := s, s2 := u, x := c))
  {
    ProxiesUnaware(st, b, DoRelayForward(st, s, true), st.streams[s].hand.reply.origin, OnUp(Upstreamed(st, s)));
    hide StreamOk, CallOk, ProxyOk, AgentOk, TaskOk, ProxiesSame;
  }

  lemma ForwardLostStep(st: State, b: Book, s: nat)
    requires Inv(st, b) && CanRelayForward(st, s, false)
    requires var c := st.streams[s].hand.reply.origin;
             c < |b.loc| && b.loc[c] == AtHandler(s) && c < |st.calls|
    ensures var c := st.streams[s].hand.reply.origin;
            Step(st, b, DoRelayForward(st, s, false), Move(b, c, Lost), NONE.(s1 := s, x := c))
  {
    hide StreamOk, CallOk, ProxyOk, AgentOk, TaskOk;
  }

  lemma HandHolds(st: State, b: Book, s: nat)
    requires Inv(st, b) && s < |st.streams| && st.streams[s].hand.Forwarding?
    ensures var m := st.streams[s].hand.reply;
            && StreamOk(st, b, s) && ReplyAt(st, b, m, AtHandler(s)) && CallOk(st, b, m.origin)
  {
    hide CallOk, ProxyOk, AgentOk, TaskOk;
    assert StreamOk(st, b, s);
  }

  lemma ForwardedCall(st: State, b: Book, s: nat, ok: bool, l: Loc)
    requires CanRelayForward(st, s, ok) && Sizes(st, b)
    requires var m := st.streams[s].hand.reply; ReplyAt(st, b, m, AtHandler(s)) && CallOk(st, b, m.origin)
    requires l == Lost || (ok && l == OnUp(Upstreamed(st, s)) && st.streams[Upstreamed(st, s)].server == Center)
    requires Frame(st, b, DoRelayForward(st, s, ok))
    ensures var m := st.streams[s].hand.reply; var b' := Move(b, m.origin, l);
            && CallOk(DoRelayForward(st, s, ok), b', m.origin)
            && ReplyAt(DoRelayForward(st, s, ok), b', m, l)
  {
    RoutesKept(st, b, DoRelayForward(st, s, ok));
    MsgKept(st, b, DoRelayForward(st, s, ok), st.streams[s].hand.reply);
  }

  lemma KeepRelayForward(st: State, b: Book, s: nat, ok: bool) returns (b': Book)
    requires Inv(st, b) && CanRelayForward(st, s, ok)
    ensures Inv(DoRelayForward(st, s, ok), b')
  {
    hide StreamOk, CallOk, ProxyOk, AgentOk, TaskOk, StreamsSame, CallsSame, MessagesStay, ProxiesSame, TasksSame;
    var st' := DoRelayForward(st, s, ok);
    var m := st.streams[s].hand.reply;
    HandHolds(st, b, s);
    if ok {
      var u := Upstreamed(st, s);
      UpstreamServed(st, b, st.streams[s].server.proxy);
      ForwardSentStep(st, b, s);
      b' := Move(b, m.origin, OnUp(u));
      ForwardedCall(st, b, s, ok, OnUp(u));
      FreeKept(st, b, st', b', s);
      PushUpKept(st, b, st', b', u, m);
      Assemble(st, b, st', b', NONE.(s1 := s, s2 := u, x := m.origin));
    } else {
      ForwardLostStep(st, b, s);
      b' := Move(b, m.origin, Lost);
      ForwardedCall(st, b, s, ok, Lost);
      FreeKept(st, b, st', b', s);
      Assemble(st, b, st', b', NONE.(s1 := s, x := m.origin));
    }
  }

  // ----- Retable -----

  lemma RetabledProxy(st: State, b: Book, p: nat, table: map<Host, nat>)
    requires Sizes(st, b) && ReadersVia(st, b)
    requires p < |st.proxies| && ProxyOk(st, b, p) && TableOk(st, p, table)
    requires Frame(st, b, DoRetable(st, p, table))
    ensures ProxyOk(DoRetable(st, p, table), b, p)
  {
    hide EntryOk;
    var st' := DoRetable(st, p, table);
    var x' := st'.proxies[p];
    ProxyParts(st, b, p);
    RoutesKept(st, b, st');
    ReaderKept(st, b, st', b, p, x', -2);
    EntriesKept(st, b, st', b, p, x', -1);
    RememberedKept(st, b, st', b, p, x', -1);
    ProxyParts(st', b, p);
  }

  lemma KeepRetable(st: State, b: Book, p: nat, table: map<Host, nat>) returns (b': Book)
    requires Inv(st, b) && p < |st.proxies| && TableOk(st, p, table)
    ensures Inv(DoRetable(st, p, table), b')
  {
    hide StreamOk, CallOk, ProxyOk, AgentOk, TaskOk, StreamsSame, CallsSame, MessagesStay, ProxiesSame, TasksSame;
    b' := b;
    ReadersFromCalls(st, b);
    ProxyOnlyStep(st, b, p, DoRetable(st, p, table));
    RetabledProxy(st, b, p, table);
    Assemble(st, b, DoRetable(st, p, table), b', NONE.(p := p));
  }
}
