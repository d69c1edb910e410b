/** The proxy's steps on requests keep the invariant.

    Every event has a lemma `Keep...`.  Its proof has a lemma `...Step`, which shows that the step
    touches no more than it names, and lemmas named after what is touched: the proxy (`...Proxy`),
    the call (`...Call`) and a stream.

    A request is looked up, stored and sent by one read loop, so while it is in the loop's hands no
    other message of its call is anywhere.  Its entry is kept exactly as long as the request, its
    goroutine or its reply is behind the proxy.  A request that cannot be sent on is lost, and its
    entry with it; a request for an unknown host becomes the proxy's own reply. */
module ProtocolRelaySteps {
  import opened Tunnel
  import opened RouterTable
  import opened RelayTable
  import opened Protocol
  import opened ProtocolInvariant
  import opened ProtocolFrames

  const NONE := Touched(-1, -1, -1, -1, -1, -1)

  /** What the read loop knows about the message it takes next. */
  ghost predicate HeadOk(st: State, b: Book, p: nat, s: nat, m: Msg) {
    && s < |st.streams| && |st.streams[s].down| > 0 && m == st.streams[s].down[0]
    && DownMsgOk(st, b, s, m)
    && CallOk(st, b, m.origin)
    && s == st.calls[m.origin].route
    && Via(st, m.origin, p)
    && st.proxies[p].session == Some(s)
  }

  lemma RelayHead(st: State, b: Book, p: nat)
    requires Inv(st, b) && ReaderFree(st, p)
    ensures HeadOk(st, b, p, st.proxies[p].link.stream, NextUpstream(st, p))
    ensures StreamOk(st, b, st.proxies[p].link.stream) && ProxyOk(st, b, p)
  {
    hide AgentOk, TaskOk;
    var s := st.proxies[p].link.stream;
    assert ProxyOk(st, b, p);
    assert StreamOk(st, b, s);
    assert DownMsgOk(st, b, s, st.streams[s].down[0]);
    assert CallOk(st, b, st.streams[s].down[0].origin);
  }

  /** What the read loop knows about the request it holds. */
  ghost predicate HoldsRequest(st: State, b: Book, p: nat, m: Msg) {
    && RequestAt(st, b, p, m)
    && CallOk(st, b, m.origin)
    && Via(st, m.origin, p)
  }

  lemma RequestHeld(st: State, b: Book, p: nat)
    requires Inv(st, b) && p < |st.proxies|
    requires Held(st.proxies[p].reader).Some? && Held(st.proxies[p].reader).value.ToolRequest?
    ensures HoldsRequest(st, b, p, Held(st.proxies[p].reader).value)
    ensures ProxyOk(st, b, p)
  {
    hide StreamOk, AgentOk, TaskOk;
    assert ProxyOk(st, b, p);
    assert CallOk(st, b, Held(st.proxies[p].reader).value.origin);
  }

  ghost predicate HoldsCancel(st: State, b: Book, p: nat, m: Msg) {
    && CancelAt(st, b, p, m)
    && CallOk(st, b, m.origin)
    && Via(st, m.origin, p)
  }

  lemma CancelHeld(st: State, b: Book, p: nat)
    requires Inv(st, b) && p < |st.proxies|
    requires Held(st.proxies[p].reader).Some? && Held(st.proxies[p].reader).value.CancelRequest?
    ensures HoldsCancel(st, b, p, Held(st.proxies[p].reader).value)
    ensures ProxyOk(st, b, p)
  {
    hide StreamOk, AgentOk, TaskOk;
    assert ProxyOk(st, b, p);
    assert CallOk(st, b, Held(st.proxies[p].reader).value.origin);
  }

  /** A proxy has at most one entry with the request ID of a message, and it belongs to the
      message's call. */
  lemma EntryIsOwn(st: State, b: Book, p: nat, m: Msg)
    requires p < |st.proxies| && ProxyOk(st, b, p) && MsgOk(st, m)
    ensures m.id in st.proxies[p].relay.pendingRequests ==>
              st.proxies[p].relay.pendingRequests[m.id] == Entry(st.calls[m.origin].host, m.origin)
    ensures forall id | id in st.proxies[p].relay.pendingRequests
                        && st.proxies[p].relay.pendingRequests[id].origin == m.origin :: id == m.id
    ensures NoneDropped(st, p, st.proxies[p].(relay := Forget(st.proxies[p].relay, m.id)), m.origin)
    ensures EntriesFrom(st, b, st, b, p, st.proxies[p].(relay := Forget(st.proxies[p].relay, m.id)), m.origin)
  {
    var x := st.proxies[p];
    forall id | id in x.relay.pendingRequests ensures EntryOk(st, b, p, x, id, x.relay.pendingRequests[id]) {}
  }

  // ----- RelayLookup -----

  lemma RelayLookupStep(st: State, b: Book, p: nat)
    requires Inv(st, b) && CanRelayLookup(st, p)
    requires var m := NextUpstream(st, p); var s := st.proxies[p].link.stream;
             m.origin < |b.loc| && b.loc[m.origin] == OnDown(s) && m.origin < |st.calls| && Via(st, m.origin, p)
    ensures var m := NextUpstream(st, p); var s := st.proxies[p].link.stream;
            Step(st, b, DoRelayLookup(st, p), Move(b, m.origin, AtReader(p)), NONE.(s1 := s, x := m.origin, p := p))
  {
    hide StreamOk, CallOk, ProxyOk, AgentOk, TaskOk;
  }

  /** The proxy has no entry for a request it has not read yet. */
  lemma NoEntryYet(st: State, b: Book, p: nat)
    requires CanRelayLookup(st, p) && ProxyOk(st, b, p)
    requires HeadOk(st, b, p, st.proxies[p].link.stream, NextUpstream(st, p))
    ensures NoEntry(st.proxies[p], NextUpstream(st, p).origin)
  {
    hide LocOk, CancelLocOk, ProgressOk, ReaderOk, Remembered;
    var x, c := st.proxies[p], NextUpstream(st, p).origin;
    forall id | id in x.relay.pendingRequests ensures x.relay.pendingRequests[id].origin != c {
      assert EntryOk(st, b, p, x, id, x.relay.pendingRequests[id]);
    }
  }

  /** The read loop holds the request, and knows where its host is, or that it is unknown. */
  lemma LookedUpReader(st: State, b: Book, p: nat)
    requires CanRelayLookup(st, p) && ProxyOk(st, b, p) && Sizes(st, b)
    requires HeadOk(st, b, p, st.proxies[p].link.stream, NextUpstream(st, p))
    requires Frame(st, b, DoRelayLookup(st, p))
    ensures var st' := DoRelayLookup(st, p); var b' := Move(b, NextUpstream(st, p).origin, AtReader(p));
            ReaderOk(st', b', p, st'.proxies[p]) && HeldAt(b', p, st'.proxies[p])
  {
    hide LocOk, CancelLocOk, ProgressOk, EntryOk, Remembered;
    var st' := DoRelayLookup(st, p);
    NoEntryYet(st, b, p);
    RoutesKept(st, b, st');
    MsgKept(st, b, st', NextUpstream(st, p));
  }

  lemma LookedUpProxy(st: State, b: Book, p: nat)
    requires CanRelayLookup(st, p) && ProxyOk(st, b, p) && Sizes(st, b)
    requires HeadOk(st, b, p, st.proxies[p].link.stream, NextUpstream(st, p))
    requires Frame(st, b, DoRelayLookup(st, p))
    ensures ProxyOk(DoRelayLookup(st, p), Move(b, NextUpstream(st, p).origin, AtReader(p)), p)
  {
    hide LocOk, CancelLocOk, ProgressOk, ReaderOk, HeldAt;
    var c := NextUpstream(st, p).origin;
    NoEntryYet(st, b, p);
    LookedUpReader(st, b, p);
    ProxyTouched(st, b, DoRelayLookup(st, p), Move(b, c, AtReader(p)), p, c);
  }

  lemma KeepRelayLookup(st: State, b: Book, p: nat) returns (b': Book)
    requires Inv(st, b) && CanRelayLookup(st, p)
    ensures Inv(DoRelayLookup(st, p), b')
  {
    hide StreamOk, ProxyOk, AgentOk, TaskOk, StreamsSame, CallsSame, MessagesStay, ProxiesSame, TasksSame;
    var st' := DoRelayLookup(st, p);
    var s := st.proxies[p].link.stream;
    var c := NextUpstream(st, p).origin;
    RelayHead(st, b, p);
    RelayLookupStep(st, b, p);
    b' := Move(b, c, AtReader(p));
    RoutesKept(st, b, st');
    assert CallOk(st', b', c);
    PopDownKept(st, b, st', b', s);
    LookedUpProxy(st, b, p);
    Assemble(st, b, st', b', NONE.(s1 := s, x := c, p := p));
  }

  // ----- RelayStore -----

  lemma ProxyOnlyStep(st: State, b: Book, p: nat, st': State)
    requires Inv(st, b) && p < |st.proxies|
    requires |st'.proxies| == |st.proxies| && st' == st.(proxies := st.proxies[p := st'.proxies[p]])
    ensures Step(st, b, st', b, NONE.(p := p))
  {
    hide StreamOk, CallOk, ProxyOk, AgentOk, TaskOk;
  }

  lemma StoredProxy(st: State, b: Book, p: nat)
    requires CanRelayStore(st, p) && ProxyOk(st, b, p) && Sizes(st, b)
    requires HoldsRequest(st, b, p, st.proxies[p].reader.req)
    requires Frame(st, b, DoRelayStore(st, p))
    ensures ProxyOk(DoRelayStore(st, p), b, p)
  {
    var st' := DoRelayStore(st, p);
    var m := st.proxies[p].reader.req;
    RoutesKept(st, b, st');
    MsgKept(st, b, st', m);
    EntryIsOwn(st, b, p, m);
    var x' := st'.proxies[p];
    assert EntryOk(st', b, p, x', m.id, x'.relay.pendingRequests[m.id]);
    ProxyTouched(st, b, st', b, p, m.origin);
  }

  lemma KeepRelayStore(st: State, b: Book, p: nat) returns (b': Book)
    requires Inv(st, b) && CanRelayStore(st, p)
    ensures Inv(DoRelayStore(st, p), b')
  {
    hide StreamOk, CallOk, ProxyOk, AgentOk, TaskOk, StreamsSame, CallsSame, MessagesStay, ProxiesSame, TasksSame;
    b' := b;
    RequestHeld(st, b, p);
    ProxyOnlyStep(st, b, p, DoRelayStore(st, p));
    StoredProxy(st, b, p);
    Assemble(st, b, DoRelayStore(st, p), b', NONE.(p := p));
  }

  // ----- RelaySend -----

  lemma RelaySentFrame(st: State, b: Book, p: nat)
    requires Inv(st, b) && CanRelaySend(st, p, true)
    requires var m := st.proxies[p].reader.req;
             m.origin < |b.loc| && b.loc[m.origin] == AtReader(p) && m.origin < |st.calls| && Via(st, m.origin, p)
    ensures var m := st.proxies[p].reader.req; var to := st.proxies[p].reader.to;
            var st' := DoRelaySend(st, p, true);
            Frame(st, b, st') && Sizes(st', Move(b, m.origin, OnDown(to))) && PendingOk(st')
  {
    hide StreamOk, CallOk, ProxyOk, AgentOk, TaskOk;
  }

  lemma RelaySentStep(st: State, b: Book, p: nat)
    requires Inv(st, b) && CanRelaySend(st, p, true)
    requires var m := st.proxies[p].reader.req;
             m.origin < |b.loc| && b.loc[m.origin] == AtReader(p) && m.origin < |st.calls| && Via(st, m.origin, p)
    ensures var m := st.proxies[p].reader.req; var to := st.proxies[p].reader.to;
            Step(st, b, DoRelaySend(st, p, true), Move(b, m.origin, OnDown(to)), NONE.(s1 := to, x := m.origin, p := p))
  {
    hide StreamOk, CallOk, ProxyOk, AgentOk, TaskOk, Frame, PendingOk;
    RelaySentFrame(st, b, p);
  }

  /** The entry of the request that is being sent, before and after. */
  lemma SendingEntry(st: State, b: Book, st': State, b': Book, p: nat)
    requires Frame(st, b, st') && p < |st.proxies| && ProxyOk(st, b, p)
    requires st.proxies[p].reader.Sending? && HoldsRequest(st, b, p, st.proxies[p].reader.req)
    requires st'.proxies[p].relay == st.proxies[p].relay && st'.proxies[p].session == st.proxies[p].session
    requires b'.cancel == b.cancel
    requires var m := st.proxies[p].reader.req; var to := st.proxies[p].reader.to;
             b' == b || b' == Move(b, m.origin, OnDown(to))
    ensures var x := st.proxies[p]; var m := x.reader.req;
            && EntriesFrom(st, b, st', b', p, st'.proxies[p], m.origin)
            && NoneDropped(st, p, st'.proxies[p], m.origin)
            && m.id in x.relay.pendingRequests
            && x.relay.pendingRequests[m.id] == Entry(st.calls[m.origin].host, m.origin)
    ensures MsgOk(st', st.proxies[p].reader.req)
  {
    var x := st.proxies[p];
    var m := x.reader.req;
    EntryIsOwn(st, b, p, m);
    RoutesKept(st, b, st');
    MsgKept(st, b, st', m);
    assert EntryOk(st, b, p, x, m.id, x.relay.pendingRequests[m.id]);
    assert EntryOk(st', b', p, st'.proxies[p], m.id, x.relay.pendingRequests[m.id]);
  }

  lemma SentProxy(st: State, b: Book, p: nat)
    requires CanRelaySend(st, p, true) && ProxyOk(st, b, p) && Sizes(st, b)
    requires HoldsRequest(st, b, p, st.proxies[p].reader.req)
    requires Frame(st, b, DoRelaySend(st, p, true))
    ensures ProxyOk(DoRelaySend(st, p, true),
                    Move(b, st.proxies[p].reader.req.origin, OnDown(st.proxies[p].reader.to)), p)
  {
    hide EntryOk, CallOk, NoneDropped, EntriesFrom;
    var st' := DoRelaySend(st, p, true);
    var m := st.proxies[p].reader.req;
    var b' := Move(b, m.origin, OnDown(st.proxies[p].reader.to));
    SendingEntry(st, b, st', b', p);
    ProxyTouched(st, b, st', b', p, m.origin);
  }

  lemma UnsentProxy(st: State, b: Book, p: nat)
    requires CanRelaySend(st, p, false) && ProxyOk(st, b, p) && Sizes(st, b)
    requires HoldsRequest(st, b, p, st.proxies[p].reader.req)
    requires Frame(st, b, DoRelaySend(st, p, false))
    ensures ProxyOk(DoRelaySend(st, p, false), b, p)
  {
    hide EntryOk, CallOk, NoneDropped, EntriesFrom;
    var st' := DoRelaySend(st, p, false);
    SendingEntry(st, b, st', b, p);
    ProxyTouched(st, b, st', b, p, st.proxies[p].reader.req.origin);
  }

  lemma SentCall(st: State, b: Book, p: nat)
    requires CanRelaySend(st, p, true) && ProxyOk(st, b, p)
    requires HoldsRequest(st, b, p, st.proxies[p].reader.req)
    requires Frame(st, b, DoRelaySend(st, p, true))
    ensures var m := st.proxies[p].reader.req; var to := st.proxies[p].reader.to;
            CallOk(DoRelaySend(st, p, true), Move(b, m.origin, OnDown(to)), m.origin)
    ensures DownMsgOk(DoRelaySend(st, p, true), Move(b, st.proxies[p].reader.req.origin, OnDown(st.proxies[p].reader.to)),
                      st.proxies[p].reader.to, st.proxies[p].reader.req)
    ensures b.cancel[st.proxies[p].reader.req.origin] != CancelOnDown(st.proxies[p].reader.to)
  {
    var st' := DoRelaySend(st, p, true);
    RoutesKept(st, b, st');
    MsgKept(st, b, st', st.proxies[p].reader.req);
  }

  lemma KeepRelaySend(st: State, b: Book, p: nat, ok: bool) returns (b': Book)
    requires Inv(st, b) && CanRelaySend(st, p, ok)
    ensures Inv(DoRelaySend(st, p, ok), b')
  {
    hide StreamOk, CallOk, ProxyOk, AgentOk, TaskOk, StreamsSame, CallsSame, MessagesStay, ProxiesSame, TasksSame;
    var st' := DoRelaySend(st, p, ok);
    var m, to := st.proxies[p].reader.req, st.proxies[p].reader.to;
    SendingRequest(st, b, p);
    RequestHeld(st, b, p);
    if ok {
      b' := Move(b, m.origin, OnDown(to));
      RelaySentStep(st, b, p);
      SentCall(st, b, p);
      SentProxy(st, b, p);
      assert StreamOk(st, b, to);
      PushDownKept(st, b, st', b', to, m);
      Assemble(st, b, st', b', NONE.(s1 := to, x := m.origin, p := p));
    } else {
      b' := b;
      ProxyOnlyStep(st, b, p, st');
      UnsentProxy(st, b, p);
      Assemble(st, b, st', b', NONE.(p := p));
    }
  }

  lemma SendingRequest(st: State, b: Book, p: nat)
    requires Inv(st, b) && p < |st.proxies| && Held(st.proxies[p].reader).Some?
    ensures match st.proxies[p].reader
            case Idle => false
            case CancelRouting(m, _) => m.CancelRequest?
            case CancelSending(m, _) => m.CancelRequest?
            case _ => Held(st.proxies[p].reader).value.ToolRequest?
    ensures st.proxies[p].link.Live?
  {
    hide StreamOk, CallOk, AgentOk, TaskOk;
    assert ProxyOk(st, b, p);
  }

  // ----- RelayUndo -----

  lemma RelayUndoStep(st: State, b: Book, p: nat)
    requires Inv(st, b) && CanRelayUndo(st, p)
    requires var m := st.proxies[p].reader.req;
             m.origin < |b.loc| && b.loc[m.origin] == AtReader(p) && m.origin < |st.calls| && Via(st, m.origin, p)
    ensures var m := st.proxies[p].reader.req;
            Step(st, b, DoRelayUndo(st, p), Move(b, m.origin, Lost), NONE.(x := m.origin, p := p))
  {
    hide StreamOk, CallOk, ProxyOk, AgentOk, TaskOk;
  }

  lemma UndoneProxy(st: State, b: Book, p: nat)
    requires CanRelayUndo(st, p) && ProxyOk(st, b, p) && Sizes(st, b)
    requires HoldsRequest(st, b, p, st.proxies[p].reader.req)
    requires Frame(st, b, DoRelayUndo(st, p))
    ensures ProxyOk(DoRelayUndo(st, p), Move(b, st.proxies[p].reader.req.origin, Lost), p)
  {
    var st' := DoRelayUndo(st, p);
    var m := st.proxies[p].reader.req;
    var b' := Move(b, m.origin, Lost);
    EntryIsOwn(st, b, p, m);
    ProxyTouched(st, b, st', b', p, m.origin);
  }

  lemma KeepRelayUndo(st: State, b: Book, p: nat) returns (b': Book)
    requires Inv(st, b) && CanRelayUndo(st, p)
    ensures Inv(DoRelayUndo(st, p), b')
  {
    hide StreamOk, ProxyOk, AgentOk, TaskOk, StreamsSame, CallsSame, MessagesStay, ProxiesSame, TasksSame;
    var st' := DoRelayUndo(st, p);
    SendingRequest(st, b, p);
    RequestHeld(st, b, p);
    var c := st.proxies[p].reader.req.origin;
    b' := Move(b, c, Lost);
    RelayUndoStep(st, b, p);
    RoutesKept(st, b, st');
    assert CallOk(st', b', c);
    UndoneProxy(st, b, p);
    Assemble(st, b, st', b', NONE.(x := c, p := p));
  }

  // ----- RelayRefuse -----

  lemma RefusalSentFrame(st: State, b: Book, p: nat)
    requires Inv(st, b) && CanRelayRefuse(st, p, true)
    requires var m := st.proxies[p].reader.req;
             m.origin < |b.loc| && b.loc[m.origin] == AtReader(p) && m.origin < |st.calls| && Via(st, m.origin, p)
    requires st.proxies[p].link.Live? && st.streams[st.proxies[p].link.stream].server == Center
    ensures var c := st.proxies[p].reader.req.origin; var s := st.proxies[p].link.stream;
            var st' := DoRelayRefuse(st, p, true);
            Frame(st, b, st') && Sizes(st', Move(b, c, OnUp(s))) && PendingOk(st')
  {
    hide StreamOk, CallOk, ProxyOk, AgentOk, TaskOk;
  }

  lemma RefusalSentStep(st: State, b: Book, p: nat)
    requires Inv(st, b) && CanRelayRefuse(st, p, true)
    requires var m := st.proxies[p].reader.req;
             m.origin < |b.loc| && b.loc[m.origin] == AtReader(p) && m.origin < |st.calls| && Via(st, m.origin, p)
    requires st.proxies[p].link.Live? && st.streams[st.proxies[p].link.stream].server == Center
    ensures var c := st.proxies[p].reader.req.origin; var s := st.proxies[p].link.stream;
            Step(st, b, DoRelayRefuse(st, p, true), Move(b, c, OnUp(s)), NONE.(s1 := s, x := c, p := p))
  {
    hide StreamOk, CallOk, ProxyOk, AgentOk, TaskOk, Frame, PendingOk;
    RefusalSentFrame(st, b, p);
  }

  lemma RefusalLostStep(st: State, b: Book, p: nat)
    requires Inv(st, b) && CanRelayRefuse(st, p, false)
    requires var m := st.proxies[p].reader.req;
             m.origin < |b.loc| && b.loc[m.origin] == AtReader(p) && m.origin < |st.calls| && Via(st, m.origin, p)
    ensures var c := st.proxies[p].reader.req.origin;
            Step(st, b, DoRelayRefuse(st, p, false), Move(b, c, Lost), NONE.(x := c, p := p))
  {
    hide StreamOk, CallOk, ProxyOk, AgentOk, TaskOk;
  }

  /** A call without an entry can move without touching the relay table. */
  lemma NothingToDrop(st: State, b: Book, st': State, b': Book, p: nat, x': Proxy, c: nat)
    requires p < |st.proxies| && NoEntry(st.proxies[p], c)
    requires x'.relay.pendingRequests == st.proxies[p].relay.pendingRequests
    ensures EntriesFrom(st, b, st', b', p, x', c) && NoneDropped(st, p, x', c)
  {
  }

  lemma RefusedProxy(st: State, b: Book, p: nat, ok: bool, l: Loc)
    requires CanRelayRefuse(st, p, ok) && ProxyOk(st, b, p) && Sizes(st, b)
    requires HoldsRequest(st, b, p, st.proxies[p].reader.req)
    requires l == Lost || (ok && l == OnUp(st.proxies[p].link.stream)
                           && st.streams[st.proxies[p].link.stream].server == Center)
    requires Frame(st, b, DoRelayRefuse(st, p, ok))
    ensures ProxyOk(DoRelayRefuse(st, p, ok), Move(b, st.proxies[p].reader.req.origin, l), p)
  {
    hide EntryOk, CallOk, EntriesFrom, NoneDropped;
    var st' := DoRelayRefuse(st, p, ok);
    var m := st.proxies[p].reader.req;
    var b' := Move(b, m.origin, l);
    NothingToDrop(st, b, st', b', p, st'.proxies[p], m.origin);
    ProxyTouched(st, b, st', b', p, m.origin);
  }

  lemma RefusedCall(st: State, b: Book, p: nat, ok: bool, l: Loc)
    requires CanRelayRefuse(st, p, ok)
    requires HoldsRequest(st, b, p, st.proxies[p].reader.req)
    requires l == Lost || (ok && l == OnUp(st.proxies[p].link.stream)
                           && st.streams[st.proxies[p].link.stream].server == Center)
    requires Frame(st, b, DoRelayRefuse(st, p, ok))
    ensures var m := st.proxies[p].reader.req;
            && CallOk(DoRelayRefuse(st, p, ok), Move(b, m.origin, l), m.origin)
            && ReplyAt(DoRelayRefuse(st, p, ok), Move(b, m.origin, l), Refusal(m, p), l)
  {
    var st' := DoRelayRefuse(st, p, ok);
    RoutesKept(st, b, st');
    MsgKept(st, b, st', st.proxies[p].reader.req);
  }

  lemma UpstreamServed(st: State, b: Book, p: nat)
    requires Inv(st, b) && p < |st.proxies| && st.proxies[p].link.Live?
    ensures var s := st.proxies[p].link.stream;
            s < |st.streams| && st.streams[s].server == Center && StreamOk(st, b, s)
  {
    hide CallOk, AgentOk, TaskOk;
    assert ProxyOk(st, b, p);
    assert StreamOk(st, b, st.proxies[p].link.stream);
  }

  lemma KeepRelayRefuse(st: State, b: Book, p: nat, ok: bool) returns (b': Book)
    requires Inv(st, b) && CanRelayRefuse(st, p, ok)
    ensures Inv(DoRelayRefuse(st, p, ok), b')
  {
    hide StreamOk, CallOk, ProxyOk, AgentOk, TaskOk, StreamsSame, CallsSame, MessagesStay, ProxiesSame, TasksSame;
    var st' := DoRelayRefuse(st, p, ok);
    SendingRequest(st, b, p);
    RequestHeld(st, b, p);
    UpstreamServed(st, b, p);
    var m, s := st.proxies[p].reader.req, st.proxies[p].link.stream;
    if ok {
      RefusalSentStep(st, b, p);
    } else {
      RefusalLostStep(st, b, p);
    }
    var l := if ok then OnUp(s) else Lost;
    b' := Move(b, m.origin, l);
    RefusedCall(st, b, p, ok, l);
    RefusedProxy(st, b, p, ok, l);
    if ok {
      PushUpKept(st, b, st', b', s, Refusal(m, p));
    }
    Assemble(st, b, st', b', NONE.(s1 := if ok then s else -1, x := m.origin, p := p));
  }
}
