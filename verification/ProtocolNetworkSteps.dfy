/** Connecting, hanging up, breaking and losing keep the invariant.

    Every event has a lemma `Keep...`.  Its proof has a lemma `...Step`, which shows that the step
    touches no more than it names, and lemmas about what is touched.

    A dialer opens a new stream each time, so nothing is on it.  The ack of a proxy empties its
    relay table before the stream is live: the calls whose entries go are calls of older streams,
    and nothing is on its way to that proxy on the new one.  A stream that breaks keeps what is on
    it, and loses a suffix of it when messages are lost; what is lost is a request, a reply or a
    cancel that then is nowhere, and the books say so. */
module ProtocolNetworkSteps {
  import opened Tunnel
  import opened RouterTable
  import opened RelayTable
  import opened Protocol
  import opened ProtocolInvariant
  import opened ProtocolFrames

  const NONE := Touched(-1, -1, -1, -1, -1, -1)

  /** What the links and the book say about stream numbers. */
  ghost predicate InRange(st: State, b: Book) {
    && (forall c | 0 <= c < |b.loc| && b.loc[c].OnUp? :: b.loc[c].s < |st.streams|)
    && (forall p | 0 <= p < |st.proxies| :: LinkOk(st, ProxyNode(p), st.proxies[p].link))
    && (forall a | 0 <= a < |st.agents| :: LinkOk(st, AgentNode(a), st.agents[a].link))
  }

  lemma Ranges(st: State, b: Book)
    requires Inv(st, b)
    ensures InRange(st, b)
  {
    hide StreamOk, TaskOk;
    forall c | 0 <= c < |b.loc| && b.loc[c].OnUp? ensures b.loc[c].s < |st.streams| {
      assert CallOk(st, b, c);
    }
    forall p | 0 <= p < |st.proxies| ensures LinkOk(st, ProxyNode(p), st.proxies[p].link) {
      assert ProxyOk(st, b, p);
    }
    forall a | 0 <= a < |st.agents| ensures LinkOk(st, AgentNode(a), st.agents[a].link) {
      assert AgentOk(st, a);
    }
  }

  // ----- the proxy's dialer -----

  lemma ProxyDialStep(st: State, b: Book, p: nat)
    requires Inv(st, b) && p < |st.proxies| && InRange(st, b)
    ensures Step(st, b, DoProxyDial(st, p), b, NONE.(p := p))
  {
    hide StreamOk, CallOk, ProxyOk, AgentOk, TaskOk;
  }

  lemma KeepProxyDial(st: State, b: Book, p: nat) returns (b': Book)
    requires Inv(st, b) && p < |st.proxies| && st.proxies[p].link.Down?
    ensures Inv(DoProxyDial(st, p), b')
  {
    hide CallOk, AgentOk, TaskOk, StreamsSame, CallsSame, MessagesStay, ProxiesSame, TasksSame;
    b' := b;
    var st' := DoProxyDial(st, p);
    Ranges(st, b);
    ProxyDialStep(st, b, p);
    assert ProxyOk(st, b, p);
    RoutesKept(st, b, st');
    assert StreamOk(st', b, |st.streams|);
    ProxyRelinked(st, b, st', p);
    Assemble(st, b, st', b', NONE.(p := p));
  }

  /** A proxy whose dialer moves on while its read loop is idle and its relay table stays. */
  lemma ProxyRelinked(st: State, b: Book, st': State, p: nat)
    requires Inv(st, b) && Frame(st, b, st') && Sizes(st', b) && p < |st.proxies|
    requires InRange(st, b) && st'.proxies[p] == st.proxies[p].(link := st'.proxies[p].link)
    requires st'.proxies[p].link.Live? || st.proxies[p].reader == Idle || !st.proxies[p].link.Live?
    requires ProxyBase(st', p, st'.proxies[p])
    ensures ProxyOk(st', b, p)
  {
    hide StreamOk, CallOk, AgentOk, TaskOk;
    assert ProxyOk(st, b, p);
    ProxyParts(st, b, p);
    ReadersFromCalls(st, b);
    assert SameForAll(st, b, st', b, p, -1);
    ReaderKept(st, b, st', b, p, st'.proxies[p], -2);
    EntriesKept(st, b, st', b, p, st'.proxies[p], -1);
    RememberedKept(st, b, st', b, p, st'.proxies[p], -1);
    ProxyParts(st', b, p);
  }

  /** A relayed request was relayed over a route its proxy had been accepted on. */
  lemma BeyondAccepted(st: State, b: Book, p: nat, c: nat)
    requires Inv(st, b) && c < |st.calls| && Beyond(st, b, c, p)
    requires st.calls[c].route < |st.streams| && st.streams[st.calls[c].route].client == ProxyNode(p)
    ensures st.streams[st.calls[c].route].accepted
  {
    hide StreamOk, ProxyOk, AgentOk;
    assert CallOk(st, b, c);
    if b.loc[c].AtTask? {
      assert TaskOk(st, b, b.loc[c].t);
    }
  }

  lemma ProxyAckStep(st: State, b: Book, p: nat)
    requires Inv(st, b) && InRange(st, b)
    requires p < |st.proxies| && st.proxies[p].link.Dialing? && st.proxies[p].link.stream < |st.streams|
    ensures Step(st, b, DoProxyAck(st, p), b, NONE.(p := p))
  {
    hide StreamOk, CallOk, ProxyOk, AgentOk, TaskOk;
  }

  lemma AckedProxy(st: State, b: Book, p: nat)
    requires Inv(st, b) && InRange(st, b)
    requires p < |st.proxies| && st.proxies[p].link.Dialing? && st.proxies[p].link.stream < |st.streams|
    requires Frame(st, b, DoProxyAck(st, p))
    ensures ProxyOk(DoProxyAck(st, p), b, p)
  {
    hide StreamOk, CallOk, AgentOk, TaskOk;
    var st' := DoProxyAck(st, p);
    var s := st.proxies[p].link.stream;
    assert ProxyOk(st, b, p);
    RoutesKept(st, b, st');
    forall c | 0 <= c < |st.calls| ensures Remembered(st', b, p, st'.proxies[p], c) {
      if st.calls[c].route == s && Beyond(st', b, c, p) {
        assert Beyond(st, b, c, p);
        BeyondAccepted(st, b, p, c);
      }
    }
  }

  lemma KeepProxyAck(st: State, b: Book, p: nat) returns (b': Book)
    requires Inv(st, b)
    requires p < |st.proxies| && st.proxies[p].link.Dialing? && st.proxies[p].link.stream < |st.streams|
    ensures Inv(DoProxyAck(st, p), b')
  {
    hide StreamOk, CallOk, ProxyOk, AgentOk, TaskOk, StreamsSame, CallsSame, MessagesStay, ProxiesSame, TasksSame;
    b' := b;
    Ranges(st, b);
    ProxyAckStep(st, b, p);
    AckedProxy(st, b, p);
    Assemble(st, b, DoProxyAck(st, p), b', NONE.(p := p));
  }

  lemma ProxyUpStep(st: State, b: Book, p: nat)
    requires Inv(st, b) && p < |st.proxies| && st.proxies[p].link.Acked?
    ensures Step(st, b, DoProxyUp(st, p), b, NONE.(p := p))
  {
    hide StreamOk, CallOk, ProxyOk, AgentOk, TaskOk;
  }

  lemma KeepProxyUp(st: State, b: Book, p: nat) returns (b': Book)
    requires Inv(st, b) && p < |st.proxies| && st.proxies[p].link.Acked?
    ensures Inv(DoProxyUp(st, p), b')
  {
    hide StreamOk, CallOk, AgentOk, TaskOk, StreamsSame, CallsSame, MessagesStay, ProxiesSame, TasksSame;
    b' := b;
    Ranges(st, b);
    ProxyUpStep(st, b, p);
    assert ProxyOk(st, b, p);
    ProxyRelinked(st, b, DoProxyUp(st, p), p);
    Assemble(st, b, DoProxyUp(st, p), b', NONE.(p := p));
  }

  lemma ProxyDownStep(st: State, b: Book, p: nat)
    requires Inv(st, b) && p < |st.proxies| && LinkUsed(st, st.proxies[p].link)
    ensures Step(st, b, DoProxyDown(st, p), b, NONE.(p := p))
  {
    hide StreamOk, CallOk, ProxyOk, AgentOk, TaskOk;
  }

  lemma KeepProxyDown(st: State, b: Book, p: nat) returns (b': Book)
    requires Inv(st, b)
    requires p < |st.proxies| && st.proxies[p].reader == Idle && LinkUsed(st, st.proxies[p].link)
    ensures Inv(DoProxyDown(st, p), b')
  {
    hide StreamOk, CallOk, AgentOk, TaskOk, StreamsSame, CallsSame, MessagesStay, ProxiesSame, TasksSame;
    b' := b;
    Ranges(st, b);
    ProxyDownStep(st, b, p);
    RoutesKept(st, b, DoProxyDown(st, p));
    assert ProxyOk(st, b, p);
    ProxyRelinked(st, b, DoProxyDown(st, p), p);
    Assemble(st, b, DoProxyDown(st, p), b', NONE.(p := p));
  }

  // ----- the agent's dialer -----

  lemma AgentDialStep(st: State, b: Book, a: nat)
    requires Inv(st, b) && a < |st.agents| && InRange(st, b)
    ensures Step(st, b, DoAgentDial(st, a), b, NONE.(a := a))
  {
    hide StreamOk, CallOk, ProxyOk, AgentOk, TaskOk;
  }

  lemma KeepAgentDial(st: State, b: Book, a: nat) returns (b': Book)
    requires Inv(st, b) && a < |st.agents| && st.agents[a].link.Down?
    ensures Inv(DoAgentDial(st, a), b')
  {
    hide CallOk, ProxyOk, TaskOk, StreamsSame, CallsSame, MessagesStay, ProxiesSame, TasksSame;
    b' := b;
    var st' := DoAgentDial(st, a);
    Ranges(st, b);
    AgentDialStep(st, b, a);
    assert AgentOk(st, a);
    assert StreamOk(st', b, |st.streams|);
    assert AgentOk(st', a);
    Assemble(st, b, st', b', NONE.(a := a));
  }

  lemma AgentAckStep(st: State, b: Book, a: nat)
    requires Inv(st, b) && InRange(st, b)
    requires a < |st.agents| && st.agents[a].link.Dialing? && st.agents[a].link.stream < |st.streams|
    ensures Step(st, b, DoAgentAck(st, a), b, NONE.(a := a))
  {
    hide StreamOk, CallOk, ProxyOk, AgentOk, TaskOk;
  }

  lemma KeepAgentAck(st: State, b: Book, a: nat) returns (b': Book)
    requires Inv(st, b)
    requires a < |st.agents| && st.agents[a].link.Dialing? && st.agents[a].link.stream < |st.streams|
    ensures Inv(DoAgentAck(st, a), b')
  {
    hide StreamOk, CallOk, ProxyOk, TaskOk, Step;
    b' := b;
    Ranges(st, b);
    AgentAckStep(st, b, a);
    assert AgentOk(st, a);
    assert AgentOk(DoAgentAck(st, a), a);
    Assemble(st, b, DoAgentAck(st, a), b', NONE.(a := a));
  }

  lemma AgentUpStep(st: State, b: Book, a: nat)
    requires Inv(st, b) && a < |st.agents| && st.agents[a].link.Acked?
    ensures Step(st, b, DoAgentUp(st, a), b, NONE.(a := a))
  {
    hide StreamOk, CallOk, ProxyOk, AgentOk, TaskOk;
  }

  lemma KeepAgentUp(st: State, b: Book, a: nat) returns (b': Book)
    requires Inv(st, b) && a < |st.agents| && st.agents[a].link.Acked?
    ensures Inv(DoAgentUp(st, a), b')
  {
    hide StreamOk, CallOk, ProxyOk, TaskOk, Step;
    b' := b;
    AgentUpStep(st, b, a);
    assert AgentOk(st, a);
    assert AgentOk(DoAgentUp(st, a), a);
    Assemble(st, b, DoAgentUp(st, a), b', NONE.(a := a));
  }

  lemma AgentDownStep(st: State, b: Book, a: nat)
    requires Inv(st, b) && a < |st.agents| && LinkUsed(st, st.agents[a].link)
    ensures Step(st, b, DoAgentDown(st, a), b, NONE.(a := a))
  {
    hide StreamOk, CallOk, ProxyOk, AgentOk, TaskOk;
  }

  lemma KeepAgentDown(st: State, b: Book, a: nat) returns (b': Book)
    requires Inv(st, b) && a < |st.agents| && LinkUsed(st, st.agents[a].link)
    ensures Inv(DoAgentDown(st, a), b')
  {
    hide StreamOk, CallOk, ProxyOk, TaskOk, Step;
    b' := b;
    AgentDownStep(st, b, a);
    assert AgentOk(st, a);
    assert AgentOk(DoAgentDown(st, a), a);
    Assemble(st, b, DoAgentDown(st, a), b', NONE.(a := a));
  }

  // ----- the network -----

  lemma BreakStep(st: State, b: Book, s: nat)
    requires Inv(st, b) && s < |st.streams|
    ensures Step(st, b, st.(streams := Cut(st.streams, s)), b, NONE)
  {
    hide StreamOk, CallOk, ProxyOk, AgentOk, TaskOk;
  }

  lemma KeepBreak(st: State, b: Book, s: nat) returns (b': Book)
    requires Inv(st, b) && s < |st.streams|
    ensures Inv(st.(streams := Cut(st.streams, s)), b')
  {
    hide StreamOk, CallOk, ProxyOk, AgentOk, TaskOk, Step;
    b' := b;
    BreakStep(st, b, s);
    Assemble(st, b, st.(streams := Cut(st.streams, s)), b', NONE);
  }

  lemma OrderSurvives(st: State, b: Book, s: nat, i: nat, j: nat)
    requires Inv(st, b) && CanLose(st, s, i, j)
    ensures MessagesStay(st, DoLose(st, s, i, j), -1)
  {
    hide CallOk, ProxyOk, AgentOk, TaskOk;
    assert StreamOk(st, b, s);
    var st' := DoLose(st, s, i, j);
    forall c | 0 <= c < |st.calls| ensures StaysOf(st, st', c) {
      var req := Request(st, c);
      var cancel := CancelRequest(st.calls[c].id, c);
      if cancel in st'.streams[s].down && req in st.streams[s].down {
        var m :| 0 <= m < i && st.streams[s].down[m] == cancel;
        var n :| 0 <= n < |st.streams[s].down| && st.streams[s].down[n] == req;
        assert n < m;
        assert st'.streams[s].down[n] == req;
      }
    }
  }

  lemma LoseStep(st: State, b: Book, s: nat, i: nat, j: nat)
    requires Inv(st, b) && CanLose(st, s, i, j)
    ensures Step(st, b, DoLose(st, s, i, j), b, NONE.(s1 := s))
  {
    OrderSurvives(st, b, s, i, j);
    hide MessagesStay, StreamOk, CallOk, ProxyOk, AgentOk, TaskOk;
  }

  lemma KeepLose(st: State, b: Book, s: nat, i: nat, j: nat) returns (b': Book)
    requires Inv(st, b) && CanLose(st, s, i, j)
    ensures Inv(DoLose(st, s, i, j), b')
  {
    hide StreamOk, CallOk, ProxyOk, AgentOk, TaskOk, StreamsSame, CallsSame, MessagesStay, ProxiesSame, TasksSame;
    b' := b;
    LoseStep(st, b, s, i, j);
    assert StreamOk(st, b, s);
    TruncateKept(st, b, DoLose(st, s, i, j), b, s, i, j);
    Assemble(st, b, DoLose(st, s, i, j), b', NONE.(s1 := s));
  }
}
