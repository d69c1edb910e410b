/** A cancel gets through.  While the way of a call stays as it is, every cancel of it that has been
    sent ends with no goroutine of the call running uncanceled.

    Three things are shown to stay along every run.  What goes down for the call is only ever on its
    route, in the hands of the proxy behind it, and on the stream of its host (`OnWay`); so the cancel
    cannot overtake its request anywhere.  Once the call has given up, its cancel is on that way
    (`CancelComing`) until a hop takes it, and then it is on the next hop, or nothing is left that
    could run uncanceled.  And that nothing is left stays so (`Stopped`).

    The proofs have one lemma per kind of event. */
module ProtocolCancelRuns {
  import opened Tunnel
  import opened RouterTable
  import opened RelayTable
  import opened Protocol
  import opened ProtocolInvariant
  import opened ProtocolTheorems
  import opened ProtocolCancel
  import AgentSteps = ProtocolAgentSteps
  import Frames = ProtocolFrames

  /** Call `c` goes to agent `a`, on stream `to`. */
  datatype Way = Way(c: nat, to: nat, a: nat)

  /** The call's route and the stream to its agent are not broken; they are the same stream, or the
      route leads to a proxy whose table has the other for the call's host. */
  predicate Open(st: State, w: Way) {
    && w.c < |st.calls| && st.calls[w.c].route < |st.streams| && w.to < |st.streams|
    && !st.streams[st.calls[w.c].route].broken && !st.streams[w.to].broken
    && st.streams[w.to].client == AgentNode(w.a)
    && match st.streams[st.calls[w.c].route].client
       case AgentNode(_) => w.to == st.calls[w.c].route
       case ProxyNode(p) =>
         && p < |st.proxies| && st.streams[w.to].server == AtProxy(p)
         && st.calls[w.c].host in st.proxies[p].relay.table
         && st.proxies[p].relay.table[st.calls[w.c].host] == w.to
  }

  predicate IsRequest(m: Msg, c: nat) {
    m.ToolRequest? && m.origin == c
  }

  function TheCancel(st: State, c: nat): Msg
    requires c < |st.calls|
  {
    CancelRequest(st.calls[c].id, c)
  }

  /** The stream the read loop is about to send on. */
  function Toward(r: Reader): Option<nat> {
    match r
    case Storing(_, to) => Some(to)
    case Sending(_, to) => Some(to)
    case CancelSending(_, to) => Some(to)
    case _ => None
  }

  predicate HoldsOf(r: Reader, c: nat) {
    Held(r).Some? && Held(r).value.origin == c
  }

  /** What goes down for the call is only ever on the way, and its goroutine at the agent. */
  ghost predicate OnWay(st: State, w: Way)
    requires Open(st, w)
  {
    var route := st.calls[w.c].route;
    && (forall s, i | 0 <= s < |st.streams| && 0 <= i < |st.streams[s].down| && st.streams[s].down[i].origin == w.c ::
          s == route || s == w.to)
    && (forall p | 0 <= p < |st.proxies| && HoldsOf(st.proxies[p].reader, w.c) ::
          st.streams[route].client == ProxyNode(p)
          && (Toward(st.proxies[p].reader).Some? ==> Toward(st.proxies[p].reader).value == w.to))
    && (forall t | 0 <= t < |st.tasks| && st.tasks[t].origin == w.c :: st.tasks[t].agent == w.a)
  }

  predicate GaveUp(st: State, c: nat) {
    && c < |st.calls|
    && (st.calls[c].phase == Closing || st.calls[c].phase == Returned)
    && (st.calls[c].outcome == TimedOut || st.calls[c].outcome == Canceled)
  }

  /** The cancel is on its way. */
  predicate CancelComing(st: State, w: Way)
    requires Open(st, w)
  {
    var route := st.calls[w.c].route;
    || TheCancel(st, w.c) in st.streams[route].down
    || TheCancel(st, w.c) in st.streams[w.to].down
    || (match st.streams[route].client
        case AgentNode(_) => false
        case ProxyNode(p) =>
          || st.proxies[p].reader == CancelRouting(TheCancel(st, w.c), st.calls[w.c].host)
          || st.proxies[p].reader == CancelSending(TheCancel(st, w.c), w.to))
  }

  /** No goroutine of the call runs uncanceled, and none can start any more. */
  ghost predicate Stopped(st: State, c: nat) {
    && c < |st.calls| && st.calls[c].phase != Stored
    && (forall s, i | 0 <= s < |st.streams| && 0 <= i < |st.streams[s].down| :: !IsRequest(st.streams[s].down[i], c))
    && (forall p | 0 <= p < |st.proxies| :: !Holds(st.proxies[p].reader, c))
    && (forall t | 0 <= t < |st.tasks| && st.tasks[t].origin == c ::
          st.tasks[t].phase != Running || st.tasks[t].canceled)
  }

  // ----- a stopped call stays stopped -----

  lemma StoppedStaysCenter(st: State, e: CenterEvent, c: nat)
    requires CanCenter(st, e) && Stopped(st, c)
    ensures Stopped(NextCenter(st, e), c)
  {
  }

  /** The steps of the proxy's upstream read loop on requests. */
  predicate OnRequest(e: RelayEvent) {
    e.RelayLookup? || e.RelayStore? || e.RelaySend? || e.RelayUndo? || e.RelayRefuse?
  }

  lemma StoppedStaysRequest(st: State, e: RelayEvent, c: nat)
    requires CanRelay(st, e) && Stopped(st, c) && OnRequest(e)
    ensures Stopped(NextRelay(st, e), c)
  {
  }

  lemma StoppedStaysReturn(st: State, e: RelayEvent, c: nat)
    requires CanRelay(st, e) && Stopped(st, c) && !OnRequest(e)
    ensures Stopped(NextRelay(st, e), c)
  {
  }

  lemma StoppedStaysAgent(st: State, e: AgentEvent, c: nat)
    requires CanAgent(st, e) && Stopped(st, c)
    ensures Stopped(NextAgent(st, e), c)
  {
  }

  lemma StoppedStaysNetwork(st: State, e: NetworkEvent, c: nat)
    requires CanNetwork(st, e) && Stopped(st, c)
    ensures Stopped(NextNetwork(st, e), c)
  {
  }

  lemma StoppedStays(st: State, e: Event, c: nat)
    requires Can(st, e) && Stopped(st, c)
    ensures Stopped(Next(st, e), c)
  {
    hide Stopped;
    match e
    case AtCenter(x) => StoppedStaysCenter(st, x, c);
    case AtRelay(x) =>
      if OnRequest(x) {
        StoppedStaysRequest(st, x, c);
      } else {
        StoppedStaysReturn(st, x, c);
      }
    case AtAgent(x) => StoppedStaysAgent(st, x, c);
    case AtNetwork(x) => StoppedStaysNetwork(st, x, c);
  }

  // ----- the request keeps to its way -----

  /** The center sends only down the call's route. */
  lemma OnWayStaysDown(st: State, e: CenterEvent, w: Way)
    requires CanCenter(st, e) && Open(st, w) && OnWay(st, w) && Open(NextCenter(st, e), w)
    requires e.SendRequest? || e.SendCancel?
    ensures OnWay(NextCenter(st, e), w)
  {
  }

  lemma OnWayStaysCenter(st: State, e: CenterEvent, w: Way)
    requires CanCenter(st, e) && Open(st, w) && OnWay(st, w) && Open(NextCenter(st, e), w)
    requires !e.SendRequest? && !e.SendCancel?
    ensures OnWay(NextCenter(st, e), w)
  {
  }

  lemma OnWayStaysSend(st: State, p: nat, ok: bool, w: Way)
    requires CanRelaySend(st, p, ok) && Open(st, w) && OnWay(st, w) && Open(DoRelaySend(st, p, ok), w)
    ensures OnWay(DoRelaySend(st, p, ok), w)
  {
  }

  lemma OnWayStaysRequest(st: State, e: RelayEvent, w: Way)
    requires CanRelay(st, e) && Open(st, w) && OnWay(st, w) && Open(NextRelay(st, e), w)
    requires e.RelayStore? || e.RelayUndo? || e.RelayRefuse?
    ensures OnWay(NextRelay(st, e), w)
  {
  }

  /** A proxy that takes a message of the call takes it from the route. */
  lemma TakenFromRoute(st: State, b: Book, p: nat, w: Way)
    requires Inv(st, b) && ReaderFree(st, p) && Open(st, w) && OnWay(st, w)
    requires NextUpstream(st, p).origin == w.c
    ensures st.proxies[p].link.stream == st.calls[w.c].route
    ensures st.streams[st.calls[w.c].route].client == ProxyNode(p)
    ensures NextUpstream(st, p).id == st.calls[w.c].id
    ensures NextUpstream(st, p).ToolRequest? ==> NextUpstream(st, p).target == st.calls[w.c].host
  {
    hide StreamOk, CallOk, AgentOk, TaskOk, ReaderOk, EntryOk, Remembered;
    assert ProxyOk(st, b, p);
    AgentSteps.DownHead(st, b, st.proxies[p].link.stream);
  }

  lemma OnWayStaysLookup(st: State, b: Book, p: nat, w: Way)
    requires Inv(st, b) && CanRelayLookup(st, p) && Open(st, w) && OnWay(st, w)
    requires Open(DoRelayLookup(st, p), w)
    ensures OnWay(DoRelayLookup(st, p), w)
  {
    hide Inv;
    if NextUpstream(st, p).origin == w.c {
      TakenFromRoute(st, b, p, w);
    }
  }

  lemma OnWayStaysTake(st: State, b: Book, p: nat, w: Way)
    requires Inv(st, b) && CanRelayCancel(st, p) && Open(st, w) && OnWay(st, w)
    requires Open(DoRelayCancel(st, p), w)
    ensures OnWay(DoRelayCancel(st, p), w)
  {
    hide Inv;
    if NextUpstream(st, p).origin == w.c {
      TakenFromRoute(st, b, p, w);
    }
  }

  /** The steps of the proxy's upstream read loop on cancels. */
  predicate OnCancel(e: RelayEvent) {
    e.RelayCancel? || e.RelayCancelLookup? || e.RelayCancelSend?
  }

  lemma OnWayStaysRouting(st: State, b: Book, p: nat, w: Way)
    requires Inv(st, b) && CanRelayCancelLookup(st, p) && Open(st, w) && OnWay(st, w)
    requires Open(DoRelayCancelLookup(st, p), w)
    ensures OnWay(DoRelayCancelLookup(st, p), w)
  {
    hide StreamOk, CallOk, AgentOk, TaskOk, EntryOk, Remembered;
    assert ProxyOk(st, b, p);
  }

  lemma OnWayStaysCancelSend(st: State, p: nat, ok: bool, w: Way)
    requires CanRelayCancelSend(st, p, ok) && Open(st, w) && OnWay(st, w) && Open(DoRelayCancelSend(st, p, ok), w)
    ensures OnWay(DoRelayCancelSend(st, p, ok), w)
  {
  }

  lemma OnWayStaysReturn(st: State, e: RelayEvent, w: Way)
    requires CanRelay(st, e) && Open(st, w) && OnWay(st, w) && Open(NextRelay(st, e), w)
    requires !OnRequest(e) && !OnCancel(e)
    ensures OnWay(NextRelay(st, e), w)
  {
  }

  /** A request of the call starts its goroutine at the agent of the way. */
  lemma OnWayStaysStart(st: State, a: nat, w: Way)
    requires CanAgentStart(st, a) && AgentOk(st, a) && Open(st, w) && OnWay(st, w)
    requires Open(DoAgentStart(st, a), w)
    ensures OnWay(DoAgentStart(st, a), w)
  {
    hide EntryOk;
  }

  lemma OnWayStaysAgent(st: State, e: AgentEvent, w: Way)
    requires CanAgent(st, e) && !e.AgentStart? && Open(st, w) && OnWay(st, w) && Open(NextAgent(st, e), w)
    ensures OnWay(NextAgent(st, e), w)
  {
  }

  /** A link that goes down breaks its stream, which is none of the way. */
  lemma OnWayStaysBroken(st: State, e: NetworkEvent, w: Way)
    requires CanNetwork(st, e) && Open(st, w) && OnWay(st, w) && Open(NextNetwork(st, e), w)
    requires e.ProxyDown? || e.AgentDown?
    ensures OnWay(NextNetwork(st, e), w)
  {
  }

  lemma OnWayStaysNetwork(st: State, e: NetworkEvent, w: Way)
    requires CanNetwork(st, e) && Open(st, w) && OnWay(st, w) && Open(NextNetwork(st, e), w)
    requires !e.ProxyDown? && !e.AgentDown?
    ensures OnWay(NextNetwork(st, e), w)
  {
  }

  lemma AgentHolds(st: State, b: Book, a: nat)
    requires Inv(st, b) && a < |st.agents|
    ensures AgentOk(st, a)
  {
    hide AgentOk, StreamOk, CallOk, ProxyOk, TaskOk;
  }

  lemma OnWayStays(st: State, b: Book, e: Event, w: Way)
    requires Inv(st, b) && Can(st, e) && Open(st, w) && OnWay(st, w) && Open(Next(st, e), w)
    ensures OnWay(Next(st, e), w)
  {
    hide OnWay, Inv, Open;
    match e
    case AtCenter(x) =>
      if x.SendRequest? || x.SendCancel? {
        OnWayStaysDown(st, x, w);
      } else {
        OnWayStaysCenter(st, x, w);
      }
    case AtRelay(x) =>
      if x.RelayLookup? {
        OnWayStaysLookup(st, b, x.p, w);
      } else if x.RelaySend? {
        OnWayStaysSend(st, x.p, x.ok, w);
      } else if OnRequest(x) {
        OnWayStaysRequest(st, x, w);
      } else if x.RelayCancel? {
        OnWayStaysTake(st, b, x.p, w);
      } else if x.RelayCancelLookup? {
        OnWayStaysRouting(st, b, x.p, w);
      } else if x.RelayCancelSend? {
        OnWayStaysCancelSend(st, x.p, x.ok, w);
      } else {
        OnWayStaysReturn(st, x, w);
      }
    case AtAgent(x) =>
      if x.AgentStart? {
        AgentHolds(st, b, x.a);
        OnWayStaysStart(st, x.a, w);
      } else {
        OnWayStaysAgent(st, x, w);
      }
    case AtNetwork(x) =>
      if x.ProxyDown? || x.AgentDown? {
        OnWayStaysBroken(st, x, w);
      } else {
        OnWayStaysNetwork(st, x, w);
      }
  }

  // ----- the cancel keeps coming -----

  lemma ComingStaysCenter(st: State, e: CenterEvent, w: Way)
    requires CanCenter(st, e) && Open(st, w) && CancelComing(st, w) && Open(NextCenter(st, e), w)
    ensures CancelComing(NextCenter(st, e), w)
  {
  }

  lemma ComingStaysNetwork(st: State, e: NetworkEvent, w: Way)
    requires CanNetwork(st, e) && Open(st, w) && CancelComing(st, w) && Open(NextNetwork(st, e), w)
    ensures CancelComing(NextNetwork(st, e), w)
  {
  }

  lemma ComingStaysRelay(st: State, e: RelayEvent, w: Way)
    requires CanRelay(st, e) && Open(st, w) && CancelComing(st, w) && Open(NextRelay(st, e), w)
    requires e.RelayCancel? ==> NextUpstream(st, e.p) != TheCancel(st, w.c)
    ensures CancelComing(NextRelay(st, e), w)
  {
  }

  lemma ComingStaysAgent(st: State, e: AgentEvent, w: Way)
    requires CanAgent(st, e) && Open(st, w) && CancelComing(st, w) && Open(NextAgent(st, e), w)
    requires e.AgentCancel? ==> NextForAgent(st, e.a) != TheCancel(st, w.c)
    ensures CancelComing(NextAgent(st, e), w)
  {
  }

  /** A proxy that takes the cancel passes it on, or there is nothing left to cancel. */
  lemma ProxyTakesCancel(st: State, b: Book, p: nat, w: Way)
    requires Inv(st, b) && CanRelayCancel(st, p) && Open(st, w) && OnWay(st, w)
    requires NextUpstream(st, p) == TheCancel(st, w.c) && Open(DoRelayCancel(st, p), w)
    ensures CancelComing(DoRelayCancel(st, p), w) || Stopped(DoRelayCancel(st, p), w.c)
  {
    hide Inv, Stopped;
    TakenFromRoute(st, b, p, w);
    if BehindProxy(st, w.c, p) {
      ProxyKnowsTheCall(st, b, p);
    } else {
      NothingBehind(st, b, p, w);
      StoppedStaysReturn(st, RelayEvent.RelayCancel(p), w.c);
    }
  }

  lemma NothingBehind(st: State, b: Book, p: nat, w: Way)
    requires Inv(st, b) && CanRelayCancel(st, p) && Open(st, w) && OnWay(st, w)
    requires NextUpstream(st, p) == TheCancel(st, w.c) && !BehindProxy(st, w.c, p)
    requires st.proxies[p].link.stream == st.calls[w.c].route
    requires st.streams[st.calls[w.c].route].client == ProxyNode(p)
    ensures Stopped(st, w.c)
  {
    hide ProxyOk, AgentOk, TaskOk;
    var route := st.calls[w.c].route;
    Frames.CancelFirst(st, b, route);
    assert StreamOk(st, b, route);
    forall s, i | 0 <= s < |st.streams| && 0 <= i < |st.streams[s].down|
      ensures !IsRequest(st.streams[s].down[i], w.c)
    {
      if s == route {
        assert DownMsgOk(st, b, s, st.streams[s].down[i]);
      }
    }
  }

  /** An agent that takes the cancel stops the call. */
  lemma AgentTakesCancel(st: State, b: Book, a: nat, w: Way)
    requires Inv(st, b) && CanAgentCancel(st, a) && Open(st, w) && OnWay(st, w)
    requires NextForAgent(st, a) == TheCancel(st, w.c)
    ensures Stopped(DoAgentCancel(st, a), w.c)
  {
    hide Inv, NoRequest;
    AtItsAgent(st, b, a, w);
    NoRequestLeft(st, b, a, w);
    RightTask(st, b, a);
    NoRequestAfter(st, a, w.c);
    hide OnWay;
    forall t | 0 <= t < |st.tasks| && st.tasks[t].origin == w.c
      ensures DoAgentCancel(st, a).tasks[t].phase != Running || DoAgentCancel(st, a).tasks[t].canceled
    {
      assert st.tasks[t].agent == a;
    }
  }

  lemma AtItsAgent(st: State, b: Book, a: nat, w: Way)
    requires Inv(st, b) && CanAgentCancel(st, a) && Open(st, w) && OnWay(st, w)
    requires NextForAgent(st, a) == TheCancel(st, w.c)
    ensures a == w.a && st.agents[a].link.stream == w.to
  {
    hide ProxyOk, TaskOk, StreamOk, CallOk;
    AgentSteps.AgentHead(st, b, a);
  }

  ghost predicate NoRequest(st: State, c: nat) {
    && c < |st.calls| && st.calls[c].phase != Stored
    && (forall s, i | 0 <= s < |st.streams| && 0 <= i < |st.streams[s].down| :: !IsRequest(st.streams[s].down[i], c))
    && (forall p | 0 <= p < |st.proxies| :: !Holds(st.proxies[p].reader, c))
  }

  lemma NoRequestAfter(st: State, a: nat, c: nat)
    requires CanAgentCancel(st, a) && NoRequest(st, c)
    ensures NoRequest(DoAgentCancel(st, a), c)
  {
  }

  lemma NoRequestLeft(st: State, b: Book, a: nat, w: Way)
    requires Inv(st, b) && CanAgentCancel(st, a) && Open(st, w) && OnWay(st, w)
    requires NextForAgent(st, a) == TheCancel(st, w.c) && st.agents[a].link.stream == w.to
    ensures NoRequest(st, w.c)
  {
    hide AgentOk, TaskOk, ReaderOk, EntryOk, Remembered;
    Frames.CancelFirst(st, b, w.to);
    forall s, i | 0 <= s < |st.streams| && 0 <= i < |st.streams[s].down|
      ensures !IsRequest(st.streams[s].down[i], w.c)
    {
      assert StreamOk(st, b, s);
      assert DownMsgOk(st, b, s, st.streams[s].down[i]);
    }
    forall p | 0 <= p < |st.proxies| ensures !Holds(st.proxies[p].reader, w.c) {
      NotHeld(st, b, p, w);
    }
  }

  lemma NotHeld(st: State, b: Book, p: nat, w: Way)
    requires Inv(st, b) && p < |st.proxies| && Open(st, w) && OnWay(st, w)
    requires w.c < |b.cancel| && b.cancel[w.c] == CancelOnDown(w.to) && CallOk(st, b, w.c)
    ensures !Holds(st.proxies[p].reader, w.c)
  {
    hide AgentOk, TaskOk, StreamOk, EntryOk, Remembered;
    assert ProxyOk(st, b, p);
  }

  // ----- the theorem -----

  /** Of a call that gave up, the cancel is on its way or the goroutine stopped. */
  ghost predicate Watched(st: State, w: Way) {
    Open(st, w) && OnWay(st, w) && (GaveUp(st, w.c) ==> CancelComing(st, w) || Stopped(st, w.c))
  }

  lemma GivesUpAtCenter(st: State, e: CenterEvent, w: Way)
    requires CanCenter(st, e) && Open(st, w) && Open(NextCenter(st, e), w)
    requires !GaveUp(st, w.c) && GaveUp(NextCenter(st, e), w.c)
    ensures CancelComing(NextCenter(st, e), w)
  {
  }

  /** A call gives up by sending its cancel. */
  lemma GivesUpBySending(st: State, e: Event, w: Way)
    requires Can(st, e) && Open(st, w) && Open(Next(st, e), w)
    requires !GaveUp(st, w.c) && GaveUp(Next(st, e), w.c)
    ensures CancelComing(Next(st, e), w)
  {
    hide Open, CancelComing;
    match e
    case AtCenter(x) => GivesUpAtCenter(st, x, w);
    case AtRelay(x) => NextCallsRelay(st, x);
    case AtAgent(x) =>
    case AtNetwork(x) => NextCallsNetwork(st, x);
  }

  lemma WatchedStays(st: State, b: Book, e: Event, w: Way)
    requires Inv(st, b) && Can(st, e) && Watched(st, w) && Open(Next(st, e), w)
    ensures Watched(Next(st, e), w)
  {
    hide Inv, Open, OnWay, GaveUp, CancelComing, Stopped;
    OnWayStays(st, b, e, w);
    if GaveUp(Next(st, e), w.c) {
      if !GaveUp(st, w.c) {
        GivesUpBySending(st, e, w);
      } else if Stopped(st, w.c) {
        StoppedStays(st, e, w.c);
      } else {
        CancelGoesOn(st, b, e, w);
      }
    }
  }

  lemma CancelGoesOn(st: State, b: Book, e: Event, w: Way)
    requires Inv(st, b) && Can(st, e) && Open(st, w) && OnWay(st, w) && CancelComing(st, w) && Open(Next(st, e), w)
    ensures CancelComing(Next(st, e), w) || Stopped(Next(st, e), w.c)
  {
    hide Inv, OnWay, CancelComing, Stopped;
    match e
    case AtCenter(x) => ComingStaysCenter(st, x, w);
    case AtRelay(x) =>
      if x.RelayCancel? && NextUpstream(st, x.p) == TheCancel(st, w.c) {
        ProxyTakesCancel(st, b, x.p, w);
      } else {
        ComingStaysRelay(st, x, w);
      }
    case AtAgent(x) =>
      if x.AgentCancel? && NextForAgent(st, x.a) == TheCancel(st, w.c) {
        AgentTakesCancel(st, b, x.a, w);
      } else {
        ComingStaysAgent(st, x, w);
      }
    case AtNetwork(x) => ComingStaysNetwork(st, x, w);
  }

  /** The way stays open in every state of the run. */
  ghost predicate StaysOpen(st: State, es: seq<Event>, w: Way)
    requires Run(st, es)
    decreases |es|
  {
    Open(st, w) && (es == [] || StaysOpen(Next(st, es[0]), es[1..], w))
  }

  lemma {:induction false} WatchedAlong(st: State, b: Book, es: seq<Event>, w: Way)
    requires Inv(st, b) && Watched(st, w) && Run(st, es) && StaysOpen(st, es, w)
    ensures Watched(After(st, es), w)
    decreases |es|
  {
    if es != [] {
      hide Inv, Watched, Can, Next, Open, IdFree;
      assert StaysOpen(Next(st, es[0]), es[1..], w);
      assert Open(Next(st, es[0]), w);
      WatchedStays(st, b, es[0], w);
      var b' := Keep(st, b, es[0]);
      WatchedAlong(Next(st, es[0]), b', es[1..], w);
    }
  }

  /** Before its request is sent, nothing of a call is anywhere. */
  lemma WatchedFromStart(st: State, b: Book, w: Way)
    requires Inv(st, b) && Open(st, w) && st.calls[w.c].phase == Stored
    ensures Watched(st, w)
  {
    hide AgentOk, EntryOk, Remembered;
    assert CallOk(st, b, w.c);
    forall s, i | 0 <= s < |st.streams| && 0 <= i < |st.streams[s].down|
      ensures st.streams[s].down[i].origin != w.c
    {
      assert StreamOk(st, b, s);
      assert DownMsgOk(st, b, s, st.streams[s].down[i]);
    }
    forall p | 0 <= p < |st.proxies| ensures !HoldsOf(st.proxies[p].reader, w.c) {
      assert ProxyOk(st, b, p);
    }
  }

  /** From the moment a call is stored: if its route and the stream of its host do not break, and a
      proxy in between keeps its host in its table, then whatever else happens, once the call has
      given up and its cancel is on its way no longer, no goroutine of the call runs uncanceled, and
      none ever will. */
  lemma CancelGetsThrough(st: State, es: seq<Event>, w: Way, later: seq<Event>)
    requires Reachable(st) && Run(st, es) && StaysOpen(st, es, w) && st.calls[w.c].phase == Stored
    requires GaveUp(After(st, es), w.c) && Open(After(st, es), w) && !CancelComing(After(st, es), w)
    requires Run(After(st, es), later)
    ensures Stopped(After(After(st, es), later), w.c)
  {
    hide Inv, Open, OnWay, Stopped, Reachable, Run, After;
    var b := Reached(st);
    WatchedFromStart(st, b, w);
    WatchedAlong(st, b, es, w);
    StoppedForever(After(st, es), later, w.c);
  }

  lemma {:induction false} StoppedForever(st: State, es: seq<Event>, c: nat)
    requires Stopped(st, c) && Run(st, es)
    ensures Stopped(After(st, es), c)
    decreases |es|
  {
    hide Stopped, Can, Next, IdFree;
    if es != [] {
      StoppedStays(st, es[0], c);
      StoppedForever(Next(st, es[0]), es[1..], c);
    }
  }
}
