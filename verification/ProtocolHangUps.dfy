/** What is left of a stream that broke or was hung up on.

    A dialer that hangs up breaks its stream.  A broken stream stays broken; nothing gets on it any
    more, though what was on it may still be read or get lost; and the dialer never comes back to it
    but dials a new one. */
module ProtocolHangUps {
  import opened Tunnel
  import opened RouterTable
  import opened RelayTable
  import opened Protocol

  /** `s` is broken, and holds nothing it did not hold in `before`. */
  predicate Dead(st: State, s: nat, before: Stream) {
    && s < |st.streams| && st.streams[s].broken
    && (forall m | m in st.streams[s].down :: m in before.down)
    && (forall m | m in st.streams[s].up :: m in before.up)
  }

  lemma DeadAtCenter(st: State, e: CenterEvent, s: nat, before: Stream)
    requires Dead(st, s, before) && CanCenter(st, e)
    ensures Dead(NextCenter(st, e), s, before)
  {
  }

  lemma DeadAtRelay(st: State, e: RelayEvent, s: nat, before: Stream)
    requires Dead(st, s, before) && CanRelay(st, e)
    ensures Dead(NextRelay(st, e), s, before)
  {
  }

  lemma DeadAtAgent(st: State, e: AgentEvent, s: nat, before: Stream)
    requires Dead(st, s, before) && CanAgent(st, e)
    ensures Dead(NextAgent(st, e), s, before)
  {
  }

  lemma DeadAtNetwork(st: State, e: NetworkEvent, s: nat, before: Stream)
    requires Dead(st, s, before) && CanNetwork(st, e)
    ensures Dead(NextNetwork(st, e), s, before)
  {
  }

  lemma DeadStays(st: State, e: Event, s: nat, before: Stream)
    requires Dead(st, s, before) && Can(st, e)
    ensures Dead(Next(st, e), s, before)
  {
    hide Dead, CanCenter, CanRelay, CanAgent, CanNetwork, NextCenter, NextRelay, NextAgent, NextNetwork;
    match e
    case AtCenter(x) => DeadAtCenter(st, x, s, before);
    case AtRelay(x) => DeadAtRelay(st, x, s, before);
    case AtAgent(x) => DeadAtAgent(st, x, s, before);
    case AtNetwork(x) => DeadAtNetwork(st, x, s, before);
  }

  /** The link a client's dialer has. */
  function LinkOf(st: State, client: Client): Option<Link> {
    match client
    case AgentNode(a) => if a < |st.agents| then Some(st.agents[a].link) else None
    case ProxyNode(p) => if p < |st.proxies| then Some(st.proxies[p].link) else None
  }

  /** The dialer is down, or on a stream opened after the first `n`. */
  predicate Elsewhere(st: State, client: Client, n: nat) {
    n <= |st.streams| && LinkOf(st, client).Some?
    && (LinkOf(st, client).value.Down? || LinkOf(st, client).value.stream >= n)
  }

  lemma LinksAtCenter(st: State, e: CenterEvent)
    requires CanCenter(st, e)
    ensures NextCenter(st, e).agents == st.agents && NextCenter(st, e).proxies == st.proxies
    ensures |NextCenter(st, e).streams| == |st.streams|
  {
  }

  lemma LinksAtRelay(st: State, e: RelayEvent, client: Client)
    requires CanRelay(st, e)
    ensures LinkOf(NextRelay(st, e), client) == LinkOf(st, client)
    ensures |NextRelay(st, e).streams| == |st.streams|
  {
  }

  lemma LinksAtAgent(st: State, e: AgentEvent, client: Client)
    requires CanAgent(st, e)
    ensures LinkOf(NextAgent(st, e), client) == LinkOf(st, client)
    ensures |NextAgent(st, e).streams| == |st.streams|
  {
  }

  lemma ElsewhereAtNetwork(st: State, e: NetworkEvent, client: Client, n: nat)
    requires Elsewhere(st, client, n) && CanNetwork(st, e)
    ensures Elsewhere(NextNetwork(st, e), client, n)
  {
  }

  lemma ElsewhereStays(st: State, e: Event, client: Client, n: nat)
    requires Elsewhere(st, client, n) && Can(st, e)
    ensures Elsewhere(Next(st, e), client, n)
  {
    hide CanCenter, CanRelay, CanAgent, CanNetwork, NextCenter, NextRelay, NextAgent, NextNetwork;
    match e
    case AtCenter(x) => LinksAtCenter(st, x);
    case AtRelay(x) => LinksAtRelay(st, x, client);
    case AtAgent(x) => LinksAtAgent(st, x, client);
    case AtNetwork(x) => ElsewhereAtNetwork(st, x, client, n);
  }

  lemma {:induction false} DeadForever(st: State, es: seq<Event>, s: nat, before: Stream)
    requires Dead(st, s, before) && Run(st, es)
    ensures Dead(After(st, es), s, before)
    decreases |es|
  {
    if es != [] {
      hide Dead, Can, Next, IdFree;
      DeadStays(st, es[0], s, before);
      DeadForever(Next(st, es[0]), es[1..], s, before);
    }
  }

  lemma {:induction false} ElsewhereForever(st: State, es: seq<Event>, client: Client, n: nat)
    requires Elsewhere(st, client, n) && Run(st, es)
    ensures Elsewhere(After(st, es), client, n)
    decreases |es|
  {
    if es != [] {
      hide Elsewhere, Can, Next, IdFree;
      ElsewhereStays(st, es[0], client, n);
      ElsewhereForever(Next(st, es[0]), es[1..], client, n);
    }
  }

  /** A stream that breaks is broken for ever, and from then on nothing new is ever on it. */
  lemma BrokenIsBrokenForever(st: State, s: nat, es: seq<Event>)
    requires CanNetwork(st, Break(s)) && Run(Next(st, AtNetwork(Break(s))), es)
    ensures Dead(After(Next(st, AtNetwork(Break(s))), es), s, st.streams[s])
  {
    hide Run, After;
    DeadForever(Next(st, AtNetwork(Break(s))), es, s, st.streams[s]);
  }

  /** The event is the hang-up of `client`. */
  predicate HangsUp(e: NetworkEvent, client: Client) {
    match e
    case ProxyDown(p) => client == ProxyNode(p)
    case AgentDown(a) => client == AgentNode(a)
    case _ => false
  }

  /** A dialer that hangs up leaves its stream broken for ever, with nothing new on it, and never uses it
      again: it is down or on a stream opened later. */
  lemma HangUpIsForGood(st: State, e: NetworkEvent, client: Client, es: seq<Event>)
    requires CanNetwork(st, e) && HangsUp(e, client)
    requires Run(Next(st, AtNetwork(e)), es)
    ensures LinkOf(st, client).Some? && !LinkOf(st, client).value.Down?
    ensures LinkOf(Next(st, AtNetwork(e)), client) == Some(Down)
    ensures var s, end := LinkOf(st, client).value.stream, After(Next(st, AtNetwork(e)), es);
            && s < |st.streams| && Dead(end, s, st.streams[s])
            && Elsewhere(end, client, |st.streams|)
  {
    hide Run, After;
    DeadForever(Next(st, AtNetwork(e)), es, LinkOf(st, client).value.stream, st.streams[LinkOf(st, client).value.stream]);
    ElsewhereForever(Next(st, AtNetwork(e)), es, client, |st.streams|);
  }
}
