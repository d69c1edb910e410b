/** The inductive invariant of the tool-call protocol.  It is stated over a state and a `Book`
    that records, for every call, where its request or reply is and where its cancel is. */
module ProtocolInvariant {
  import opened Tunnel
  import opened RouterTable
  import opened RelayTable
  import opened Protocol

  /** Where a call's request or reply is, or was when it got lost. */
  datatype Loc =
    | Unsent
    | OnDown(s: nat)
    | AtReader(p: nat)
    | AtTask(t: nat)
    | OnUp(s: nat)
    | AtHandler(s: nat)
    | InSlot
    | Consumed
    | Lost

  /** Where a call's cancel is, or was when it got lost. */
  datatype CancelLoc = NotSent | CancelOnDown(s: nat) | CancelAtReader(p: nat) | CancelOver

  datatype Book = Book(loc: seq<Loc>, cancel: seq<CancelLoc>)

  /** No later call uses the same ID. */
  ghost predicate Current(st: State, c: nat) {
    c < |st.calls| && forall d | c < d < |st.calls| :: st.calls[d].id != st.calls[c].id
  }

  ghost predicate NoTask(st: State, c: nat) {
    forall t | 0 <= t < |st.tasks| :: st.tasks[t].origin != c
  }

  /** A reply says what its maker said, about the call it was made for. */
  ghost predicate Authentic(st: State, m: Msg)
    requires m.Reply?
  {
    && m.origin < |st.calls|
    && match m.maker
       case MadeByTask(t) =>
         t < |st.tasks| && st.tasks[t].origin == m.origin && st.tasks[t].reply == Some(m.body)
       case MadeByProxy(p) =>
         m.body == HostNotFound(st.calls[m.origin].host) && NoTask(st, m.origin)
  }

  ghost predicate MsgOk(st: State, m: Msg) {
    && m.origin < |st.calls|
    && m.id == st.calls[m.origin].id
    && Current(st, m.origin)
    && (m.ToolRequest? ==> m == Request(st, m.origin))
    && (m.Reply? ==> Authentic(st, m))
  }

  /** The route of call `c` leads to proxy `p`, over a stream `p` has been accepted on. */
  predicate Via(st: State, c: nat, p: nat) {
    && c < |st.calls|
    && st.calls[c].route < |st.streams|
    && st.streams[st.calls[c].route].client == ProxyNode(p)
    && st.streams[st.calls[c].route].accepted
  }

  /** Stream `s` is a hop on the way of call `c`: its route, or a stream of the proxy its route
      leads to that ends at an agent of the right name. */
  predicate Hop(st: State, c: nat, s: nat) {
    && c < |st.calls|
    && s < |st.streams|
    && (s == st.calls[c].route
        || (&& st.streams[s].server.AtProxy?
            && Via(st, c, st.streams[s].server.proxy)
            && TargetOk(st, st.streams[s].server.proxy, st.calls[c].host, s)))
  }

  predicate Upstream(l: Loc, route: nat) {
    l == Unsent || l == OnDown(route) || l.AtReader?
  }

  // ----- streams -----

  ghost predicate EndsOk(st: State, s: nat)
    requires s < |st.streams|
  {
    && (match st.streams[s].client
        case AgentNode(a) => a < |st.agents| && st.streams[s].server == st.agents[a].parent
        case ProxyNode(p) => p < |st.proxies| && st.streams[s].server == Center)
    && (st.streams[s].server.AtProxy? ==> st.streams[s].server.proxy < |st.proxies|)
  }

  ghost predicate DownMsgOk(st: State, b: Book, s: nat, m: Msg) {
    && MsgOk(st, m)
    && m.origin < |b.loc| && m.origin < |b.cancel|
    && ((m.ToolRequest? && b.loc[m.origin] == OnDown(s))
        || (m.CancelRequest? && b.cancel[m.origin] == CancelOnDown(s)))
  }

  ghost predicate ReplyAt(st: State, b: Book, m: Msg, l: Loc) {
    m.Reply? && MsgOk(st, m) && m.origin < |b.loc| && b.loc[m.origin] == l
  }

  /** Two messages of one call on one stream are its request and, behind it, its cancel. */
  predicate InOrder(q: seq<Msg>) {
    forall i, j | 0 <= i < j < |q| && q[i].origin == q[j].origin ::
      q[i].ToolRequest? && q[j].CancelRequest?
  }

  predicate Distinct(q: seq<Msg>) {
    forall i, j | 0 <= i < j < |q| :: q[i].origin != q[j].origin
  }

  ghost predicate HandOk(st: State, b: Book, s: nat, server: Server, h: Hand) {
    match h
    case Free => true
    case Putting(m, d) => server == Center && ReplyAt(st, b, m, AtHandler(s)) && d == m.origin
    case Forwarding(m) => server.AtProxy? && ReplyAt(st, b, m, AtHandler(s))
  }

  ghost predicate StreamOk(st: State, b: Book, s: nat) {
    && s < |st.streams|
    && var x := st.streams[s];
    && EndsOk(st, s)
    && (forall i | 0 <= i < |x.down| :: DownMsgOk(st, b, s, x.down[i]))
    && InOrder(x.down)
    && (forall i | 0 <= i < |x.up| :: ReplyAt(st, b, x.up[i], OnUp(s)))
    && Distinct(x.up)
    && HandOk(st, b, s, x.server, x.hand)
  }

  // ----- calls -----

  ghost predicate LocOk(st: State, c: nat, l: Loc)
    requires c < |st.calls|
  {
    && (Upstream(l, st.calls[c].route) || l.OnDown? ==> NoTask(st, c))
    && match l
       case Unsent => true
       case OnDown(s) => Hop(st, c, s) && (!st.streams[s].broken ==> Request(st, c) in st.streams[s].down)
       case AtReader(p) => p < |st.proxies| && Via(st, c, p)
       case AtTask(t) => t < |st.tasks| && st.tasks[t].origin == c
       case OnUp(s) => s < |st.streams| && (st.streams[s].server.AtProxy? ==> Via(st, c, st.streams[s].server.proxy))
       case AtHandler(s) => s < |st.streams|
       case InSlot => true
       case Consumed => true
       case Lost => true
  }

  ghost predicate CancelLocOk(st: State, c: nat, l: Loc, k: CancelLoc)
    requires c < |st.calls|
  {
    match k
    case NotSent => true
    case CancelOnDown(s) =>
      && Hop(st, c, s)
      && (s != st.calls[c].route ==> !Upstream(l, st.calls[c].route))
      && (s == st.calls[c].route && !st.streams[s].broken ==>
            CancelRequest(st.calls[c].id, c) in st.streams[s].down)
      && (l == OnDown(s) && CancelRequest(st.calls[c].id, c) in st.streams[s].down ==>
            Request(st, c) in st.streams[s].down)
    case CancelAtReader(p) => p < |st.proxies| && Via(st, c, p) && !Upstream(l, st.calls[c].route)
    case CancelOver => !Upstream(l, st.calls[c].route)
  }

  /** What the phase and the outcome of a call say about its messages. */
  ghost predicate ProgressOk(st: State, c: nat, l: Loc, k: CancelLoc)
    requires c < |st.calls|
  {
    var x := st.calls[c];
    && (x.phase == Stored ==> l == Unsent)
    && (x.phase == Waiting || x.phase == Expired || k != NotSent ==> l != Unsent)
    && (x.phase == Stored || x.phase == Waiting <==> x.outcome == NoOutcome)
    && (x.phase == Expired ==> x.outcome == TimedOut || x.outcome == Canceled)
    && (k != NotSent ==> x.phase == Closing || x.phase == Returned)
    && (k != NotSent ==> x.outcome == TimedOut || x.outcome == Canceled)
    && (x.outcome == SendFailed ==> l == Unsent)
    && (x.outcome.Got? ==> l == Consumed && OwnReply(st, c, x.outcome.reply))
    && ((x.outcome == TimedOut || x.outcome == Canceled) && x.phase != Expired && k == NotSent ==>
          x.route < |st.streams| && st.streams[x.route].broken)
  }

  ghost predicate OwnReply(st: State, c: nat, m: Msg) {
    && c < |st.calls|
    && m.Reply?
    && m.origin == c
    && m.id == st.calls[c].id
    && Authentic(st, m)
  }

  ghost predicate CallOk(st: State, b: Book, c: nat) {
    && c < |st.calls| && c < |st.router.slots| && c < |b.loc| && c < |b.cancel|
    && var x := st.calls[c];
    && RouteOk(st, x.host, x.route)
    && LocOk(st, c, b.loc[c])
    && CancelLocOk(st, c, b.loc[c], b.cancel[c])
    && ProgressOk(st, c, b.loc[c], b.cancel[c])
    && (x.phase != Returned ==> Current(st, c))
    && (x.phase != Returned ==> x.id in st.router.pending && st.router.pending[x.id] == c)
    && (st.router.slots[c].Some? ==> b.loc[c] == InSlot && OwnReply(st, c, st.router.slots[c].value))
  }

  ghost predicate PendingOk(st: State) {
    forall id | id in st.router.pending ::
      var c := st.router.pending[id];
      c < |st.calls| && st.calls[c].id == id && st.calls[c].phase != Returned
  }

  // ----- agents and tasks -----

  ghost predicate LinkOk(st: State, client: Client, link: Link) {
    !link.Down? ==>
      && link.stream < |st.streams|
      && st.streams[link.stream].client == client
  }

  ghost predicate AgentOk(st: State, a: nat) {
    && a < |st.agents|
    && var x := st.agents[a];
    && (x.parent.AtProxy? ==> x.parent.proxy < |st.proxies|)
    && LinkOk(st, AgentNode(a), x.link)
    && (forall id | id in x.cancelFns ::
          var t := x.cancelFns[id];
          t < |st.tasks| && st.tasks[t].agent == a && st.tasks[t].id == id && st.tasks[t].phase != Done)
  }

  /** What an agent answers is what a handler ended with. */
  predicate FromHandler(body: Body) {
    body.ErrorResponse? ==> body.code == "TOOL_NOT_FOUND" || body.code == "TOOL_ERROR"
  }

  ghost predicate TaskOk(st: State, b: Book, t: nat) {
    && t < |st.tasks|
    && var x := st.tasks[t];
    && x.agent < |st.agents| && x.origin < |st.calls| && x.origin < |b.loc|
    && x.id == st.calls[x.origin].id
    && x.job == st.calls[x.origin].job
    && st.agents[x.agent].host == st.calls[x.origin].host
    && (match st.agents[x.agent].parent
        case Center => st.calls[x.origin].route < |st.streams|
                       && st.streams[st.calls[x.origin].route].client == AgentNode(x.agent)
        case AtProxy(p) => Via(st, x.origin, p))
    && (forall u | 0 <= u < |st.tasks| && st.tasks[u].origin == x.origin :: u == t)
    && (x.phase == Running ==> b.loc[x.origin] == AtTask(t) && x.reply == None)
    && (x.phase != Running ==> x.reply.Some? && FromHandler(x.reply.value))
    && (x.phase != Done ==> Current(st, x.origin))
    && (x.phase != Done && !x.canceled ==>
          x.id in st.agents[x.agent].cancelFns && st.agents[x.agent].cancelFns[x.id] == t)
  }

  // ----- proxies -----

  /** The read loop holds the request of call `c`. */
  predicate Holds(r: Reader, c: nat) {
    Held(r).Some? && Held(r).value.ToolRequest? && Held(r).value.origin == c
  }

  predicate HeldAt(b: Book, p: nat, x: Proxy) {
    forall c | 0 <= c < |b.loc| && b.loc[c] == AtReader(p) :: Holds(x.reader, c)
  }

  ghost predicate RequestAt(st: State, b: Book, p: nat, m: Msg) {
    m.ToolRequest? && MsgOk(st, m) && m.origin < |b.loc| && b.loc[m.origin] == AtReader(p)
  }

  ghost predicate CancelAt(st: State, b: Book, p: nat, m: Msg) {
    m.CancelRequest? && MsgOk(st, m) && m.origin < |b.cancel| && b.cancel[m.origin] == CancelAtReader(p)
  }

  predicate NoEntry(x: Proxy, c: nat) {
    forall id | id in x.relay.pendingRequests :: x.relay.pendingRequests[id].origin != c
  }

  ghost predicate ReaderOk(st: State, b: Book, p: nat, x: Proxy) {
    && (x.reader != Idle ==> x.link.Live?)
    && match x.reader
       case Idle => true
       case Storing(req, to) =>
         && RequestAt(st, b, p, req) && TargetOk(st, p, req.target, to)
         && x.session == Some(st.calls[req.origin].route)
         && NoEntry(x, req.origin)
       case Sending(req, to) =>
         && RequestAt(st, b, p, req) && TargetOk(st, p, req.target, to)
         && req.id in x.relay.pendingRequests
         && x.relay.pendingRequests[req.id] == Entry(req.target, req.origin)
       case Undoing(req) => RequestAt(st, b, p, req)
       case Refusing(req) => RequestAt(st, b, p, req) && NoEntry(x, req.origin)
       case CancelRouting(m, host) =>
         CancelAt(st, b, p, m) && host == st.calls[m.origin].host
       case CancelSending(m, to) =>
         CancelAt(st, b, p, m) && TargetOk(st, p, st.calls[m.origin].host, to)
  }

  /** The request has been handed on by proxy `p` and its reply has not come back to `p`. */
  predicate Beyond(st: State, b: Book, c: nat, p: nat) {
    && c < |st.calls| && c < |b.loc|
    && match b.loc[c]
       case OnDown(s) => s != st.calls[c].route
       case AtTask(_) => true
       case OnUp(s) => s < |st.streams| && st.streams[s].server == AtProxy(p)
       case _ => false
  }

  ghost predicate EntryOk(st: State, b: Book, p: nat, x: Proxy, id: Id, e: Entry) {
    var c := e.origin;
    && c < |st.calls| && c < |b.loc| && c < |b.cancel|
    && st.calls[c].id == id
    && Current(st, c)
    && st.calls[c].host == e.host
    && x.session == Some(st.calls[c].route)
    && Via(st, c, p)
    && (b.loc[c] == AtReader(p) || Beyond(st, b, c, p))
    && (b.cancel[c] == NotSent || b.cancel[c] == CancelOnDown(st.calls[c].route))
  }

  /** While a relayed request is out and its cancel has not been seen, the proxy knows it. */
  ghost predicate Remembered(st: State, b: Book, p: nat, x: Proxy, c: nat) {
    && c < |st.calls| && c < |b.cancel|
    && (&& Current(st, c)
        && x.session == Some(st.calls[c].route)
        && Via(st, c, p)
        && Beyond(st, b, c, p)
        && (b.cancel[c] == NotSent || b.cancel[c] == CancelOnDown(st.calls[c].route))
        ==> && st.calls[c].id in x.relay.pendingRequests
            && x.relay.pendingRequests[st.calls[c].id] == Entry(st.calls[c].host, c))
  }

  ghost predicate ProxyOk(st: State, b: Book, p: nat) {
    && p < |st.proxies|
    && var x := st.proxies[p];
    && LinkOk(st, ProxyNode(p), x.link)
    && TableOk(st, p, x.relay.table)
    && (x.session.Some? ==> x.session.value < |st.streams| && st.streams[x.session.value].accepted)
    && (x.link.Acked? || x.link.Live? ==> x.session == Some(x.link.stream))
    && (x.link.Dialing? ==> !st.streams[x.link.stream].accepted)
    && ReaderOk(st, b, p, x)
    && HeldAt(b, p, x)
    && (forall id | id in x.relay.pendingRequests ::
          EntryOk(st, b, p, x, id, x.relay.pendingRequests[id]))
    && (forall c | 0 <= c < |st.calls| :: Remembered(st, b, p, x, c))
  }

  // ----- the invariant -----

  ghost predicate Sizes(st: State, b: Book) {
    |st.router.slots| == |st.calls| && |b.loc| == |st.calls| && |b.cancel| == |st.calls|
  }

  ghost predicate Inv(st: State, b: Book) {
    && Sizes(st, b)
    && PendingOk(st)
    && (forall s | 0 <= s < |st.streams| :: StreamOk(st, b, s))
    && (forall c | 0 <= c < |st.calls| :: CallOk(st, b, c))
    && (forall p | 0 <= p < |st.proxies| :: ProxyOk(st, b, p))
    && (forall a | 0 <= a < |st.agents| :: AgentOk(st, a))
    && (forall t | 0 <= t < |st.tasks| :: TaskOk(st, b, t))
  }

  lemma InitialInv(st: State)
    requires Initial(st)
    ensures Inv(st, Book([], []))
  {
  }
}
