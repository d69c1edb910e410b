/** How each part of the invariant survives a step that does not touch it, or that only adds
    or removes one message.

    The invariant is a conjunction over streams, calls, proxies, agents and goroutines, and a step
    changes at most two streams and one of each of the others.  `Frame` says what no step ever
    changes: who is at the ends of a stream, who a goroutine belongs to, what it has replied.  From
    it follow the `...Kept` lemmas, one per conjunct.  `Step` names what one step touches, and
    `Assemble` puts the invariant together again from the parts that were not touched, which the
    `...Kept` lemmas give, and from `Rest`, which the lemma for the event has to show. */
module ProtocolFrames {
  import opened Tunnel
  import opened RouterTable
  import opened RelayTable
  import opened Protocol
  import opened ProtocolInvariant

  /** What no step changes: identities, routes and hosts stay, replies stay made, streams stay
      accepted and broken.  New calls have free IDs, and a new goroutine belongs to a call
      whose request was on its way down. */
  ghost predicate Frame(st: State, b: Book, st': State) {
    && |st.calls| <= |st'.calls|
    && (forall c | 0 <= c < |st.calls| ::
          && st'.calls[c].id == st.calls[c].id && st'.calls[c].host == st.calls[c].host
          && st'.calls[c].job == st.calls[c].job && st'.calls[c].route == st.calls[c].route)
    && (forall c | |st.calls| <= c < |st'.calls| :: IdFree(st, st'.calls[c].id))
    && |st.streams| <= |st'.streams|
    && (forall s | 0 <= s < |st.streams| ::
          && st'.streams[s].client == st.streams[s].client && st'.streams[s].server == st.streams[s].server
          && (st.streams[s].accepted ==> st'.streams[s].accepted)
          && (st.streams[s].broken ==> st'.streams[s].broken))
    && |st.proxies| == |st'.proxies|
    && |st.agents| == |st'.agents|
    && (forall a | 0 <= a < |st.agents| ::
          st'.agents[a].host == st.agents[a].host && st'.agents[a].parent == st.agents[a].parent)
    && |st.tasks| <= |st'.tasks|
    && (forall t | 0 <= t < |st.tasks| ::
          && st'.tasks[t].agent == st.tasks[t].agent && st'.tasks[t].id == st.tasks[t].id
          && st'.tasks[t].job == st.tasks[t].job && st'.tasks[t].origin == st.tasks[t].origin
          && (st.tasks[t].reply.Some? ==> st'.tasks[t].reply == st.tasks[t].reply))
    && (forall t | |st.tasks| <= t < |st'.tasks| ::
          && st'.tasks[t].origin < |b.loc|
          && b.loc[st'.tasks[t].origin].OnDown?)
  }

  lemma RoutesKept(st: State, b: Book, st': State)
    requires Frame(st, b, st')
    ensures forall host, s | RouteOk(st, host, s) :: RouteOk(st', host, s)
    ensures forall p, host, s | TargetOk(st, p, host, s) :: TargetOk(st', p, host, s)
    ensures forall c, p | Via(st, c, p) :: Via(st', c, p)
    ensures forall c, s | Hop(st, c, s) :: Hop(st', c, s)
  {
  }

  lemma CurrentKept(st: State, b: Book, st': State, c: nat)
    requires Frame(st, b, st') && Current(st, c)
    requires !IdFree(st, st.calls[c].id)
    ensures Current(st', c)
  {
    forall d | c < d < |st'.calls| ensures st'.calls[d].id != st'.calls[c].id {
      if d < |st.calls| {
        assert st.calls[d].id != st.calls[c].id;
      }
    }
  }

  lemma AuthenticKept(st: State, b: Book, st': State, m: Msg)
    requires Frame(st, b, st') && m.Reply? && Authentic(st, m)
    requires m.origin < |b.loc| && !b.loc[m.origin].OnDown?
    ensures Authentic(st', m)
  {
  }

  lemma MsgKept(st: State, b: Book, st': State, m: Msg)
    requires Frame(st, b, st') && MsgOk(st, m) && !IdFree(st, m.id)
    requires m.Reply? ==> m.origin < |b.loc| && !b.loc[m.origin].OnDown?
    ensures MsgOk(st', m)
  {
    CurrentKept(st, b, st', m.origin);
    if m.Reply? {
      AuthenticKept(st, b, st', m);
    }
  }

  // ----- the book -----

  predicate Touches(l: Loc, s: nat) {
    l == OnDown(s) || l == OnUp(s) || l == AtHandler(s)
  }

  /** `b'` says the same as `b` about everything that is on stream `s`, except possibly about
      the request or reply of call `x` and the cancel of call `y`. */
  predicate Agree(b: Book, b': Book, s: nat, x: int, y: int) {
    && |b.loc| <= |b'.loc| && |b.cancel| <= |b'.cancel|
    && (forall c | 0 <= c < |b.loc| && c != x && Touches(b.loc[c], s) :: b'.loc[c] == b.loc[c])
    && (forall c | 0 <= c < |b.cancel| && c != y && b.cancel[c] == CancelOnDown(s) :: b'.cancel[c] == b.cancel[c])
  }

  /** The book after the request or reply of `c` has moved. */
  function Move(b: Book, c: nat, l: Loc): Book
    requires c < |b.loc|
  {
    b.(loc := b.loc[c := l])
  }

  /** The book after the cancel of `c` has moved. */
  function MoveCancel(b: Book, c: nat, k: CancelLoc): Book
    requires c < |b.cancel|
  {
    b.(cancel := b.cancel[c := k])
  }

  // ----- streams -----

  lemma DownKept(st: State, b: Book, st': State, b': Book, s: nat, m: Msg, x: int, y: int)
    requires Frame(st, b, st') && s < |st.streams| && m in st.streams[s].down
    requires DownMsgOk(st, b, s, m)
    requires Agree(b, b', s, x, y) && m.origin != (if m.ToolRequest? then x else y)
    ensures DownMsgOk(st', b', s, m)
  {
    MsgKept(st, b, st', m);
  }

  lemma UpKept(st: State, b: Book, st': State, b': Book, s: nat, m: Msg, x: int, y: int)
    requires Frame(st, b, st') && s < |st.streams| && m in st.streams[s].up
    requires ReplyAt(st, b, m, OnUp(s))
    requires Agree(b, b', s, x, y) && m.origin != x
    ensures ReplyAt(st', b', m, OnUp(s))
  {
    MsgKept(st, b, st', m);
  }

  lemma HandKept(st: State, b: Book, st': State, b': Book, s: nat, x: int, y: int)
    requires Frame(st, b, st') && s < |st.streams|
    requires HandOk(st, b, s, st.streams[s].server, st.streams[s].hand)
    requires Agree(b, b', s, x, y) && (st.streams[s].hand == Free || st.streams[s].hand.reply.origin != x)
    ensures HandOk(st', b', s, st.streams[s].server, st.streams[s].hand)
  {
    match st.streams[s].hand
    case Free =>
    case Putting(m, d) => MsgKept(st, b, st', m);
    case Forwarding(m) => MsgKept(st, b, st', m);
  }

  /** The messages that stay in the queues of `s`. */
  lemma QueuesKept(st: State, b: Book, st': State, b': Book, s: nat, x: int, y: int)
    requires Frame(st, b, st') && s < |st.streams| && StreamOk(st, b, s)
    requires Agree(b, b', s, x, y)
    ensures EndsOk(st', s)
    ensures forall m | m in st.streams[s].down && m.origin != (if m.ToolRequest? then x else y) ::
              DownMsgOk(st', b', s, m)
    ensures forall m | m in st.streams[s].up && m.origin != x :: ReplyAt(st', b', m, OnUp(s))
  {
    var q := st.streams[s];
    forall m | m in q.down && m.origin != (if m.ToolRequest? then x else y) ensures DownMsgOk(st', b', s, m) {
      DownKept(st, b, st', b', s, m, x, y);
    }
    forall m | m in q.up && m.origin != x ensures ReplyAt(st', b', m, OnUp(s)) {
      UpKept(st, b, st', b', s, m, x, y);
    }
  }

  /** A stream whose queues and hand are unchanged. */
  lemma StreamKept(st: State, b: Book, st': State, b': Book, s: nat)
    requires Frame(st, b, st') && s < |st.streams| && StreamOk(st, b, s)
    requires st'.streams[s].down == st.streams[s].down
    requires st'.streams[s].up == st.streams[s].up
    requires st'.streams[s].hand == st.streams[s].hand
    requires Agree(b, b', s, -1, -1)
    ensures StreamOk(st', b', s)
  {
    QueuesKept(st, b, st', b', s, -1, -1);
    HandKept(st, b, st', b', s, -1, -1);
  }

  /** A message goes down. */
  lemma PushDownKept(st: State, b: Book, st': State, b': Book, s: nat, m: Msg)
    requires Frame(st, b, st') && s < |st.streams| && StreamOk(st, b, s)
    requires st'.streams[s].down == st.streams[s].down + if st.streams[s].broken then [] else [m]
    requires st'.streams[s].up == st.streams[s].up
    requires st'.streams[s].hand == st.streams[s].hand
    requires Agree(b, b', s, -1, -1)
    requires DownMsgOk(st', b', s, m)
    requires m.origin < |b.loc| && m.origin < |b.cancel|
    requires m.ToolRequest? ==> b.loc[m.origin] != OnDown(s)
    requires b.cancel[m.origin] != CancelOnDown(s)
    ensures StreamOk(st', b', s)
  {
    QueuesKept(st, b, st', b', s, -1, -1);
    HandKept(st, b, st', b', s, -1, -1);
  }

  /** The client takes the first message from above. */
  lemma PopDownKept(st: State, b: Book, st': State, b': Book, s: nat)
    requires Frame(st, b, st') && s < |st.streams| && StreamOk(st, b, s) && |st.streams[s].down| > 0
    requires st'.streams[s].down == st.streams[s].down[1..]
    requires st'.streams[s].up == st.streams[s].up
    requires st'.streams[s].hand == st.streams[s].hand
    requires var m := st.streams[s].down[0];
             if m.ToolRequest? then Agree(b, b', s, m.origin, -1) else Agree(b, b', s, -1, m.origin)
    ensures StreamOk(st', b', s)
  {
    var q := st.streams[s];
    var m := q.down[0];
    assert DownMsgOk(st, b, s, m);
    var x, y := if m.ToolRequest? then m.origin else -1, if m.ToolRequest? then -1 else m.origin;
    QueuesKept(st, b, st', b', s, x, y);
    forall i | 0 <= i < |q.down| - 1 ensures DownMsgOk(st', b', s, q.down[1..][i]) {
      assert q.down[1..][i] == q.down[i + 1];
    }
    HandKept(st, b, st', b', s, x, y);
  }

  /** A reply goes up. */
  lemma PushUpKept(st: State, b: Book, st': State, b': Book, s: nat, m: Msg)
    requires Frame(st, b, st') && s < |st.streams| && StreamOk(st, b, s)
    requires st'.streams[s].down == st.streams[s].down
    requires st'.streams[s].up == st.streams[s].up + if st.streams[s].broken then [] else [m]
    requires st'.streams[s].hand == st.streams[s].hand
    requires Agree(b, b', s, -1, -1)
    requires ReplyAt(st', b', m, OnUp(s))
    requires m.origin < |b.loc| && b.loc[m.origin] != OnUp(s)
    ensures StreamOk(st', b', s)
  {
    QueuesKept(st, b, st', b', s, -1, -1);
    HandKept(st, b, st', b', s, -1, -1);
  }

  /** The server takes the first reply into its free hand. */
  lemma PopUpKept(st: State, b: Book, st': State, b': Book, s: nat)
    requires Frame(st, b, st') && s < |st.streams| && StreamOk(st, b, s) && |st.streams[s].up| > 0
    requires st'.streams[s].down == st.streams[s].down
    requires st'.streams[s].up == st.streams[s].up[1..]
    requires HandOk(st', b', s, st.streams[s].server, st'.streams[s].hand)
    requires Agree(b, b', s, st.streams[s].up[0].origin, -1)
    ensures StreamOk(st', b', s)
  {
    var q := st.streams[s];
    assert ReplyAt(st, b, q.up[0], OnUp(s));
    QueuesKept(st, b, st', b', s, q.up[0].origin, -1);
    forall i | 0 <= i < |q.up| - 1 ensures ReplyAt(st', b', q.up[1..][i], OnUp(s)) {
      assert q.up[1..][i] == q.up[i + 1];
    }
  }

  /** The server lets go of the reply it holds. */
  lemma FreeKept(st: State, b: Book, st': State, b': Book, s: nat)
    requires Frame(st, b, st') && s < |st.streams| && StreamOk(st, b, s) && st.streams[s].hand != Free
    requires st'.streams[s].down == st.streams[s].down
    requires st'.streams[s].up == st.streams[s].up
    requires st'.streams[s].hand == Free
    requires Agree(b, b', s, st.streams[s].hand.reply.origin, -1)
    ensures StreamOk(st', b', s)
  {
    QueuesKept(st, b, st', b', s, st.streams[s].hand.reply.origin, -1);
  }

  /** The tails of both queues are lost. */
  lemma TruncateKept(st: State, b: Book, st': State, b': Book, s: nat, i: nat, j: nat)
    requires Frame(st, b, st') && s < |st.streams| && StreamOk(st, b, s)
    requires i <= |st.streams[s].down| && j <= |st.streams[s].up|
    requires st'.streams[s].down == st.streams[s].down[..i]
    requires st'.streams[s].up == st.streams[s].up[..j]
    requires st'.streams[s].hand == st.streams[s].hand
    requires Agree(b, b', s, -1, -1)
    ensures StreamOk(st', b', s)
  {
    QueuesKept(st, b, st', b', s, -1, -1);
    HandKept(st, b, st', b', s, -1, -1);
  }

  // ----- calls -----

  lemma LocKept(st: State, b: Book, st': State, c: nat, l: Loc)
    requires Frame(st, b, st') && c < |st.calls| && c < |b.loc| && LocOk(st, c, l)
    requires StaysOf(st, st', c)
    requires |st.tasks| == |st'.tasks| || b.loc[c] == l
    requires |st.tasks| == |st'.tasks| || !l.OnDown?
             || (forall t | |st.tasks| <= t < |st'.tasks| :: st'.tasks[t].origin != c)
    ensures LocOk(st', c, l)
  {
    RoutesKept(st, b, st');
  }

  /** A call whose phase, outcome, slot and messages stay where they are. */
  lemma CallKept(st: State, b: Book, st': State, b': Book, c: nat)
    requires Frame(st, b, st') && c < |st.calls| && CallOk(st, b, c)
    requires st'.calls[c] == st.calls[c]
    requires c < |st'.router.slots| && st'.router.slots[c] == st.router.slots[c]
    requires c < |b'.loc| && c < |b'.cancel|
    requires b'.loc[c] == b.loc[c] && b'.cancel[c] == b.cancel[c]
    requires forall t | |st.tasks| <= t < |st'.tasks| :: st'.tasks[t].origin != c
    requires st.calls[c].phase != Returned ==>
               st.calls[c].id in st'.router.pending && st'.router.pending[st.calls[c].id] == c
    requires StaysOf(st, st', c)
    ensures CallOk(st', b', c)
  {
    RoutesKept(st, b, st');
    LocKept(st, b, st', c, b.loc[c]);
    if st.calls[c].phase != Returned {
      CurrentKept(st, b, st', c);
    }
  }

  // ----- agents and tasks -----

  lemma AgentKept(st: State, b: Book, st': State, a: nat)
    requires Frame(st, b, st') && a < |st.agents| && AgentOk(st, a)
    requires st'.agents[a] == st.agents[a]
    requires forall t | 0 <= t < |st.tasks| && st.tasks[t].agent == a && st.tasks[t].phase != Done ::
               st'.tasks[t].phase != Done
    ensures AgentOk(st', a)
  {
  }

  lemma TaskKept(st: State, b: Book, st': State, b': Book, t: nat)
    requires Frame(st, b, st') && t < |st.tasks| && TaskOk(st, b, t)
    requires st'.tasks[t] == st.tasks[t]
    requires |b.loc| <= |b'.loc|
    requires b.loc[st.tasks[t].origin] == AtTask(t) ==> b'.loc[st.tasks[t].origin] == AtTask(t)
    requires forall u | |st.tasks| <= u < |st'.tasks| :: st'.tasks[u].origin != st.tasks[t].origin
    requires var x := st.tasks[t];
             x.phase != Done && !x.canceled && x.id in st.agents[x.agent].cancelFns
               && st.agents[x.agent].cancelFns[x.id] == t ==>
             x.id in st'.agents[x.agent].cancelFns && st'.agents[x.agent].cancelFns[x.id] == t
    ensures TaskOk(st', b', t)
  {
    RoutesKept(st, b, st');
    if st.tasks[t].phase != Done {
      CurrentKept(st, b, st', st.tasks[t].origin);
    }
  }

  // ----- proxies -----

  /** `b'` says the same as `b` about call `c`, as far as proxy `p` is concerned. */
  predicate SameFor(st: State, b: Book, st': State, b': Book, p: nat, c: nat) {
    && c < |b.loc| && c < |b.cancel| && c < |b'.loc| && c < |b'.cancel|
    && (Beyond(st, b, c, p) <==> Beyond(st', b', c, p))
    && (b.loc[c] == AtReader(p) <==> b'.loc[c] == AtReader(p))
    && (b.cancel[c] == CancelAtReader(p) <==> b'.cancel[c] == CancelAtReader(p))
    && c < |st.calls|
    && var out := CancelOnDown(st.calls[c].route);
       (b.cancel[c] == NotSent || b.cancel[c] == out <==> b'.cancel[c] == NotSent || b'.cancel[c] == out)
  }

  /** `SameFor` holds for every call that reaches `p`, except possibly call `o`. */
  ghost predicate SameForAll(st: State, b: Book, st': State, b': Book, p: nat, o: int) {
    forall c | 0 <= c < |st.calls| && c != o && Via(st, c, p) :: SameFor(st, b, st', b', p, c)
  }

  function Origin(r: Reader): int {
    if Held(r).Some? then Held(r).value.origin else -1
  }

  /** The messages in the hands of the upstream reader came over streams it was accepted on. */
  ghost predicate ReadersVia(st: State, b: Book) {
    && (forall c, p | 0 <= c < |st.calls| && c < |b.loc| && b.loc[c] == AtReader(p) :: Via(st, c, p))
    && (forall c, p | 0 <= c < |st.calls| && c < |b.cancel| && b.cancel[c] == CancelAtReader(p) :: Via(st, c, p))
  }

  /** A proxy whose reader holds what it held, while its relay table may have shrunk. */
  lemma ReaderKept(st: State, b: Book, st': State, b': Book, p: nat, x': Proxy, o: int)
    requires Frame(st, b, st') && p < |st.proxies| && ReaderOk(st, b, p, st.proxies[p])
    requires x'.reader == st.proxies[p].reader && x'.session == st.proxies[p].session
    requires x'.reader != Idle ==> x'.link.Live?
    requires SameForAll(st, b, st', b', p, o)
    requires Origin(x'.reader) == o ==>
               && Held(x'.reader).Some? && Held(x'.reader).value.CancelRequest?
               && o < |b.cancel| && o < |b'.cancel| && b'.cancel[o] == b.cancel[o]
    requires ReadersVia(st, b)
    requires forall id | id in x'.relay.pendingRequests ::
               && id in st.proxies[p].relay.pendingRequests
               && x'.relay.pendingRequests[id] == st.proxies[p].relay.pendingRequests[id]
    requires x'.reader.Sending? ==>
               var id := x'.reader.req.id;
               id in st.proxies[p].relay.pendingRequests ==>
                 id in x'.relay.pendingRequests
                 && x'.relay.pendingRequests[id] == st.proxies[p].relay.pendingRequests[id]
    ensures ReaderOk(st', b', p, x')
  {
    RoutesKept(st, b, st');
    match x'.reader
    case Idle =>
    case Storing(req, _) => MsgKept(st, b, st', req);
    case Sending(req, _) => MsgKept(st, b, st', req);
    case Undoing(req) => MsgKept(st, b, st', req);
    case Refusing(req) => MsgKept(st, b, st', req);
    case CancelRouting(m, _) => MsgKept(st, b, st', m);
    case CancelSending(m, _) => MsgKept(st, b, st', m);
  }

  /** No request arrives at the read loop of `p`. */
  predicate NoArrival(b: Book, b': Book, p: nat) {
    forall c | 0 <= c < |b'.loc| && b'.loc[c] == AtReader(p) :: c < |b.loc| && b.loc[c] == AtReader(p)
  }

  ghost predicate EntriesOk(st: State, b: Book, p: nat, x: Proxy) {
    forall id | id in x.relay.pendingRequests :: EntryOk(st, b, p, x, id, x.relay.pendingRequests[id])
  }

  ghost predicate AllRemembered(st: State, b: Book, p: nat, x: Proxy, o: int) {
    forall c | 0 <= c < |st.calls| && c != o :: Remembered(st, b, p, x, c)
  }

  /** The entry for `id` was there before and does not belong to call `o`. */
  predicate Kept(x: Proxy, x': Proxy, id: Id, o: int) {
    && id in x'.relay.pendingRequests
    && id in x.relay.pendingRequests
    && x'.relay.pendingRequests[id] == x.relay.pendingRequests[id]
    && x'.relay.pendingRequests[id].origin != o
  }

  ghost predicate EntriesFrom(st: State, b: Book, st': State, b': Book, p: nat, x': Proxy, o: int) {
    && p < |st.proxies|
    && forall id | id in x'.relay.pendingRequests ::
         Kept(st.proxies[p], x', id, o) || EntryOk(st', b', p, x', id, x'.relay.pendingRequests[id])
  }

  /** The entries of the calls other than `o` are still there. */
  ghost predicate NoneDropped(st: State, p: nat, x': Proxy, o: int) {
    && p < |st.proxies|
    && forall c | 0 <= c < |st.calls| && c != o && Current(st, c)
                  && st.calls[c].id in st.proxies[p].relay.pendingRequests ::
         && st.calls[c].id in x'.relay.pendingRequests
         && x'.relay.pendingRequests[st.calls[c].id] == st.proxies[p].relay.pendingRequests[st.calls[c].id]
  }

  lemma EntriesKept(st: State, b: Book, st': State, b': Book, p: nat, x': Proxy, o: int)
    requires Frame(st, b, st') && p < |st.proxies| && EntriesOk(st, b, p, st.proxies[p])
    requires x'.session == st.proxies[p].session
    requires EntriesFrom(st, b, st', b', p, x', o)
    requires SameForAll(st, b, st', b', p, o)
    ensures EntriesOk(st', b', p, x')
  {
    RoutesKept(st, b, st');
    forall id | id in x'.relay.pendingRequests
      ensures EntryOk(st', b', p, x', id, x'.relay.pendingRequests[id])
    {
      if Kept(st.proxies[p], x', id, o) {
        var c := x'.relay.pendingRequests[id].origin;
        assert EntryOk(st, b, p, st.proxies[p], id, x'.relay.pendingRequests[id]);
        CurrentKept(st, b, st', c);
        assert SameFor(st, b, st', b', p, c);
      }
    }
  }

  lemma RememberedKept(st: State, b: Book, st': State, b': Book, p: nat, x': Proxy, o: int)
    requires Frame(st, b, st') && p < |st.proxies| && AllRemembered(st, b, p, st.proxies[p], o)
    requires x'.session == st.proxies[p].session
    requires x'.session.Some? ==> x'.session.value < |st.streams| && st.streams[x'.session.value].accepted
    requires NoneDropped(st, p, x', o)
    requires SameForAll(st, b, st', b', p, o) && Sizes(st', b')
    requires forall c | |st.calls| <= c < |st'.calls| :: b'.loc[c] == Unsent
    ensures AllRemembered(st', b', p, x', o)
  {
    forall c | 0 <= c < |st'.calls| && c != o ensures Remembered(st', b', p, x', c) {
      if c < |st.calls| {
        assert Remembered(st, b, p, st.proxies[p], c);
        if Current(st', c) && x'.session == Some(st.calls[c].route) && Via(st', c, p) {
          assert Current(st, c);
          assert Via(st, c, p);
          assert SameFor(st, b, st', b', p, c);
        }
      }
    }
  }

  ghost predicate ProxyBase(st: State, p: nat, x: Proxy) {
    && LinkOk(st, ProxyNode(p), x.link)
    && TableOk(st, p, x.relay.table)
    && (x.session.Some? ==> x.session.value < |st.streams| && st.streams[x.session.value].accepted)
    && (x.link.Acked? || x.link.Live? ==> x.session == Some(x.link.stream))
    && (x.link.Dialing? ==> x.link.stream < |st.streams| && !st.streams[x.link.stream].accepted)
  }

  lemma BaseKept(st: State, b: Book, st': State, p: nat, x: Proxy)
    requires Frame(st, b, st') && ProxyBase(st, p, x)
    requires x.link.Dialing? ==>
               st'.streams[x.link.stream].accepted == st.streams[x.link.stream].accepted
    ensures ProxyBase(st', p, x)
  {
    RoutesKept(st, b, st');
  }

  /** The parts of `ProxyOk`. */
  lemma ProxyParts(st: State, b: Book, p: nat)
    requires p < |st.proxies|
    ensures ProxyOk(st, b, p) <==>
              && ProxyBase(st, p, st.proxies[p])
              && ReaderOk(st, b, p, st.proxies[p])
              && HeldAt(b, p, st.proxies[p])
              && EntriesOk(st, b, p, st.proxies[p])
              && AllRemembered(st, b, p, st.proxies[p], -1)
  {
  }

  /** A proxy that is not touched. */
  lemma ProxyKept(st: State, b: Book, st': State, b': Book, p: nat)
    requires Frame(st, b, st') && p < |st.proxies| && ProxyOk(st, b, p) && ReadersVia(st, b)
    requires st'.proxies[p] == st.proxies[p]
    requires SameForAll(st, b, st', b', p, -1) && NoArrival(b, b', p) && Sizes(st', b')
    requires forall c | |st.calls| <= c < |st'.calls| :: b'.loc[c] == Unsent
    requires st.proxies[p].link.Dialing? ==>
               var s := st.proxies[p].link.stream;
               s < |st.streams| && st'.streams[s].accepted == st.streams[s].accepted
    ensures ProxyOk(st', b', p)
  {
    var x := st.proxies[p];
    ProxyParts(st, b, p);
    BaseKept(st, b, st', p, x);
    ReaderKept(st, b, st', b', p, x, -2);
    EntriesKept(st, b, st', b', p, x, -1);
    RememberedKept(st, b, st', b', p, x, -1);
    ProxyParts(st', b', p);
  }

  /** A proxy whose reader or relay table changes on behalf of call `o`. */
  lemma ProxyTouched(st: State, b: Book, st': State, b': Book, p: nat, o: nat)
    requires Frame(st, b, st') && Sizes(st', b') && |st'.calls| == |st.calls|
    requires p < |st.proxies| && ProxyOk(st, b, p) && o < |st.calls|
    requires var x := st.proxies[p]; var x' := st'.proxies[p];
             && x'.link == x.link && x'.session == x.session && x'.relay.table == x.relay.table
             && (x.link.Dialing? && x.link.stream < |st.streams| ==>
                   st'.streams[x.link.stream].accepted == st.streams[x.link.stream].accepted)
             && ReaderOk(st', b', p, x') && HeldAt(b', p, x')
             && EntriesFrom(st, b, st', b', p, x', o) && NoneDropped(st, p, x', o)
             && Remembered(st', b', p, x', o)
    requires SameForAll(st, b, st', b', p, o)
    ensures ProxyOk(st', b', p)
  {
    ProxyParts(st, b, p);
    BaseKept(st, b, st', p, st'.proxies[p]);
    EntriesKept(st, b, st', b', p, st'.proxies[p], o);
    RememberedKept(st, b, st', b', p, st'.proxies[p], o);
    ProxyParts(st', b', p);
  }

  // ----- everything a step does not touch -----

  lemma ReadersFromCalls(st: State, b: Book)
    requires Inv(st, b)
    ensures ReadersVia(st, b)
  {
    forall c, p | 0 <= c < |st.calls| && c < |b.loc| && b.loc[c] == AtReader(p) ensures Via(st, c, p) {
      assert CallOk(st, b, c);
    }
    forall c, p | 0 <= c < |st.calls| && c < |b.cancel| && b.cancel[c] == CancelAtReader(p)
      ensures Via(st, c, p)
    {
      assert CallOk(st, b, c);
    }
  }

  /** A cancel is on a stream only if the book says so. */
  lemma NoCancelThere(st: State, b: Book, c: nat, s: nat)
    requires Inv(st, b) && c < |st.calls| && s < |st.streams| && b.cancel[c] != CancelOnDown(s)
    ensures CancelRequest(st.calls[c].id, c) !in st.streams[s].down
  {
    hide CallOk, ProxyOk, AgentOk, TaskOk;
    assert StreamOk(st, b, s);
  }

  /** When a cancel is first in its queue, its request is no longer in that queue. */
  lemma CancelFirst(st: State, b: Book, s: nat)
    requires Inv(st, b) && s < |st.streams| && |st.streams[s].down| > 0 && st.streams[s].down[0].CancelRequest?
    ensures var c := st.streams[s].down[0].origin;
            c < |st.calls| && CallOk(st, b, c) && b.cancel[c] == CancelOnDown(s)
            && b.loc[c] != OnDown(s) && b.loc[c] != Unsent
  {
    hide ProxyOk, AgentOk, TaskOk;
    assert StreamOk(st, b, s);
    var m := st.streams[s].down[0];
    assert DownMsgOk(st, b, s, m);
    assert CallOk(st, b, m.origin);
    assert m == CancelRequest(st.calls[m.origin].id, m.origin);
    assert m in st.streams[s].down;
  }

  /** The streams other than `x` and `y` keep their messages. */
  ghost predicate StreamsSame(st: State, b: Book, st': State, b': Book, x: int, y: int) {
    && |st'.streams| >= |st.streams|
    && forall s | 0 <= s < |st.streams| && s != x && s != y ::
         && st'.streams[s].down == st.streams[s].down
         && st'.streams[s].up == st.streams[s].up
         && st'.streams[s].hand == st.streams[s].hand
         && Agree(b, b', s, -1, -1)
  }

  lemma StreamsKept(st: State, b: Book, st': State, b': Book, x: int, y: int)
    requires Inv(st, b) && Frame(st, b, st')
    requires StreamsSame(st, b, st', b', x, y)
    ensures forall s | 0 <= s < |st.streams| && s != x && s != y :: StreamOk(st', b', s)
  {
    forall s | 0 <= s < |st.streams| && s != x && s != y ensures StreamOk(st', b', s) {
      assert StreamOk(st, b, s);
      StreamKept(st, b, st', b', s);
    }
  }

  /** The calls other than `x` keep their slots and their place in the pending table. */
  ghost predicate CallsSame(st: State, b: Book, st': State, b': Book, x: int) {
    && |st'.calls| >= |st.calls| && |st'.router.slots| >= |st.router.slots|
    && |b'.loc| >= |b.loc| && |b'.cancel| >= |b.cancel|
    && |b.loc| >= |st.calls| && |b.cancel| >= |st.calls| && |st.router.slots| >= |st.calls|
    && (forall c | 0 <= c < |st.calls| && c != x ::
          && st'.calls[c] == st.calls[c]
          && st'.router.slots[c] == st.router.slots[c]
          && b'.loc[c] == b.loc[c] && b'.cancel[c] == b.cancel[c])
    && (forall t | |st.tasks| <= t < |st'.tasks| :: st'.tasks[t].origin == x)
    && (forall c | 0 <= c < |st.calls| && c != x && st.calls[c].phase != Returned
                   && st.calls[c].id in st.router.pending && st.router.pending[st.calls[c].id] == c ::
          st.calls[c].id in st'.router.pending && st'.router.pending[st.calls[c].id] == c)
  }

  /** No message of call `c` appears, and none leaves a stream that is not broken; where the
      cancel stays, the request stays. */
  ghost predicate StaysOf(st: State, st': State, c: nat) {
    && c < |st.calls| && |st'.streams| >= |st.streams|
    && forall s | 0 <= s < |st.streams| ::
         var req := Request(st, c); var cancel := CancelRequest(st.calls[c].id, c);
         && (!st'.streams[s].broken && req in st.streams[s].down ==> req in st'.streams[s].down)
         && (!st'.streams[s].broken && cancel in st.streams[s].down ==> cancel in st'.streams[s].down)
         && (cancel in st'.streams[s].down ==> cancel in st.streams[s].down)
         && (cancel in st'.streams[s].down && req in st.streams[s].down ==> req in st'.streams[s].down)
  }

  ghost predicate MessagesStay(st: State, st': State, x: int) {
    forall c | 0 <= c < |st.calls| && c != x :: StaysOf(st, st', c)
  }

  lemma CallsKept(st: State, b: Book, st': State, b': Book, x: int)
    requires Inv(st, b) && Frame(st, b, st')
    requires CallsSame(st, b, st', b', x) && MessagesStay(st, st', x)
    ensures forall c | 0 <= c < |st.calls| && c != x :: CallOk(st', b', c)
  {
    forall c | 0 <= c < |st.calls| && c != x ensures CallOk(st', b', c) {
      assert CallOk(st, b, c);
      CallKept(st, b, st', b', c);
    }
  }

  /** The proxies other than `x` are unchanged, and so is what the book says to them. */
  ghost predicate ProxiesSame(st: State, b: Book, st': State, b': Book, x: int) {
    && |st'.proxies| == |st.proxies| && |st'.streams| >= |st.streams|
    && (forall p | 0 <= p < |st.proxies| && p != x ::
          && st'.proxies[p] == st.proxies[p]
          && SameForAll(st, b, st', b', p, -1) && NoArrival(b, b', p)
          && (st.proxies[p].link.Dialing? && st.proxies[p].link.stream < |st.streams| ==>
                var s := st.proxies[p].link.stream;
                st'.streams[s].accepted == st.streams[s].accepted))
    && (forall c | |st.calls| <= c < |st'.calls| :: c < |b'.loc| && b'.loc[c] == Unsent)
  }

  lemma ProxiesKept(st: State, b: Book, st': State, b': Book, x: int)
    requires Inv(st, b) && Frame(st, b, st') && Sizes(st', b')
    requires ProxiesSame(st, b, st', b', x)
    ensures forall p | 0 <= p < |st.proxies| && p != x :: ProxyOk(st', b', p)
  {
    ReadersFromCalls(st, b);
    forall p | 0 <= p < |st.proxies| && p != x ensures ProxyOk(st', b', p) {
      assert ProxyOk(st, b, p);
      ProxyKept(st, b, st', b', p);
    }
  }

  lemma AgentsKept(st: State, b: Book, st': State, x: int)
    requires Inv(st, b) && Frame(st, b, st')
    requires forall a | 0 <= a < |st.agents| && a != x :: st'.agents[a] == st.agents[a]
    requires forall t | 0 <= t < |st.tasks| && st.tasks[t].agent != x && st.tasks[t].phase != Done ::
               st'.tasks[t].phase != Done
    ensures forall a | 0 <= a < |st.agents| && a != x :: AgentOk(st', a)
  {
    forall a | 0 <= a < |st.agents| && a != x ensures AgentOk(st', a) {
      assert AgentOk(st, a);
      AgentKept(st, b, st', a);
    }
  }

  /** The goroutines other than `x` are unchanged, and so are their cancel functions. */
  ghost predicate TasksSame(st: State, b: Book, st': State, b': Book, x: int) {
    && |st'.tasks| >= |st.tasks| && |b.loc| <= |b'.loc| && |st'.agents| == |st.agents|
    && (forall t | 0 <= t < |st.tasks| && t != x ::
          && st'.tasks[t] == st.tasks[t]
          && (st.tasks[t].origin < |b.loc| && b.loc[st.tasks[t].origin] == AtTask(t) ==>
                b'.loc[st.tasks[t].origin] == AtTask(t))
          && (st.tasks[t].agent < |st.agents| && st.tasks[t].phase != Done && !st.tasks[t].canceled ==>
                var g := st.agents[st.tasks[t].agent].cancelFns;
                var g' := st'.agents[st.tasks[t].agent].cancelFns;
                st.tasks[t].id in g && g[st.tasks[t].id] == t ==>
                  st.tasks[t].id in g' && g'[st.tasks[t].id] == t))
    && (forall t, u | 0 <= t < |st.tasks| <= u < |st'.tasks| :: st'.tasks[u].origin != st.tasks[t].origin)
  }

  lemma TasksKept(st: State, b: Book, st': State, b': Book, x: int)
    requires Inv(st, b) && Frame(st, b, st')
    requires TasksSame(st, b, st', b', x)
    ensures forall t | 0 <= t < |st.tasks| && t != x :: TaskOk(st', b', t)
  {
    forall t | 0 <= t < |st.tasks| && t != x ensures TaskOk(st', b', t) {
      assert TaskOk(st, b, t);
      TaskKept(st, b, st', b', t);
    }
  }

  /** A step that touches at most the streams `s1` and `s2`, call `x`, proxy `p`, agent `a` and
      goroutine `t`; -1 stands for none. */
  datatype Touched = Touched(s1: int, s2: int, x: int, p: int, a: int, t: int)

  ghost predicate Step(st: State, b: Book, st': State, b': Book, o: Touched) {
    && Frame(st, b, st') && Sizes(st', b') && PendingOk(st')
    && StreamsSame(st, b, st', b', o.s1, o.s2)
    && CallsSame(st, b, st', b', o.x) && MessagesStay(st, st', o.x)
    && ProxiesSame(st, b, st', b', o.p)
    && (forall a | 0 <= a < |st.agents| && a != o.a :: st'.agents[a] == st.agents[a])
    && (forall t | 0 <= t < |st.tasks| && st.tasks[t].agent != o.a && st.tasks[t].phase != Done ::
          st'.tasks[t].phase != Done)
    && TasksSame(st, b, st', b', o.t)
  }

  /** What is left to show after such a step. */
  ghost predicate Rest(st: State, b: Book, st': State, b': Book, o: Touched) {
    && (forall s | 0 <= s < |st'.streams| && (s == o.s1 || s == o.s2 || |st.streams| <= s) :: StreamOk(st', b', s))
    && (forall c | 0 <= c < |st'.calls| && (c == o.x || |st.calls| <= c) :: CallOk(st', b', c))
    && (0 <= o.p < |st'.proxies| ==> ProxyOk(st', b', o.p))
    && (0 <= o.a < |st'.agents| ==> AgentOk(st', o.a))
    && (forall t | 0 <= t < |st'.tasks| && (t == o.t || |st.tasks| <= t) :: TaskOk(st', b', t))
  }

  lemma Assemble(st: State, b: Book, st': State, b': Book, o: Touched)
    requires Inv(st, b) && Step(st, b, st', b', o) && Rest(st, b, st', b', o)
    ensures Inv(st', b')
  {
    hide StreamOk, CallOk, ProxyOk, AgentOk, TaskOk;
    hide Frame, StreamsSame, CallsSame, MessagesStay, ProxiesSame, TasksSame;
    StreamsKept(st, b, st', b', o.s1, o.s2);
    CallsKept(st, b, st', b', o.x);
    ProxiesKept(st, b, st', b', o.p);
    AgentsKept(st, b, st', o.a);
    TasksKept(st, b, st', b', o.t);
    assert |st.proxies| == |st'.proxies| && |st.agents| == |st'.agents| by {
      FrameSizes(st, b, st');
    }
  }

  lemma FrameSizes(st: State, b: Book, st': State)
    requires Frame(st, b, st')
    ensures |st.proxies| == |st'.proxies| && |st.agents| == |st'.agents|
  {
  }
}
