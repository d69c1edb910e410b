/** Where a call's request or reply can be, and what is left of a call when it is over. */
module ProtocolConservation {
  import opened Tunnel
  import opened RouterTable
  import opened RelayTable
  import opened Protocol
  import opened ProtocolInvariant
  import opened ProtocolTheorems

  // ----- conservation -----

  /** A place where the request or the reply of a call can be. */
  datatype Place =
    | ToSend(c: nat)
    | InDown(s: nat, i: nat)
    | InReader(p: nat)
    | InTask(t: nat)
    | InUp(s: nat, i: nat)
    | InHandler(s: nat)
    | Delivered(slot: nat)
    | Returning(d: nat)

  predicate IsAt(st: State, c: nat, x: Place) {
    match x
    case ToSend(d) => d == c && c < |st.calls| && st.calls[c].phase == Stored
    case InDown(s, i) =>
      && s < |st.streams| && i < |st.streams[s].down|
      && st.streams[s].down[i].ToolRequest? && st.streams[s].down[i].origin == c
    case InReader(p) =>
      p < |st.proxies| && !st.proxies[p].reader.Undoing? && Holds(st.proxies[p].reader, c)
    case InTask(t) =>
      t < |st.tasks| && st.tasks[t].phase == Running && st.tasks[t].origin == c
    case InUp(s, i) =>
      s < |st.streams| && i < |st.streams[s].up| && st.streams[s].up[i].origin == c
    case InHandler(s) =>
      s < |st.streams| && st.streams[s].hand != Free && st.streams[s].hand.reply.origin == c
    case Delivered(d) =>
      d < |st.router.slots| && st.router.slots[d].Some? && st.router.slots[d].value.origin == c
    case Returning(d) =>
      d < |st.calls| && st.calls[d].outcome.Got? && st.calls[d].outcome.reply.origin == c
  }

  function LocOf(x: Place): Loc {
    match x
    case ToSend(_) => Unsent
    case InDown(s, _) => OnDown(s)
    case InReader(p) => AtReader(p)
    case InTask(t) => AtTask(t)
    case InUp(s, _) => OnUp(s)
    case InHandler(s) => AtHandler(s)
    case Delivered(_) => InSlot
    case Returning(_) => Consumed
  }

  lemma PlaceIsBooked(st: State, b: Book, c: nat, x: Place)
    requires Inv(st, b) && IsAt(st, c, x)
    ensures c < |b.loc| && b.loc[c] == LocOf(x)
    ensures x.ToSend? ==> x.c == c
    ensures x.Delivered? ==> x.slot == c
    ensures x.Returning? ==> x.d == c
  {
    hide AgentOk;
    match x
    case ToSend(_) => assert CallOk(st, b, c);
    case InDown(s, i) => assert StreamOk(st, b, s); assert DownMsgOk(st, b, s, st.streams[s].down[i]);
    case InReader(p) => assert ProxyOk(st, b, p);
    case InTask(t) => assert TaskOk(st, b, t);
    case InUp(s, i) => assert StreamOk(st, b, s); assert ReplyAt(st, b, st.streams[s].up[i], OnUp(s));
    case InHandler(s) => assert StreamOk(st, b, s);
    case Delivered(d) => assert CallOk(st, b, d);
    case Returning(d) => assert CallOk(st, b, d);
  }

  lemma PlacesCoincide(st: State, b: Book, c: nat, x: Place, y: Place)
    requires Inv(st, b) && IsAt(st, c, x) && IsAt(st, c, y)
    ensures x == y
  {
    hide CallOk, ProxyOk, AgentOk, TaskOk;
    PlaceIsBooked(st, b, c, x);
    PlaceIsBooked(st, b, c, y);
    if x.InDown? {
      assert StreamOk(st, b, x.s);
    } else if x.InUp? {
      assert StreamOk(st, b, x.s);
    }
  }

  /** In every reachable state, a call's request or reply is in at most one place: it is never copied. */
  lemma AtMostOnePlace(st: State, c: nat, x: Place, y: Place)
    requires Reachable(st)
    requires IsAt(st, c, x) && IsAt(st, c, y)
    ensures x == y
  {
    var b := Reached(st);
    PlacesCoincide(st, b, c, x, y);
  }

  /** In every reachable state, a call starts at most one goroutine, and a goroutine that is no longer
      running has made exactly one reply, which then is the only reply anywhere for its call. */
  lemma OneGoroutineOneReply(st: State, t: nat)
    requires Reachable(st) && t < |st.tasks|
    ensures var c := st.tasks[t].origin;
            && (forall u | 0 <= u < |st.tasks| && st.tasks[u].origin == c :: u == t)
            && (st.tasks[t].phase == Running <==> st.tasks[t].reply == None)
            && (forall s, i | 0 <= s < |st.streams| && 0 <= i < |st.streams[s].up| && st.streams[s].up[i].origin == c ::
                  st.streams[s].up[i].Reply? && st.streams[s].up[i].maker == MadeByTask(t)
                  && st.tasks[t].reply == Some(st.streams[s].up[i].body))
  {
    var b := Reached(st);
    RepliesComeFrom(st, b, t);
  }

  lemma RepliesComeFrom(st: State, b: Book, t: nat)
    requires Inv(st, b) && t < |st.tasks|
    ensures var c := st.tasks[t].origin;
            && (forall u | 0 <= u < |st.tasks| && st.tasks[u].origin == c :: u == t)
            && (st.tasks[t].phase == Running <==> st.tasks[t].reply == None)
            && (forall s, i | 0 <= s < |st.streams| && 0 <= i < |st.streams[s].up| && st.streams[s].up[i].origin == c ::
                  st.streams[s].up[i].Reply? && st.streams[s].up[i].maker == MadeByTask(t)
                  && st.tasks[t].reply == Some(st.streams[s].up[i].body))
  {
    hide CallOk, ProxyOk, AgentOk;
    assert TaskOk(st, b, t);
    forall s, i | 0 <= s < |st.streams| && 0 <= i < |st.streams[s].up|
                  && st.streams[s].up[i].origin == st.tasks[t].origin
      ensures st.streams[s].up[i].Reply? && st.streams[s].up[i].maker == MadeByTask(t)
              && st.tasks[t].reply == Some(st.streams[s].up[i].body)
    {
      assert StreamOk(st, b, s);
      assert ReplyAt(st, b, st.streams[s].up[i], OnUp(s));
    }
  }

  /** In every reachable state, a reply that the center puts into a slot finds the slot of its own call
      empty: the "already delivered" branch of `Deliver` is never taken. */
  lemma SlotIsAlwaysEmpty(st: State, s: nat)
    requires Reachable(st) && CanCenterPut(st, s)
    ensures var hand := st.streams[s].hand;
            && hand.slot == hand.reply.origin
            && st.router.slots[hand.slot] == None
            && DoCenterPut(st, s).router.slots[hand.slot] == Some(hand.reply)
  {
    var b := Reached(st);
    PutFindsEmpty(st, b, s);
  }

  lemma PutFindsEmpty(st: State, b: Book, s: nat)
    requires Inv(st, b) && CanCenterPut(st, s)
    ensures st.streams[s].hand.slot == st.streams[s].hand.reply.origin
    ensures st.router.slots[st.streams[s].hand.slot] == None
  {
    hide ProxyOk, AgentOk, TaskOk;
    assert StreamOk(st, b, s);
    assert CallOk(st, b, st.streams[s].hand.slot);
  }

  /** In every reachable state, a reply that reaches the center while its call has not returned is put into
      that call's slot, never dropped. */
  lemma ReplyFindsItsCall(st: State, s: nat)
    requires Reachable(st) && CanCenterLoad(st, s)
    ensures var m := st.streams[s].up[0];
            && m.origin < |st.calls|
            && DoCenterLoad(st, s).streams[s].hand
               == if st.calls[m.origin].phase != Returned then Putting(m, m.origin) else Free
  {
    var b := Reached(st);
    LoadFindsCall(st, b, s);
  }

  lemma LoadFindsCall(st: State, b: Book, s: nat)
    requires Inv(st, b) && CanCenterLoad(st, s)
    ensures var m := st.streams[s].up[0];
            && m.origin < |st.calls|
            && (m.id in st.router.pending <==> st.calls[m.origin].phase != Returned)
            && (m.id in st.router.pending ==> st.router.pending[m.id] == m.origin)
  {
    hide ProxyOk, AgentOk, TaskOk;
    assert StreamOk(st, b, s);
    var m := st.streams[s].up[0];
    assert ReplyAt(st, b, m, OnUp(s));
    assert CallOk(st, b, m.origin);
    if m.id in st.router.pending {
      assert CallOk(st, b, st.router.pending[m.id]);
    }
  }

  // ----- what is left of a call -----

  /** The cancel of call `c` is not on its way to the first hop. */
  predicate CancelDrained(st: State, c: nat) {
    c < |st.calls| && st.calls[c].route < |st.streams|
    && CancelRequest(st.calls[c].id, c) !in st.streams[st.calls[c].route].down
  }

  /** The goroutines of call `c` have finished. */
  predicate GoroutinesDone(st: State, c: nat) {
    forall t | 0 <= t < |st.tasks| && st.tasks[t].origin == c :: st.tasks[t].phase == Done
  }

  /** The stream of call `c` broke, and its proxy has not been accepted again since. */
  predicate Stranded(st: State, c: nat) {
    c < |st.calls| && st.calls[c].route < |st.streams| && st.streams[st.calls[c].route].broken
    && exists p :: 0 <= p < |st.proxies| && st.proxies[p].session == Some(st.calls[c].route)
  }

  /** In every reachable state, a call that has returned is in none of the three tables: not in the router's
      pending table; not in a proxy's relay table once its cancel, if there is one, has been
      read, unless the stream broke and the proxy has not been accepted again; and not among an
      agent's cancel functions once its goroutine has finished. */
  lemma ReturnedCallLeavesNoTrace(st: State, c: nat)
    requires Reachable(st)
    requires c < |st.calls| && st.calls[c].phase == Returned
    ensures (forall id | id in st.router.pending :: st.router.pending[id] != c)
            && (CancelDrained(st, c) && !Stranded(st, c) ==>
                  forall p | 0 <= p < |st.proxies| :: NoEntry(st.proxies[p], c))
            && (GoroutinesDone(st, c) ==>
                  forall a, id | 0 <= a < |st.agents| && id in st.agents[a].cancelFns ::
                    st.agents[a].cancelFns[id] < |st.tasks|
                    && st.tasks[st.agents[a].cancelFns[id]].origin != c)
  {
    hide Inv, Run, After, Reachable;
    var b := Reached(st);
    NoPendingLeft(st, b, c);
    if CancelDrained(st, c) && !Stranded(st, c) {
      forall p | 0 <= p < |st.proxies| ensures NoEntry(st.proxies[p], c) {
        NoEntryLeft(st, b, c, p);
      }
    }
    if GoroutinesDone(st, c) {
      NoCancelFnLeft(st, b, c);
    }
  }

  lemma NoPendingLeft(st: State, b: Book, c: nat)
    requires Inv(st, b) && c < |st.calls| && st.calls[c].phase == Returned
    ensures forall id | id in st.router.pending :: st.router.pending[id] != c
  {
    hide StreamOk, CallOk, ProxyOk, AgentOk, TaskOk;
  }

  lemma NoEntryLeft(st: State, b: Book, c: nat, p: nat)
    requires Inv(st, b) && c < |st.calls| && p < |st.proxies|
    requires st.calls[c].phase == Returned && CancelDrained(st, c) && !Stranded(st, c)
    ensures NoEntry(st.proxies[p], c)
  {
    hide StreamOk, AgentOk, TaskOk, ReaderOk;
    assert ProxyOk(st, b, p);
    assert CallOk(st, b, c);
    var x := st.proxies[p];
    forall id | id in x.relay.pendingRequests ensures x.relay.pendingRequests[id].origin != c {
      assert EntryOk(st, b, p, x, id, x.relay.pendingRequests[id]);
    }
  }

  lemma NoCancelFnLeft(st: State, b: Book, c: nat)
    requires Inv(st, b) && c < |st.calls| && GoroutinesDone(st, c)
    ensures forall a, id | 0 <= a < |st.agents| && id in st.agents[a].cancelFns ::
              st.agents[a].cancelFns[id] < |st.tasks| && st.tasks[st.agents[a].cancelFns[id]].origin != c
  {
    hide StreamOk, CallOk, ProxyOk, TaskOk;
    forall a, id | 0 <= a < |st.agents| && id in st.agents[a].cancelFns
      ensures st.agents[a].cancelFns[id] < |st.tasks| && st.tasks[st.agents[a].cancelFns[id]].origin != c
    {
      assert AgentOk(st, a);
    }
  }

  /** Stream `s` is one that proxy `p` will never be accepted on again. */
  predicate Past(st: State, p: nat, s: nat) {
    && p < |st.proxies| && s < |st.streams|
    && st.proxies[p].session != Some(s)
    && st.proxies[p].link != Dialing(s)
  }

  lemma PastStays(st: State, e: Event, p: nat, s: nat)
    requires Can(st, e) && Past(st, p, s)
    ensures Past(Next(st, e), p, s)
  {
    match e
    case AtCenter(x) => PastStaysCenter(st, x, p, s);
    case AtRelay(x) => PastStaysRelay(st, x, p, s);
    case AtAgent(x) => PastStaysAgent(st, x, p, s);
    case AtNetwork(x) => PastStaysNetwork(st, x, p, s);
  }

  lemma PastStaysCenter(st: State, e: CenterEvent, p: nat, s: nat)
    requires CanCenter(st, e) && Past(st, p, s)
    ensures Past(NextCenter(st, e), p, s)
  {
  }

  lemma PastStaysRelay(st: State, e: RelayEvent, p: nat, s: nat)
    requires CanRelay(st, e) && Past(st, p, s)
    ensures Past(NextRelay(st, e), p, s)
  {
  }

  lemma PastStaysAgent(st: State, e: AgentEvent, p: nat, s: nat)
    requires CanAgent(st, e) && Past(st, p, s)
    ensures Past(NextAgent(st, e), p, s)
  {
  }

  lemma PastStaysNetwork(st: State, e: NetworkEvent, p: nat, s: nat)
    requires CanNetwork(st, e) && Past(st, p, s)
    ensures Past(NextNetwork(st, e), p, s)
  {
  }

  lemma {:induction false} PastForever(st: State, es: seq<Event>, p: nat, s: nat)
    requires Run(st, es) && Past(st, p, s)
    ensures Past(After(st, es), p, s)
    decreases |es|
  {
    hide IdFree, Can, Next, Past;
    if es != [] {
      PastStays(st, es[0], p, s);
      PastForever(Next(st, es[0]), es[1..], p, s);
    }
  }

  /** The stranded case lasts only until the proxy's next accepted registration: it empties the
      relay table, and from then on, in every continuation of the run, no call that is routed
      over an older stream has an entry at that proxy. */
  lemma NextAckForgets(st: State, p: nat, later: seq<Event>, s: nat)
    requires Reachable(st)
    requires CanNetwork(st, ProxyAck(p))
    requires s < |st.streams| && s != st.proxies[p].link.stream
    requires Run(Next(st, AtNetwork(ProxyAck(p))), later)
    ensures DoProxyAck(st, p).proxies[p].relay.pendingRequests == map[]
    ensures var end := After(Next(st, AtNetwork(ProxyAck(p))), later);
            p < |end.proxies|
            && forall c | 0 <= c < |end.calls| && end.calls[c].route == s :: NoEntry(end.proxies[p], c)
  {
    hide Inv, Run, After, Reachable;
    var acked := Next(st, AtNetwork(ProxyAck(p)));
    assert acked == DoProxyAck(st, p);
    var b := Reached(st);
    var b1 := Keep(st, b, AtNetwork(ProxyAck(p)));
    var b2 := KeepRun(acked, b1, later);
    PastForever(acked, later, p, s);
    var end := After(acked, later);
    forall c | 0 <= c < |end.calls| && end.calls[c].route == s ensures NoEntry(end.proxies[p], c) {
      EntriesAreOfSession(end, b2, p, c);
    }
  }

  lemma EntriesAreOfSession(st: State, b: Book, p: nat, c: nat)
    requires Inv(st, b) && p < |st.proxies| && c < |st.calls|
    requires st.proxies[p].session != Some(st.calls[c].route)
    ensures NoEntry(st.proxies[p], c)
  {
    hide StreamOk, CallOk, AgentOk, TaskOk, ReaderOk;
    assert ProxyOk(st, b, p);
    var x := st.proxies[p];
    forall id | id in x.relay.pendingRequests ensures x.relay.pendingRequests[id].origin != c {
      assert EntryOk(st, b, p, x, id, x.relay.pendingRequests[id]);
    }
  }
}
