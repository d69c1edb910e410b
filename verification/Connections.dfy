/** The `Connect` handlers of one server and its registry, as a state machine.  There are any
    number of handlers, one per stream, and one event is one atomic step of one of them: an
    operation on the registry, or a read of the clock.  `Connections` is the center; a proxy
    takes the same steps except the ones a forwarded registration starts (see `ProxyStep`). */
module Connections {
  import opened Tunnel
  import opened RegistryTable

  /** A registration message. */
  datatype Request = Request(host: Host, nodeType: string, path: seq<Host>)

  /** What a read loop is in the middle of. */
  datatype Doing =
    | Nothing
    | Refreshing(host: Host)
    | Stamping(req: Request)
    | Enrolling(req: Request, at: int)
    | Persisting(host: Host)

  datatype Phase = Opened | Entered | Reading | Finished

  /** The handler of one stream.  `received` holds the registrations that came on the stream, its
      own first; no step reads it. */
  datatype Handler = Handler(req: Request, at: int, phase: Phase, doing: Doing, received: seq<Request>)

  /** `durable` says that a persister is configured. */
  datatype State = State(table: Table, handlers: seq<Handler>, now: int, timeout: int, durable: bool)

  datatype Event =
    | Open(req: Request)
    | Reject(s: nat)
    | Enter(s: nat)
    | AckFailed(s: nat)
    | AckSent(s: nat)
    | Beat(s: nat)
    | Forwarded(s: nat, req: Request)
    | Refresh(s: nat)
    | Stamp(s: nat)
    | Enroll(s: nat)
    | Persisted(s: nat)
    | PersistFailed(s: nat)
    | Close(s: nat)
    | Check
    | Tick(d: nat)

  function Placed(r: Request, at: int, s: nat): Record {
    Record(r.host, r.nodeType, r.path, at, at, true, s)
  }

  predicate In(st: State, s: nat, phase: Phase) {
    s < |st.handlers| && st.handlers[s].phase == phase
  }

  /** The read loop of stream `s` is about to receive. */
  predicate Idle(st: State, s: nat) {
    In(st, s, Reading) && st.handlers[s].doing == Nothing
  }

  predicate Busy(st: State, s: nat) {
    In(st, s, Reading) && st.handlers[s].doing != Nothing
  }

  predicate Can(st: State, e: Event) {
    match e
    case Open(_) => true
    case Reject(s) => In(st, s, Opened) && st.durable
    case Enter(s) => In(st, s, Opened)
    case AckFailed(s) => In(st, s, Entered)
    case AckSent(s) => In(st, s, Entered)
    case Beat(s) => Idle(st, s)
    case Forwarded(s, _) => Idle(st, s)
    case Refresh(s) => Busy(st, s) && st.handlers[s].doing.Refreshing?
    case Stamp(s) => Busy(st, s) && st.handlers[s].doing.Stamping?
    case Enroll(s) => Busy(st, s) && st.handlers[s].doing.Enrolling?
    case Persisted(s) => Busy(st, s) && st.handlers[s].doing.Persisting?
    case PersistFailed(s) => Busy(st, s) && st.handlers[s].doing.Persisting? && st.durable
    case Close(s) => Idle(st, s)
    case Check => true
    case Tick(_) => true
  }

  function NextTable(st: State, e: Event): Table
    requires Can(st, e)
  {
    var t := st.table;
    match e
    case Enter(s) => Registered(t, Placed(st.handlers[s].req, st.handlers[s].at, s))
    case AckFailed(s) => WithoutRoute(t, s)
    case Beat(s) => Refreshed(t, st.handlers[s].req.host, st.now)
    case Refresh(s) => Refreshed(t, st.handlers[s].doing.host, st.now)
    case Enroll(s) =>
      Registered(t, Placed(st.handlers[s].doing.req, st.handlers[s].doing.at, s))
    case PersistFailed(s) => Unregistered(t, st.handlers[s].doing.host)
    case Close(s) => WithoutRoute(t, s)
    case Check => Expired(t, st.now, st.timeout)
    case _ => t
  }

  function Receive(st: State, h: Handler, req: Request): Handler {
    h.(doing := if req.host in st.table then Refreshing(req.host) else Stamping(req),
       received := h.received + [req])
  }

  function NextHandlers(st: State, e: Event): seq<Handler>
    requires Can(st, e)
  {
    var hs := st.handlers;
    match e
    case Open(req) => hs + [Handler(req, st.now, Opened, Nothing, [req])]
    case Reject(s) => hs[s := hs[s].(phase := Finished)]
    case Enter(s) => hs[s := hs[s].(phase := Entered)]
    case AckFailed(s) => hs[s := hs[s].(phase := Finished)]
    case AckSent(s) => hs[s := hs[s].(phase := Reading)]
    case Forwarded(s, req) => hs[s := Receive(st, hs[s], req)]
    case Refresh(s) => hs[s := hs[s].(doing := Nothing)]
    case Stamp(s) => hs[s := hs[s].(doing := Enrolling(hs[s].doing.req, st.now))]
    case Enroll(s) => hs[s := hs[s].(doing := Persisting(hs[s].doing.req.host))]
    case Persisted(s) => hs[s := hs[s].(doing := Nothing)]
    case PersistFailed(s) => hs[s := hs[s].(doing := Nothing)]
    case Close(s) => hs[s := hs[s].(phase := Finished)]
    case _ => hs
  }

  function Next(st: State, e: Event): State
    requires Can(st, e)
  {
    State(NextTable(st, e), NextHandlers(st, e),
          if e.Tick? then st.now + e.d else st.now,
          st.timeout, st.durable)
  }

  lemma NextParts(st: State, e: Event)
    requires Can(st, e)
    ensures Next(st, e).handlers == NextHandlers(st, e) && Next(st, e).table == NextTable(st, e)
  {
  }

  ghost predicate Run(st: State, es: seq<Event>)
    decreases |es|
  {
    es == [] || (Can(st, es[0]) && Run(Next(st, es[0]), es[1..]))
  }

  function After(st: State, es: seq<Event>): State
    requires Run(st, es)
    decreases |es|
  {
    if es == [] then st else After(Next(st, es[0]), es[1..])
  }

  predicate Started(st: State) {
    st.table == map[] && st.handlers == []
  }

  lemma RunSplit(st: State, es: seq<Event>, fs: seq<Event>)
    requires Run(st, es + fs)
    ensures Run(st, es) && Run(After(st, es), fs)
    ensures After(After(st, es), fs) == After(st, es + fs)
    decreases |es|
  {
    if es == [] {
      assert es + fs == fs;
    } else {
      assert (es + fs)[1..] == es[1..] + fs;
      RunSplit(Next(st, es[0]), es[1..], fs);
    }
  }

  // ----- what one step does to one record -----

  /** Everything but heartbeat and status. */
  predicate SamePlace(a: Record, b: Record) {
    && a.host == b.host && a.nodeType == b.nodeType && a.path == b.path
    && a.registeredAt == b.registeredAt && a.route == b.route
  }

  /** The record a step puts into the registry. */
  function Puts(st: State, e: Event): Option<Record>
    requires Can(st, e)
  {
    match e
    case Enter(s) => Some(Placed(st.handlers[s].req, st.handlers[s].at, s))
    case Enroll(s) => Some(Placed(st.handlers[s].doing.req, st.handlers[s].doing.at, s))
    case _ => None
  }

  /** The step ends the handler of stream `u`. */
  predicate Ends(e: Event, u: nat) {
    e == Close(u) || e == AckFailed(u) || e == Reject(u)
  }

  /** The step takes away the record of `h`. */
  predicate Removes(st: State, e: Event, h: Host)
    requires Can(st, e) && h in st.table
  {
    || Ends(e, st.table[h].route)
    || (e.PersistFailed? && st.handlers[e.s].doing.host == h)
  }

  predicate PutsFor(st: State, e: Event, h: Host)
    requires Can(st, e)
  {
    Puts(st, e).Some? && Puts(st, e).value.host == h
  }

  /** A record disappears exactly when its own handler ends or somebody's failed persist names its
      host, and it is rerouted only by a registration of its host. */
  lemma StepOnRecord(st: State, e: Event, h: Host)
    requires Can(st, e) && h in st.table && (e.Reject? ==> st.table[h].route != e.s)
    ensures h !in Next(st, e).table <==> Removes(st, e, h)
    ensures !Removes(st, e, h) && !PutsFor(st, e, h) ==> SamePlace(Next(st, e).table[h], st.table[h])
    ensures PutsFor(st, e, h) ==> Next(st, e).table[h] == Puts(st, e).value
  {
    assert Next(st, e).table == NextTable(st, e);
  }

  lemma StepOnNoRecord(st: State, e: Event, h: Host)
    requires Can(st, e) && h !in st.table
    ensures h in Next(st, e).table <==> PutsFor(st, e, h)
    ensures PutsFor(st, e, h) ==> Next(st, e).table[h] == Puts(st, e).value
  {
    assert Next(st, e).table == NextTable(st, e);
  }

  // ----- who owns a record -----

  predicate HandlerOk(h: Handler) {
    && |h.received| > 0 && h.received[0] == h.req
    && (h.doing.Stamping? || h.doing.Enrolling? ==> h.doing.req in h.received)
    && (h.doing != Nothing ==> h.phase == Reading)
  }

  /** A record lies under its own name, on the stream of a handler that is still there, and says
      what some registration received on that stream said. */
  predicate Owned(st: State, h: Host)
    requires h in st.table
  {
    var r := st.table[h];
    && r.host == h
    && r.route < |st.handlers|
    && (st.handlers[r.route].phase == Entered || st.handlers[r.route].phase == Reading)
    && Request(h, r.nodeType, r.path) in st.handlers[r.route].received
  }

  predicate Ownership(st: State) {
    && (forall h | h in st.table :: Owned(st, h))
    && (forall s | 0 <= s < |st.handlers| :: HandlerOk(st.handlers[s]))
  }

  lemma HandlersStayOk(st: State, e: Event)
    requires Ownership(st) && Can(st, e)
    ensures forall s | 0 <= s < |NextHandlers(st, e)| :: HandlerOk(NextHandlers(st, e)[s])
  {
  }

  /** A handler that is there stays, unless the step ends it, and forgets nothing it received. */
  lemma HandlerGoesOn(st: State, e: Event, u: nat)
    requires Can(st, e) && u < |st.handlers| && !Ends(e, u)
    ensures u < |NextHandlers(st, e)|
    ensures forall r | r in st.handlers[u].received :: r in NextHandlers(st, e)[u].received
    ensures st.handlers[u].phase == Entered || st.handlers[u].phase == Reading
            ==> NextHandlers(st, e)[u].phase == Entered || NextHandlers(st, e)[u].phase == Reading
  {
  }

  lemma PutIsOwned(st: State, e: Event)
    requires Ownership(st) && Can(st, e) && Puts(st, e).Some?
    ensures var r := Puts(st, e).value;
            && r.route < |NextHandlers(st, e)|
            && (NextHandlers(st, e)[r.route].phase == Entered || NextHandlers(st, e)[r.route].phase == Reading)
            && Request(r.host, r.nodeType, r.path) in NextHandlers(st, e)[r.route].received
  {
    assert HandlerOk(st.handlers[e.s]);
  }

  lemma OwnedKept(st: State, e: Event, h: Host)
    requires Ownership(st) && Can(st, e) && h in Next(st, e).table
    ensures Owned(Next(st, e), h)
  {
    hide Can, Next, NextTable, NextHandlers, HandlerOk, Puts;
    NextParts(st, e);
    if PutsFor(st, e, h) {
      PutIsOwned(st, e);
      if h in st.table {
        RouteIsNotRejected(st, e, h);
        StepOnRecord(st, e, h);
      } else {
        StepOnNoRecord(st, e, h);
      }
    } else if h in st.table {
      RouteIsNotRejected(st, e, h);
      assert Owned(st, h);
      StepOnRecord(st, e, h);
      HandlerGoesOn(st, e, st.table[h].route);
    } else {
      StepOnNoRecord(st, e, h);
    }
  }

  lemma RouteIsNotRejected(st: State, e: Event, h: Host)
    requires Ownership(st) && Can(st, e) && h in st.table
    ensures e.Reject? ==> st.table[h].route != e.s
  {
    assert Owned(st, h);
  }

  lemma OwnershipKept(st: State, e: Event)
    requires Ownership(st) && Can(st, e)
    ensures Ownership(Next(st, e))
  {
    hide Owned, Next, Can;
    assert Next(st, e).handlers == NextHandlers(st, e) by { NextParts(st, e); }
    HandlersStayOk(st, e);
    forall h | h in Next(st, e).table ensures Owned(Next(st, e), h) {
      OwnedKept(st, e, h);
    }
  }

  lemma {:induction false} OwnershipKeptAlong(st: State, es: seq<Event>)
    requires Ownership(st) && Run(st, es)
    ensures Ownership(After(st, es))
    decreases |es|
  {
    if es != [] {
      OwnershipKept(st, es[0]);
      OwnershipKeptAlong(Next(st, es[0]), es[1..]);
    }
  }
}
