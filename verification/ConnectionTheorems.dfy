/** What holds of a server's registry over whole runs of its `Connect` handlers. */
module ConnectionTheorems {
  import opened Tunnel
  import opened RegistryTable
  import opened Connections

  // ----- ownership -----

  /** Whatever handlers come and go, every record lies under its own name, its stream belongs to a
      handler that has not finished, and it repeats a registration received on that stream. */
  lemma EveryRecordIsOwned(st: State, es: seq<Event>, h: Host)
    requires Started(st) && Run(st, es)
    requires h in After(st, es).table
    ensures var end := After(st, es);
            var r := end.table[h];
            && r.host == h
            && r.route < |end.handlers|
            && end.handlers[r.route].phase in {Entered, Reading}
            && Request(h, r.nodeType, r.path) in end.handlers[r.route].received
  {
    OwnershipKeptAlong(st, es);
    assert Owned(After(st, es), h);
  }

  /** The end of a handler removes the records routed to its stream and leaves all others as they
      are, also those of hosts it once registered itself. */
  lemma ExitRemovesExactlyItsOwn(st: State, es: seq<Event>, e: Event, s: nat, h: Host)
    requires Started(st) && Run(st, es)
    requires Can(After(st, es), e) && Ends(e, s)
    ensures var before, after := After(st, es).table, Next(After(st, es), e).table;
            && (h in after <==> h in before && before[h].route != s)
            && (h in after ==> after[h] == before[h])
  {
    var end := After(st, es);
    OwnershipKeptAlong(st, es);
    if h in end.table {
      RouteIsNotRejected(end, e, h);
    }
  }

  /** The handler of `s` has finished, and no record is routed to it. */
  predicate Over(st: State, s: nat) {
    In(st, s, Finished) && forall h | h in st.table :: st.table[h].route != s
  }

  lemma OverStays(st: State, e: Event, s: nat)
    requires Ownership(st) && Over(st, s) && Can(st, e)
    ensures Over(Next(st, e), s) && OfOthers(e, s)
  {
    hide Owned;
    assert HandlerOk(st.handlers[s]);
  }

  lemma {:induction false} OverForEver(st: State, es: seq<Event>, s: nat)
    requires Ownership(st) && Over(st, s) && Run(st, es)
    ensures Over(After(st, es), s) && forall e | e in es :: OfOthers(e, s)
    decreases |es|
  {
    if es != [] {
      hide Over, Can, Next, Ownership;
      OverStays(st, es[0], s);
      OwnershipKept(st, es[0]);
      OverForEver(Next(st, es[0]), es[1..], s);
    }
  }

  /** A handler that has ended, in whichever way, never takes another step, and no record is ever routed
      to its stream again. */
  lemma EndedHandlerIsOver(st: State, es: seq<Event>, e: Event, s: nat, later: seq<Event>)
    requires Started(st) && Run(st, es) && Can(After(st, es), e) && Ends(e, s)
    requires Run(Next(After(st, es), e), later)
    ensures forall f | f in later :: OfOthers(f, s)
    ensures forall h | h in After(Next(After(st, es), e), later).table ::
              After(Next(After(st, es), e), later).table[h].route != s
  {
    hide Run, After, Owned;
    OwnershipKeptAlong(st, es);
    var end := After(st, es);
    forall h | h in Next(end, e).table ensures Next(end, e).table[h].route != s {
      ExitRemovesExactlyItsOwn(st, es, e, s, h);
    }
    OwnershipKept(end, e);
    OverForEver(Next(end, e), later, s);
  }

  /** The step neither ends stream `u`, nor registers `h`, nor is a failed persist of `h`. */
  predicate Spares(st: State, e: Event, u: nat, h: Host)
    requires Can(st, e)
  {
    && !Ends(e, u)
    && !PutsFor(st, e, h)
    && !(e.PersistFailed? && st.handlers[e.s].doing.host == h)
  }

  ghost predicate AllSpare(st: State, es: seq<Event>, u: nat, h: Host)
    requires Run(st, es)
    decreases |es|
  {
    es == [] || (Spares(st, es[0], u, h) && AllSpare(Next(st, es[0]), es[1..], u, h))
  }

  /** A record stays where it was put however other handlers end, beat, forward and check, those of
      older connections of the same host included. */
  lemma {:induction false} RecordStaysPut(st: State, es: seq<Event>, h: Host)
    requires Ownership(st) && h in st.table
    requires Run(st, es) && AllSpare(st, es, st.table[h].route, h)
    ensures h in After(st, es).table && SamePlace(After(st, es).table[h], st.table[h])
    decreases |es|
  {
    if es != [] {
      RouteIsNotRejected(st, es[0], h);
      StepOnRecord(st, es[0], h);
      OwnershipKept(st, es[0]);
      RecordStaysPut(Next(st, es[0]), es[1..], h);
    }
  }

  ghost predicate NobodyRegisters(st: State, es: seq<Event>, h: Host)
    requires Run(st, es)
    decreases |es|
  {
    es == [] || (!PutsFor(st, es[0], h) && NobodyRegisters(Next(st, es[0]), es[1..], h))
  }

  /** Heartbeats do not bring back a record that is gone; only a registration does. */
  lemma {:induction false} GoneUntilRegistered(st: State, es: seq<Event>, h: Host)
    requires h !in st.table && Run(st, es) && NobodyRegisters(st, es, h)
    ensures h !in After(st, es).table
    decreases |es|
  {
    if es != [] {
      StepOnNoRecord(st, es[0], h);
      GoneUntilRegistered(Next(st, es[0]), es[1..], h);
    }
  }

  /** The event is not a step of the handler of `u`. */
  predicate OfOthers(e: Event, u: nat) {
    match e
    case Open(_) => true
    case Check => true
    case Tick(_) => true
    case _ => e.s != u
  }

  lemma {:induction false} OthersLeaveHandler(st: State, es: seq<Event>, u: nat)
    requires u < |st.handlers| && Run(st, es) && forall e | e in es :: OfOthers(e, u)
    ensures u < |After(st, es).handlers| && After(st, es).handlers[u] == st.handlers[u]
    decreases |es|
  {
    if es != [] {
      assert es[0] in es;
      OthersLeaveHandler(Next(st, es[0]), es[1..], u);
    }
  }

  // ----- forwarded registrations -----

  /** A forwarded registration that finds its host known is only a heartbeat: its handler enrolls
      nothing before it takes the next forwarded registration. */
  lemma {:induction false} KnownHostIsNotEnrolled(st: State, es: seq<Event>, s: nat)
    requires Run(st, es) && s < |st.handlers|
    requires !st.handlers[s].doing.Stamping? && !st.handlers[s].doing.Enrolling?
    requires forall e | e in es :: !(e.Forwarded? && e.s == s)
    ensures Enroll(s) !in es
    decreases |es|
  {
    if es != [] {
      assert es[0] in es;
      KnownHostIsNotEnrolled(Next(st, es[0]), es[1..], s);
    }
  }

  lemma ForwardedKnownHostOnlyRefreshes(st: State, s: nat, req: Request, es: seq<Event>)
    requires Idle(st, s) && req.host in st.table
    requires Run(st, [Forwarded(s, req)] + es)
    requires forall e | e in es :: !(e.Forwarded? && e.s == s)
    ensures Enroll(s) !in es
    ensures Next(st, Forwarded(s, req)).table == st.table
  {
    var all := [Forwarded(s, req)] + es;
    assert all[0] == Forwarded(s, req) && all[1..] == es;
    KnownHostIsNotEnrolled(Next(st, all[0]), es, s);
  }

  // ----- two runs that show the limits -----

  predicate Leads(st: State, e: Event, st': State) {
    Can(st, e) && Next(st, e) == st'
  }

  lemma {:induction false} Chain(es: seq<Event>, states: seq<State>)
    requires |states| == |es| + 1
    requires forall i | 0 <= i < |es| :: Leads(states[i], es[i], states[i + 1])
    ensures Run(states[0], es) && After(states[0], es) == states[|es|]
    decreases |es|
  {
    if es != [] {
      assert Leads(states[0], es[0], states[1]);
      forall i | 0 <= i < |es[1..]| ensures Leads(states[1..][i], es[1..][i], states[1..][i + 1]) {
        assert Leads(states[i + 1], es[i + 1], states[i + 2]);
      }
      Chain(es[1..], states[1..]);
    }
  }

  /** `node` connects through `proxy`, on stream 0, and directly, on stream 1. */
  function Proxy(phase: Phase, doing: Doing, received: seq<Request>): Handler {
    Handler(Request("proxy", "proxy", []), 0, phase, doing, [Request("proxy", "proxy", [])] + received)
  }

  function Node(phase: Phase): Handler {
    Handler(Direct(), 0, phase, Nothing, [Direct()])
  }

  function Direct(): Request {
    Request("node", "agent", [])
  }

  function Via(): Request {
    Request("node", "agent", ["proxy"])
  }

  function World(table: Table, handlers: seq<Handler>): State {
    State(table, handlers, 0, 30, true)
  }

  function ProxyRecord(): Record {
    Placed(Request("proxy", "proxy", []), 0, 0)
  }

  function Connect(): seq<Event> {
    [Open(Request("proxy", "proxy", [])), Enter(0), AckSent(0), Forwarded(0, Via())]
  }

  function Looked(): State {
    World(map["proxy" := ProxyRecord()], [Proxy(Reading, Stamping(Via()), [Via()])])
  }

  lemma Connecting()
    ensures Run(World(map[], []), Connect()) && After(World(map[], []), Connect()) == Looked()
  {
    var t: Table := map["proxy" := ProxyRecord()];
    var reading := World(t, [Proxy(Reading, Nothing, [])]);
    assert Proxy(Reading, Nothing, []).received == [Request("proxy", "proxy", [])];
    assert Leads(World(map[], []), Open(Request("proxy", "proxy", [])), World(map[], [Proxy(Opened, Nothing, [])]));
    assert Leads(reading, Forwarded(0, Via()), Looked()) by {
      assert Proxy(Reading, Nothing, []).received + [Via()] == Proxy(Reading, Nothing, [Via()]).received;
    }
    Chain(Connect(),
          [World(map[], []), World(map[], [Proxy(Opened, Nothing, [])]), World(t, [Proxy(Entered, Nothing, [])]),
           reading, Looked()]);
  }

  lemma Join(st: State, es: seq<Event>, fs: seq<Event>)
    requires Run(st, es) && Run(After(st, es), fs)
    ensures Run(st, es + fs) && After(st, es + fs) == After(After(st, es), fs)
    decreases |es|
  {
    if es == [] {
      assert es + fs == fs;
    } else {
      assert (es + fs)[1..] == es[1..] + fs;
      Join(Next(st, es[0]), es[1..], fs);
    }
  }

  function Enrolled(): State {
    World(map["proxy" := ProxyRecord(), "node" := Placed(Via(), 0, 0)], [Proxy(Reading, Persisting("node"), [Via()])])
  }

  lemma ConnectingAndEnrolling()
    ensures var es := Connect() + [Stamp(0), Enroll(0)];
            Run(World(map[], []), es) && After(World(map[], []), es) == Enrolled()
  {
    var enrolling := World(map["proxy" := ProxyRecord()], [Proxy(Reading, Enrolling(Via(), 0), [Via()])]);
    assert Leads(Looked(), Stamp(0), enrolling);
    assert Leads(enrolling, Enroll(0), Enrolled());
    Chain([Stamp(0), Enroll(0)], [Looked(), enrolling, Enrolled()]);
    Connecting();
    Join(World(map[], []), Connect(), [Stamp(0), Enroll(0)]);
  }

  function FailLate(): seq<Event> {
    [Open(Direct()), Enter(1), AckSent(1), PersistFailed(0)]
  }

  /** A failed persist unregisters by host name, so it can take away the record that another,
      connected handler has placed since; that handler's heartbeats do not bring it back. */
  lemma FailedPersistDropsAConnectedNode()
    ensures var st, es := World(map[], []), Connect() + [Stamp(0), Enroll(0)] + FailLate();
            && Run(st, es)
            && var end := After(st, es);
               "node" !in end.table && Idle(end, 1) && end.handlers[1].req == Direct()
               && Next(end, Beat(1)).table == end.table
  {
    var t: Table := map["proxy" := ProxyRecord()];
    var via, direct := t["node" := Placed(Via(), 0, 0)], t["node" := Placed(Direct(), 0, 1)];
    var p := Proxy(Reading, Persisting("node"), [Via()]);
    var end := World(t, [Proxy(Reading, Nothing, [Via()]), Node(Reading)]);
    assert Leads(World(direct, [p, Node(Reading)]), PersistFailed(0), end) by {
      assert direct - {"node"} == t;
    }
    assert Leads(World(via, [p, Node(Opened)]), Enter(1), World(direct, [p, Node(Entered)]));
    Chain(FailLate(),
          [Enrolled(), World(via, [p, Node(Opened)]), World(direct, [p, Node(Entered)]),
           World(direct, [p, Node(Reading)]), end]);
    ConnectingAndEnrolling();
    Join(World(map[], []), Connect() + [Stamp(0), Enroll(0)], FailLate());
  }

  function EnrollLate(): seq<Event> {
    [Open(Direct()), Enter(1), AckSent(1), Stamp(0), Enroll(0)]
  }

  /** Lookup and registration are two steps, so a forwarded registration that found its host
      unknown can still reroute the record of a node that has connected since. */
  lemma ForwardedRegistrationCanReroute()
    ensures var st, es := World(map[], []), Connect() + EnrollLate();
            && Run(st, es)
            && var end := After(st, es);
               "node" in end.table && end.table["node"].route == 0 && Idle(end, 1)
  {
    var t: Table := map["proxy" := ProxyRecord()];
    var via, direct := t["node" := Placed(Via(), 0, 0)], t["node" := Placed(Direct(), 0, 1)];
    var p := Proxy(Reading, Stamping(Via()), [Via()]);
    var p' := Proxy(Reading, Enrolling(Via(), 0), [Via()]);
    var end := World(via, [Proxy(Reading, Persisting("node"), [Via()]), Node(Reading)]);
    assert Leads(World(direct, [p', Node(Reading)]), Enroll(0), end);
    Chain(EnrollLate(),
          [Looked(), World(t, [p, Node(Opened)]), World(direct, [p, Node(Entered)]),
           World(direct, [p, Node(Reading)]), World(direct, [p', Node(Reading)]), end]);
    Connecting();
    Join(World(map[], []), Connect(), EnrollLate());
  }
}
