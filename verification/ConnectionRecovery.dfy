/** How a center that has lost its records gets them back from the heartbeats a proxy relays. */
module ConnectionRecovery {
  import opened Tunnel
  import opened RegistryTable
  import opened Connections
  import opened ConnectionTheorems

  // ----- what a proxy relays -----

  /** The steps a proxy's handlers take: there is no persister, and a registration that is not the
      first message of its stream is ignored. */
  predicate ProxyStep(e: Event) {
    !e.Forwarded? && !e.Reject? && !e.PersistFailed?
  }

  /** What the proxy sends upstream when the handler of stream `s` has processed a heartbeat. */
  function Relayed(proxyHost: Host, st: State, s: nat): Option<Request>
    requires s < |st.handlers|
  {
    var h := st.handlers[s].req.host;
    if h in st.table then Some(Request(h, st.table[h].nodeType, [proxyHost] + st.table[h].path)) else None
  }

  predicate OwnRegistrationsOnly(st: State) {
    forall s | 0 <= s < |st.handlers| :: st.handlers[s].received == [st.handlers[s].req]
  }

  lemma {:induction false} ProxiesHearOwnRegistrations(st: State, es: seq<Event>)
    requires OwnRegistrationsOnly(st) && Run(st, es) && forall e | e in es :: ProxyStep(e)
    ensures OwnRegistrationsOnly(After(st, es))
    decreases |es|
  {
    if es != [] {
      assert es[0] in es;
      ProxiesHearOwnRegistrations(Next(st, es[0]), es[1..]);
    }
  }

  /** In every run of a proxy, the heartbeat of a node is relayed exactly if the proxy has a record of the
      node; the relayed message names the node itself, and its path is the
      proxy's name followed by the path with which the node registered on the stream that its
      requests are routed to. */
  lemma RelayTellsTheNodesPath(st: State, es: seq<Event>, proxyHost: Host, s: nat)
    requires Started(st) && Run(st, es) && (forall e | e in es :: ProxyStep(e))
    requires s < |After(st, es).handlers|
    ensures Relayed(proxyHost, After(st, es), s).Some? <==> After(st, es).handlers[s].req.host in After(st, es).table
    ensures var end := After(st, es);
            Relayed(proxyHost, end, s).Some? ==>
            var r := Relayed(proxyHost, end, s).value;
            && r.host == end.handlers[s].req.host
            && var u := end.table[r.host].route;
               && u < |end.handlers| && end.handlers[u].phase in {Entered, Reading}
               && end.handlers[u].req.host == r.host
               && r.path == [proxyHost] + end.handlers[u].req.path
               && r.nodeType == end.handlers[u].req.nodeType
  {
    OwnershipKeptAlong(st, es);
    ProxiesHearOwnRegistrations(st, es);
    if Relayed(proxyHost, After(st, es), s).Some? {
      assert Owned(After(st, es), After(st, es).handlers[s].req.host);
    }
  }

  // ----- recovery of the records -----

  /** Stream `u` stays, nobody else registers a wanted host, and no persist of one fails. */
  predicate Undisturbed(st: State, e: Event, u: nat, hosts: set<Host>)
    requires Can(st, e)
  {
    && !Ends(e, u)
    && (Puts(st, e).Some? && Puts(st, e).value.host in hosts ==> e == Enroll(u))
    && (e.PersistFailed? ==> st.handlers[e.s].doing.host !in hosts)
  }

  ghost predicate AllUndisturbed(st: State, es: seq<Event>, u: nat, hosts: set<Host>)
    requires Run(st, es)
    decreases |es|
  {
    es == [] || (Undisturbed(st, es[0], u, hosts) && AllUndisturbed(Next(st, es[0]), es[1..], u, hosts))
  }

  /** What is forwarded on `u` for a wanted host is what is wanted. */
  predicate Forwards(e: Event, u: nat, wanted: map<Host, Request>) {
    e.Forwarded? && e.s == u && e.req.host in wanted ==> e.req == wanted[e.req.host]
  }

  predicate Named(wanted: map<Host, Request>) {
    forall h | h in wanted :: wanted[h].host == h
  }

  /** Reached through stream `u`, on the path that was forwarded. */
  predicate RoutedOver(t: Table, h: Host, u: nat, r: Request) {
    h in t && t[h].route == u && t[h].path == r.path && t[h].nodeType == r.nodeType
  }

  predicate InHand(d: Doing, wanted: map<Host, Request>) {
    d.Stamping? || d.Enrolling? ==> d.req.host in wanted ==> d.req == wanted[d.req.host]
  }

  /** What is known of the wanted hosts came over `u` as wanted. */
  predicate Settling(st: State, u: nat, wanted: map<Host, Request>) {
    && In(st, u, Reading)
    && Named(wanted)
    && InHand(st.handlers[u].doing, wanted)
    && forall h | h in wanted && h in st.table :: RoutedOver(st.table, h, u, wanted[h])
  }

  lemma SettlingKeptForHandler(st: State, e: Event, u: nat, wanted: map<Host, Request>)
    requires Settling(st, u, wanted) && Can(st, e) && Undisturbed(st, e, u, wanted.Keys) && Forwards(e, u, wanted)
    ensures In(Next(st, e), u, Reading) && InHand(Next(st, e).handlers[u].doing, wanted)
  {
  }

  lemma SettlingKeptForHost(st: State, e: Event, u: nat, wanted: map<Host, Request>, h: Host)
    requires Settling(st, u, wanted) && Can(st, e) && Undisturbed(st, e, u, wanted.Keys) && Forwards(e, u, wanted)
    requires h in wanted && h in Next(st, e).table
    ensures RoutedOver(Next(st, e).table, h, u, wanted[h])
  {
    assert wanted[h].host == h;
  }

  lemma SettlingKept(st: State, e: Event, u: nat, wanted: map<Host, Request>)
    requires Settling(st, u, wanted) && Can(st, e) && Undisturbed(st, e, u, wanted.Keys) && Forwards(e, u, wanted)
    ensures Settling(Next(st, e), u, wanted)
  {
    hide Can, Next, Undisturbed;
    SettlingKeptForHandler(st, e, u, wanted);
    forall h | h in wanted && h in Next(st, e).table ensures RoutedOver(Next(st, e).table, h, u, wanted[h]) {
      SettlingKeptForHost(st, e, u, wanted, h);
    }
  }

  lemma {:induction false} SettlingKeptAlong(st: State, es: seq<Event>, u: nat, wanted: map<Host, Request>)
    requires Settling(st, u, wanted)
    requires Run(st, es) && AllUndisturbed(st, es, u, wanted.Keys) && forall e | e in es :: Forwards(e, u, wanted)
    ensures Settling(After(st, es), u, wanted)
    decreases |es|
  {
    if es != [] {
      assert es[0] in es;
      SettlingKept(st, es[0], u, wanted);
      SettlingKeptAlong(Next(st, es[0]), es[1..], u, wanted);
    }
  }

  /** `h` has a record, or its handler is about to make one. */
  predicate Coming(st: State, u: nat, h: Host, r: Request) {
    || h in st.table
    || (In(st, u, Reading)
        && (st.handlers[u].doing == Stamping(r)
            || (st.handlers[u].doing.Enrolling? && st.handlers[u].doing.req == r)))
  }

  lemma ComingKept(st: State, e: Event, u: nat, wanted: map<Host, Request>, h: Host)
    requires Settling(st, u, wanted) && Can(st, e) && Undisturbed(st, e, u, wanted.Keys)
    requires h in wanted && (Coming(st, u, h, wanted[h]) || e == Forwarded(u, wanted[h]))
    ensures Coming(Next(st, e), u, h, wanted[h])
  {
    assert wanted[h].host == h;
  }

  lemma {:induction false} ComingKeptAlong(st: State, es: seq<Event>, u: nat, wanted: map<Host, Request>, h: Host)
    requires Settling(st, u, wanted)
    requires Run(st, es) && AllUndisturbed(st, es, u, wanted.Keys) && forall e | e in es :: Forwards(e, u, wanted)
    requires h in wanted && (Coming(st, u, h, wanted[h]) || Forwarded(u, wanted[h]) in es)
    ensures Coming(After(st, es), u, h, wanted[h])
    decreases |es|
  {
    if es != [] {
      assert es[0] in es;
      SettlingKept(st, es[0], u, wanted);
      if Coming(st, u, h, wanted[h]) || es[0] == Forwarded(u, wanted[h]) {
        ComingKept(st, es[0], u, wanted, h);
      }
      ComingKeptAlong(Next(st, es[0]), es[1..], u, wanted, h);
    }
  }

  /** Recovery.  What the center still knows of a proxy's nodes, if anything, came over the proxy's
      stream.  Once a relayed heartbeat of each has come in on that stream, in any order, any number
      of times, however long it takes and mixed with anything else that does not concern those
      hosts, and the handler is idle again, the center has a record of every one of them, routed to
      that stream and carrying the path that was relayed. */
  lemma Recovery(st: State, es: seq<Event>, u: nat, wanted: map<Host, Request>)
    requires Idle(st, u) && Named(wanted)
    requires forall h | h in wanted && h in st.table :: RoutedOver(st.table, h, u, wanted[h])
    requires Run(st, es) && AllUndisturbed(st, es, u, wanted.Keys) && forall e | e in es :: Forwards(e, u, wanted)
    requires forall h | h in wanted :: Forwarded(u, wanted[h]) in es
    requires Idle(After(st, es), u)
    ensures forall h | h in wanted :: RoutedOver(After(st, es).table, h, u, wanted[h])
  {
    SettlingKeptAlong(st, es, u, wanted);
    forall h | h in wanted ensures RoutedOver(After(st, es).table, h, u, wanted[h]) {
      ComingKeptAlong(st, es, u, wanted, h);
    }
  }

  // ----- online again -----

  /** Every check comes at most one timeout after `since`. */
  ghost predicate ChecksWithin(st: State, es: seq<Event>, since: int)
    requires Run(st, es)
    decreases |es|
  {
    || es == []
    || ((es[0].Check? ==> st.now <= since + st.timeout) && ChecksWithin(Next(st, es[0]), es[1..], since))
  }

  /** `h` has a fresh record, or its handler is about to refresh the one it has or to make one. */
  predicate Fresh(st: State, u: nat, h: Host, r: Request, since: int) {
    && st.now >= since && In(st, u, Reading)
    && (|| (h in st.table && st.table[h].online && st.table[h].lastHeartbeat >= since)
        || (h in st.table && st.handlers[u].doing == Refreshing(h))
        || st.handlers[u].doing == Stamping(r)
        || (st.handlers[u].doing.Enrolling? && st.handlers[u].doing.req == r && st.handlers[u].doing.at >= since))
    && (st.handlers[u].doing.Enrolling? && st.handlers[u].doing.req.host == h ==> st.handlers[u].doing.at >= since)
  }

  lemma FreshKept(st: State, e: Event, u: nat, wanted: map<Host, Request>, h: Host, since: int)
    requires h in wanted && wanted[h].host == h && Fresh(st, u, h, wanted[h], since)
    requires h in st.table ==> st.table[h].route == u
    requires Can(st, e) && Undisturbed(st, e, u, wanted.Keys)
    requires e.Check? ==> st.now <= since + st.timeout
    ensures Fresh(Next(st, e), u, h, wanted[h], since)
  {
  }

  lemma {:induction false} FreshKeptAlong(st: State, es: seq<Event>, u: nat, wanted: map<Host, Request>, h: Host,
                                          since: int)
    requires Settling(st, u, wanted) && h in wanted && Fresh(st, u, h, wanted[h], since)
    requires Run(st, es) && AllUndisturbed(st, es, u, wanted.Keys) && forall e | e in es :: Forwards(e, u, wanted)
    requires ChecksWithin(st, es, since)
    ensures Fresh(After(st, es), u, h, wanted[h], since)
    decreases |es|
  {
    if es != [] {
      assert es[0] in es;
      SettlingKept(st, es[0], u, wanted);
      FreshKept(st, es[0], u, wanted, h, since);
      FreshKeptAlong(Next(st, es[0]), es[1..], u, wanted, h, since);
    }
  }

  /** A node is online from its relayed heartbeat on for as long as every check comes at most one
      timeout after that heartbeat, whatever happened before, and whatever happens to other nodes. */
  lemma OnlineSinceHeartbeat(st: State, es: seq<Event>, u: nat, wanted: map<Host, Request>, h: Host)
    requires Settling(st, u, wanted) && h in wanted && Can(st, Forwarded(u, wanted[h]))
    requires Run(Next(st, Forwarded(u, wanted[h])), es)
    requires AllUndisturbed(Next(st, Forwarded(u, wanted[h])), es, u, wanted.Keys)
    requires forall e | e in es :: Forwards(e, u, wanted)
    requires ChecksWithin(Next(st, Forwarded(u, wanted[h])), es, st.now)
    requires Idle(After(Next(st, Forwarded(u, wanted[h])), es), u)
    ensures var end := After(Next(st, Forwarded(u, wanted[h])), es);
            RoutedOver(end.table, h, u, wanted[h]) && end.table[h].online && end.table[h].lastHeartbeat >= st.now
  {
    var e := Forwarded(u, wanted[h]);
    SettlingKept(st, e, u, wanted);
    SettlingKeptAlong(Next(st, e), es, u, wanted);
    FreshKeptAlong(Next(st, e), es, u, wanted, h, st.now);
  }

  /** The same in the course of a recovery: `before` is any run from a center that knows of the wanted
      hosts nothing but what came over the stream, then a relayed heartbeat of `h` comes in, and
      `rest` is any run in which every check comes at most one timeout after that heartbeat. */
  lemma RecoveredNodeIsOnline(st: State, before: seq<Event>, rest: seq<Event>, u: nat, wanted: map<Host, Request>,
                              h: Host)
    requires Idle(st, u) && Named(wanted) && h in wanted
    requires forall k | k in wanted && k in st.table :: RoutedOver(st.table, k, u, wanted[k])
    requires Run(st, before) && AllUndisturbed(st, before, u, wanted.Keys)
    requires forall e | e in before + rest :: Forwards(e, u, wanted)
    requires Can(After(st, before), Forwarded(u, wanted[h]))
    requires var heard := Next(After(st, before), Forwarded(u, wanted[h]));
             && Run(heard, rest) && AllUndisturbed(heard, rest, u, wanted.Keys)
             && ChecksWithin(heard, rest, heard.now) && Idle(After(heard, rest), u)
    ensures var end := After(Next(After(st, before), Forwarded(u, wanted[h])), rest);
            RoutedOver(end.table, h, u, wanted[h]) && end.table[h].online
  {
    assert forall e | e in before :: e in before + rest;
    assert forall e | e in rest :: e in before + rest;
    SettlingKeptAlong(st, before, u, wanted);
    OnlineSinceHeartbeat(After(st, before), rest, u, wanted, h);
  }

  // ----- the proxy and the center together -----

  /** The message an agent registers with, as the proxy relays it. */
  function Via(proxyHost: Host, r: Request): Request {
    Request(r.host, r.nodeType, [proxyHost] + r.path)
  }

  /** Whatever connects to the proxy under the name of an agent says what the agent says. */
  predicate Registers(e: Event, agents: map<Host, Request>) {
    e.Open? && e.req.host in agents ==> e.req == agents[e.req.host]
  }

  predicate AgentsOnly(st: State, agents: map<Host, Request>) {
    forall s | 0 <= s < |st.handlers| && st.handlers[s].req.host in agents ::
      st.handlers[s].req == agents[st.handlers[s].req.host]
  }

  lemma {:induction false} AgentsOnlyAlong(st: State, es: seq<Event>, agents: map<Host, Request>)
    requires AgentsOnly(st, agents) && Run(st, es) && forall e | e in es :: Registers(e, agents)
    ensures AgentsOnly(After(st, es), agents)
    decreases |es|
  {
    if es != [] {
      assert es[0] in es;
      AgentsOnlyAlong(Next(st, es[0]), es[1..], agents);
    }
  }

  /** `r` is what the proxy relays for some heartbeat at some moment of its run. */
  ghost predicate IsRelayed(proxy: State, pes: seq<Event>, proxyHost: Host, r: Request) {
    exists k, s :: RelayedAt(proxy, pes, proxyHost, r, k, s)
  }

  ghost predicate RelayedAt(proxy: State, pes: seq<Event>, proxyHost: Host, r: Request, k: nat, s: nat) {
    && k <= |pes| && Run(proxy, pes[..k]) && s < |After(proxy, pes[..k]).handlers|
    && Relayed(proxyHost, After(proxy, pes[..k]), s) == Some(r)
  }

  lemma RelayedIsVia(proxy: State, pes: seq<Event>, proxyHost: Host, agents: map<Host, Request>, r: Request)
    requires Started(proxy) && forall e | e in pes :: ProxyStep(e) && Registers(e, agents)
    requires IsRelayed(proxy, pes, proxyHost, r) && r.host in agents
    ensures r == Via(proxyHost, agents[r.host])
  {
    var k: nat, s: nat :| RelayedAt(proxy, pes, proxyHost, r, k, s);
    assert forall e | e in pes[..k] :: e in pes;
    RelayTellsTheNodesPath(proxy, pes[..k], proxyHost, s);
    AgentsOnlyAlong(proxy, pes[..k], agents);
  }

  /** The proxy and the center together.  If what comes in on the proxy's stream for its agents is
      what the proxy relays of their heartbeats in any run of its own, then once a heartbeat of every
      agent has come in, the center reaches every agent over that stream, with the proxy's name
      in front of the path the agent registered with at the proxy. */
  lemma RecoveryThroughProxy(proxy: State, pes: seq<Event>, proxyHost: Host, agents: map<Host, Request>,
                             st: State, es: seq<Event>, u: nat)
    requires Started(proxy) && Run(proxy, pes)
    requires Named(agents) && forall e | e in pes :: ProxyStep(e) && Registers(e, agents)
    requires Idle(st, u) && forall h | h in agents :: h !in st.table
    requires Run(st, es) && AllUndisturbed(st, es, u, agents.Keys) && Idle(After(st, es), u)
    requires forall e | e in es :: e.Forwarded? && e.s == u && e.req.host in agents ==> IsRelayed(proxy, pes, proxyHost, e.req)
    requires forall h | h in agents :: exists e :: e in es && e.Forwarded? && e.s == u && e.req.host == h
    ensures forall h | h in agents ::
              var t := After(st, es).table;
              && h in t && t[h].route == u
              && t[h].path == [proxyHost] + agents[h].path && t[h].nodeType == agents[h].nodeType
  {
    var wanted := map h | h in agents :: Via(proxyHost, agents[h]);
    assert wanted.Keys == agents.Keys;
    forall e | e in es ensures Forwards(e, u, wanted) {
      if e.Forwarded? && e.s == u && e.req.host in agents {
        RelayedIsVia(proxy, pes, proxyHost, agents, e.req);
      }
    }
    forall h | h in wanted ensures Forwarded(u, wanted[h]) in es {
      var e :| e in es && e.Forwarded? && e.s == u && e.req.host == h;
      assert Forwards(e, u, wanted);
      assert e == Forwarded(u, wanted[h]);
    }
    Recovery(st, es, u, wanted);
    forall h | h in agents
      ensures var t := After(st, es).table;
              && h in t && t[h].route == u
              && t[h].path == [proxyHost] + agents[h].path && t[h].nodeType == agents[h].nodeType
    {
      assert RoutedOver(After(st, es).table, h, u, wanted[h]);
    }
  }

  // ----- afterwards -----

  /** A further relayed heartbeat of a recovered node finds its host known, so the record keeps its
      registration time, route and path, and is online with a heartbeat of now. */
  lemma FurtherHeartbeat(st: State, u: nat, r: Request, between: seq<Event>)
    requires Ownership(st) && Idle(st, u) && r.host in st.table && st.table[r.host].route == u
    requires forall e | e in between :: OfOthers(e, u)
    requires Run(st, [Forwarded(u, r)] + between)
    requires AllSpare(st, [Forwarded(u, r)] + between, u, r.host)
    ensures var waiting := After(st, [Forwarded(u, r)] + between);
            && Can(waiting, Refresh(u))
            && var end := Next(waiting, Refresh(u));
               && Idle(end, u)
               && r.host in end.table && SamePlace(end.table[r.host], st.table[r.host])
               && end.table[r.host].online && end.table[r.host].lastHeartbeat == end.now
  {
    var es := [Forwarded(u, r)] + between;
    assert es[0] == Forwarded(u, r) && es[1..] == between;
    OthersLeaveHandler(Next(st, es[0]), between, u);
    RecordStaysPut(st, es, r.host);
  }
}
