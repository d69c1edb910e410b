/** What a heartbeat does for a connected node, and what its absence does. */
module Heartbeats {
  import opened Tunnel
  import opened RegistryTable
  import opened Connections
  import opened ConnectionTheorems
  import opened SilentNodes

  /** A heartbeat on stream `s` makes the record of its host, if there is one, online with a heartbeat
      of now, and changes neither its place nor any other record. */
  lemma BeatRefreshes(st: State, s: nat)
    requires Can(st, Beat(s))
    ensures var h, t, t' := st.handlers[s].req.host, st.table, Next(st, Beat(s)).table;
            && t'.Keys == t.Keys
            && (forall k | k in t && k != h :: t'[k] == t[k])
            && (h in t ==> SamePlace(t'[h], t[h]) && t'[h].online && t'[h].lastHeartbeat == st.now)
  {
  }

  // ----- a node that beats -----

  /** Every check comes at most one timeout after the last heartbeat on `s`, or after `since` as long
      as there has been none. */
  ghost predicate BeatsInTime(st: State, es: seq<Event>, s: nat, since: int)
    requires Run(st, es)
    decreases |es|
  {
    || es == []
    || ((es[0].Check? ==> st.now <= since + st.timeout)
        && BeatsInTime(Next(st, es[0]), es[1..], s, if es[0] == Beat(s) then st.now else since))
  }

  /** The time of the last heartbeat on `s`, or `since` if there is none. */
  ghost function LastBeat(st: State, es: seq<Event>, s: nat, since: int): int
    requires Run(st, es)
    decreases |es|
  {
    if es == [] then since
    else LastBeat(Next(st, es[0]), es[1..], s, if es[0] == Beat(s) then st.now else since)
  }

  /** The handler of `s` is reading, owns the record of its host, and has kept it fresh. */
  predicate Alive(st: State, s: nat, since: int) {
    && In(st, s, Reading)
    && var h := st.handlers[s].req.host;
       && h in st.table && st.table[h].route == s
       && st.table[h].online && since <= st.table[h].lastHeartbeat && since <= st.now
  }

  lemma AliveKept(st: State, e: Event, s: nat, since: int)
    requires Alive(st, s, since) && Can(st, e) && Spares(st, e, s, st.handlers[s].req.host)
    requires e.Check? ==> st.now <= since + st.timeout
    ensures Next(st, e).handlers[s].req == st.handlers[s].req
    ensures Alive(Next(st, e), s, if e == Beat(s) then st.now else since)
  {
  }

  lemma {:induction false} AliveAlong(st: State, es: seq<Event>, s: nat, since: int)
    requires Alive(st, s, since) && Run(st, es)
    requires AllSpare(st, es, s, st.handlers[s].req.host) && BeatsInTime(st, es, s, since)
    ensures var end := After(st, es);
            Alive(end, s, LastBeat(st, es, s, since)) && end.handlers[s].req == st.handlers[s].req
    decreases |es|
  {
    if es != [] {
      AliveKept(st, es[0], s, since);
      AliveAlong(Next(st, es[0]), es[1..], s, if es[0] == Beat(s) then st.now else since);
    }
  }

  /** A connected node that owns its record and has beaten at most one timeout before every check is
      online, with a heartbeat no older than its last, whatever other handlers do; also if it was
      offline before the first of these heartbeats. */
  lemma BeatingNodeIsOnline(st: State, s: nat, es: seq<Event>)
    requires Can(st, Beat(s))
    requires var h := st.handlers[s].req.host; h in st.table && st.table[h].route == s
    requires Run(Next(st, Beat(s)), es)
    requires AllSpare(Next(st, Beat(s)), es, s, st.handlers[s].req.host)
    requires BeatsInTime(Next(st, Beat(s)), es, s, st.now)
    ensures var h, end := st.handlers[s].req.host, After(Next(st, Beat(s)), es);
            && h in end.table && end.table[h].route == s && end.table[h].online
            && end.table[h].lastHeartbeat >= LastBeat(Next(st, Beat(s)), es, s, st.now) >= st.now
  {
    BeatRefreshes(st, s);
    AliveAlong(Next(st, Beat(s)), es, s, st.now);
    LastBeatIsLater(Next(st, Beat(s)), es, s, st.now);
  }

  lemma {:induction false} LastBeatIsLater(st: State, es: seq<Event>, s: nat, since: int)
    requires Run(st, es) && since <= st.now
    ensures since <= LastBeat(st, es, s, since) <= After(st, es).now
    decreases |es|
  {
    if es != [] {
      LastBeatIsLater(Next(st, es[0]), es[1..], s, if es[0] == Beat(s) then st.now else since);
    }
  }

  // ----- a node that does not -----

  lemma SilenceKeepsHeartbeat(st: State, e: Event, h: Host)
    requires Can(st, e) && h in st.table && !Hears(st, e, h) && h in Next(st, e).table
    ensures SamePlace(Next(st, e).table[h], st.table[h])
    ensures Next(st, e).table[h].lastHeartbeat == st.table[h].lastHeartbeat
  {
  }

  /** The record of `h` is there in every state of the run. */
  ghost predicate Stays(st: State, es: seq<Event>, h: Host)
    requires Run(st, es)
    decreases |es|
  {
    h in st.table && (es == [] || Stays(Next(st, es[0]), es[1..], h))
  }

  lemma {:induction false} SilenceKeepsHeartbeatAlong(st: State, es: seq<Event>, h: Host)
    requires Run(st, es) && Stays(st, es, h) && Silent(st, es, h)
    ensures h in After(st, es).table
    ensures SamePlace(After(st, es).table[h], st.table[h])
    ensures After(st, es).table[h].lastHeartbeat == st.table[h].lastHeartbeat
    decreases |es|
  {
    if es != [] {
      SilenceKeepsHeartbeat(st, es[0], h);
      SilenceKeepsHeartbeatAlong(Next(st, es[0]), es[1..], h);
    }
  }

  /** How far the clock moves. */
  function Elapsed(es: seq<Event>): nat {
    if es == [] then 0 else (if es[0].Tick? then es[0].d else 0) + Elapsed(es[1..])
  }

  lemma {:induction false} ClockMoves(st: State, es: seq<Event>)
    requires Run(st, es)
    ensures After(st, es).now == st.now + Elapsed(es) && After(st, es).timeout == st.timeout
    decreases |es|
  {
    if es != [] {
      ClockMoves(Next(st, es[0]), es[1..]);
    }
  }

  /** A node whose record stays, but of which nothing is heard for longer than the timeout, is offline
      after the next check; the callback for it is made at that check exactly if no check has
      found it out before.  If it has been silent no longer than that, the check leaves it as it is. */
  lemma SilentNodeGoesOffline(st: State, es: seq<Event>, h: Host)
    requires Run(st, es) && Stays(st, es, h) && Silent(st, es, h)
    ensures var end := After(st, es);
            var silence := st.now + Elapsed(es) - st.table[h].lastHeartbeat;
            && h in end.table && h in Next(end, Check).table
            && (silence > st.timeout ==> !Next(end, Check).table[h].online)
            && (h in Called(end, Check) <==> silence > st.timeout && end.table[h].online)
            && (silence <= st.timeout ==> Next(end, Check).table[h] == end.table[h])
  {
    SilenceKeepsHeartbeatAlong(st, es, h);
    ClockMoves(st, es);
  }

  // ----- the times a registration leaves -----

  /** Stream `s` stays in phase `Opened`. */
  ghost predicate Waits(st: State, es: seq<Event>, s: nat)
    requires Run(st, es)
    decreases |es|
  {
    In(st, s, Opened) && (es == [] || Waits(Next(st, es[0]), es[1..], s))
  }

  lemma {:induction false} StampWaits(st: State, es: seq<Event>, s: nat)
    requires Run(st, es) && Waits(st, es, s)
    ensures In(After(st, es), s, Opened)
    ensures After(st, es).handlers[s].at == st.handlers[s].at && After(st, es).handlers[s].req == st.handlers[s].req
    decreases |es|
  {
    if es != [] {
      StampWaits(Next(st, es[0]), es[1..], s);
    }
  }

  /** A registration that comes in at some time bears that time, both as its registration time and as
      its first heartbeat, however long its persisting takes; and it keeps the registration time
      for as long as the record stays put. */
  lemma RegistrationTimeIsItsArrival(st: State, req: Request, wait: seq<Event>, es: seq<Event>)
    requires Ownership(st)
    requires Run(Next(st, Open(req)), wait) && Waits(Next(st, Open(req)), wait, |st.handlers|)
    requires var waited := After(Next(st, Open(req)), wait);
             && Can(waited, Enter(|st.handlers|)) && Run(Next(waited, Enter(|st.handlers|)), es)
             && AllSpare(Next(waited, Enter(|st.handlers|)), es, |st.handlers|, req.host)
    ensures var s := |st.handlers|;
            var entered := Next(After(Next(st, Open(req)), wait), Enter(s));
            && req.host in entered.table
            && entered.table[req.host] == Record(req.host, req.nodeType, req.path, st.now, st.now, true, s)
            && req.host in After(entered, es).table
            && var r := After(entered, es).table[req.host];
               r.registeredAt == st.now && r.route == s && r.path == req.path && r.nodeType == req.nodeType
  {
    var s := |st.handlers|;
    OwnershipKept(st, Open(req));
    OwnershipKeptAlong(Next(st, Open(req)), wait);
    StampWaits(Next(st, Open(req)), wait, s);
    var waited := After(Next(st, Open(req)), wait);
    OwnershipKept(waited, Enter(s));
    RecordStaysPut(Next(waited, Enter(s)), es, req.host);
  }

  /** A forwarded registration of an unknown host bears the time at which the center looked at the
      clock for it, whatever happens before it enters the registry. */
  lemma ForwardedRegistrationTime(st: State, s: nat, wait: seq<Event>)
    requires Can(st, Stamp(s)) && Run(Next(st, Stamp(s)), wait)
    requires forall e | e in wait :: OfOthers(e, s)
    ensures var req, waited := st.handlers[s].doing.req, After(Next(st, Stamp(s)), wait);
            && Can(waited, Enroll(s))
            && var t := Next(waited, Enroll(s)).table;
               req.host in t && t[req.host] == Record(req.host, req.nodeType, req.path, st.now, st.now, true, s)
  {
    OthersLeaveHandler(Next(st, Stamp(s)), wait, s);
  }
}
