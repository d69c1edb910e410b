/** A connection that nobody interferes with is a run of one handler's steps.  So what module
    TunnelService says of one connection by itself is among what module Connections says of any
    number of them interleaved, and every step of a handler can happen. */
module ConnectionRuns {
  import opened Tunnel
  import opened RegistryTable
  import opened Connections
  import opened ConnectionTheorems
  import opened TunnelService

  /** The steps of the handler of `s` for one message, when the clock has reached its time. */
  function StepsFor(t: Table, s: nat, m: Incoming): seq<Event> {
    match m
    case Heartbeat(_) => [Beat(s)]
    case Forward(req, _, persisted) =>
      if req.host in t then [Forwarded(s, req), Refresh(s)]
      else [Forwarded(s, req), Stamp(s), Enroll(s), if persisted then Persisted(s) else PersistFailed(s)]
    case ToolReply => []
  }

  lemma LookupIsPlayed(st: State, s: nat, req: Request)
    requires Idle(st, s) && req.host !in st.table
    ensures Run(st, [Forwarded(s, req), Stamp(s)])
    ensures var end := After(st, [Forwarded(s, req), Stamp(s)]);
            && In(end, s, Reading) && end.handlers[s].doing == Enrolling(req, st.now)
            && end.handlers[s].req == st.handlers[s].req && end.table == st.table
            && end.durable == st.durable && end.now == st.now
  {
    TwoSteps(st, Forwarded(s, req), Stamp(s));
  }

  lemma PersistIsPlayed(st: State, s: nat, req: Request, at: int, persisted: bool)
    requires In(st, s, Reading) && st.handlers[s].doing == Enrolling(req, at)
    requires req.host !in st.table && (st.durable || persisted)
    ensures var es := [Enroll(s), if persisted then Persisted(s) else PersistFailed(s)];
            && Run(st, es)
            && Idle(After(st, es), s) && After(st, es).handlers[s].req == st.handlers[s].req
            && After(st, es).now == st.now && After(st, es).durable == st.durable
            && After(st, es).table == if persisted then Registered(st.table, Placed(req, at, s)) else st.table
  {
    TwoSteps(st, Enroll(s), if persisted then Persisted(s) else PersistFailed(s));
    assert Registered(st.table, Placed(req, at, s)) - {req.host} == st.table;
  }

  lemma EnrollIsPlayed(st: State, s: nat, req: Request, persisted: bool)
    requires Idle(st, s) && (st.durable || persisted) && req.host !in st.table
    ensures var es := StepsFor(st.table, s, Forward(req, st.now, persisted));
            && Run(st, es)
            && Idle(After(st, es), s) && After(st, es).handlers[s].req == st.handlers[s].req
            && After(st, es).now == st.now && After(st, es).durable == st.durable
            && After(st, es).table == if persisted then Registered(st.table, Placed(req, st.now, s)) else st.table
  {
    hide Run, After, Can, Next;
    var last := if persisted then Persisted(s) else PersistFailed(s);
    LookupIsPlayed(st, s, req);
    PersistIsPlayed(After(st, [Forwarded(s, req), Stamp(s)]), s, req, st.now, persisted);
    Join(st, [Forwarded(s, req), Stamp(s)], [Enroll(s), last]);
    assert [Forwarded(s, req), Stamp(s)] + [Enroll(s), last] == [Forwarded(s, req), Stamp(s), Enroll(s), last];
  }

  /** Handling one message is a run of the handler's steps: from every state of the center with an idle
      handler whose host is `own`, and with the clock at the message's time, these steps are
      possible, and they end with the handler idle again and with the table `Heard` says. */
  lemma HeardIsPlayed(st: State, s: nat, m: Incoming)
    requires Idle(st, s) && (m.ToolReply? || m.at == st.now)
    requires m.Forward? && !m.persisted ==> st.durable
    ensures Run(st, StepsFor(st.table, s, m))
    ensures var end := After(st, StepsFor(st.table, s, m));
            && Idle(end, s) && end.handlers[s].req == st.handlers[s].req
            && end.now == st.now && end.durable == st.durable
            && end.table == Heard(st.table, s, st.handlers[s].req.host, m)
  {
    match m
    case Heartbeat(_) => OneStep(st, Beat(s));
    case Forward(req, _, persisted) =>
      if req.host in st.table {
        TwoSteps(st, Forwarded(s, req), Refresh(s));
      } else {
        EnrollIsPlayed(st, s, req, persisted);
      }
    case ToolReply =>
  }

  /** The messages come in after `now`, one after another. */
  predicate InTimeOrder(inbox: seq<Incoming>, now: int) {
    inbox == [] || (now <= TimeOf(inbox[0], now) && InTimeOrder(inbox[1..], TimeOf(inbox[0], now)))
  }

  function TimeOf(m: Incoming, now: int): int {
    if m.ToolReply? then now else m.at
  }

  /** Nothing fails to be persisted. */
  predicate AllPersisted(inbox: seq<Incoming>) {
    forall i | 0 <= i < |inbox| && inbox[i].Forward? :: inbox[i].persisted
  }

  lemma {:induction false} InboxIsPlayed(st: State, s: nat, inbox: seq<Incoming>) returns (es: seq<Event>)
    requires Idle(st, s) && (st.durable || AllPersisted(inbox)) && InTimeOrder(inbox, st.now)
    ensures Run(st, es) && Idle(After(st, es), s)
    ensures After(st, es).table == HeardAll(st.table, s, st.handlers[s].req.host, inbox)
    decreases |inbox|
  {
    if inbox == [] {
      es := [];
    } else {
      hide Can, Next, Idle, Heard;
      var m, tick := inbox[0], Tick(TimeOf(inbox[0], st.now) - st.now);
      var steps := StepsFor(st.table, s, m);
      ClockTicks(st, s, tick);
      HeardIsPlayed(Next(st, tick), s, m);
      var rest := InboxIsPlayed(After(Next(st, tick), steps), s, inbox[1..]);
      OneStep(st, tick);
      Join(Next(st, tick), steps, rest);
      Join(st, [tick], steps + rest);
      es := [tick] + (steps + rest);
      HeardAppend(st.table, s, st.handlers[s].req.host, [m], inbox[1..]);
      assert inbox == [m] + inbox[1..];
      HeardFirst(st.table, s, st.handlers[s].req.host, m);
    }
  }

  lemma HeardFirst(t: Table, s: nat, own: Host, m: Incoming)
    ensures HeardAll(t, s, own, [m]) == Heard(t, s, own, m)
  {
    assert [m][..0] == [];
    assert HeardAll(t, s, own, []) == t;
  }

  lemma ClockTicks(st: State, s: nat, tick: Event)
    requires Idle(st, s) && tick.Tick?
    ensures Can(st, tick) && Idle(Next(st, tick), s)
    ensures Next(st, tick) == st.(now := st.now + tick.d)
  {
  }

  lemma Leaves(st: State, s: nat, e: Event)
    requires Can(st, e) && (e == Close(s) || e == AckFailed(s))
    ensures Run(st, [e]) && In(After(st, [e]), s, Finished)
    ensures After(st, [e]).table == WithoutRoute(st.table, s)
  {
    OneStep(st, e);
  }

  lemma Enters(st: State, req: Request)
    ensures var es, s := [Open(req), Enter(|st.handlers|)], |st.handlers|;
            && Run(st, es) && In(After(st, es), s, Entered) && After(st, es).handlers[s].req == req
            && After(st, es).table == Registered(st.table, Placed(req, st.now, s))
            && After(st, es).now == st.now && After(st, es).durable == st.durable
  {
    TwoSteps(st, Open(req), Enter(|st.handlers|));
  }

  lemma Reads(st: State, s: nat)
    requires In(st, s, Entered) && st.handlers[s].doing == Nothing
    ensures Run(st, [AckSent(s)]) && Idle(After(st, [AckSent(s)]), s)
    ensures After(st, [AckSent(s)]).handlers[s].req == st.handlers[s].req
    ensures After(st, [AckSent(s)]).table == st.table
    ensures After(st, [AckSent(s)]).now == st.now && After(st, [AckSent(s)]).durable == st.durable
  {
    OneStep(st, AckSent(s));
  }

  lemma EntersIdle(st: State, req: Request)
    requires Run(st, [Open(req), Enter(|st.handlers|)])
    requires |st.handlers| < |After(st, [Open(req), Enter(|st.handlers|)]).handlers|
    ensures After(st, [Open(req), Enter(|st.handlers|)]).handlers[|st.handlers|].doing == Nothing
  {
    TwoSteps(st, Open(req), Enter(|st.handlers|));
  }

  /** A whole connection is a run of one handler's steps, from every state of the center: rejected,
      not acknowledged, or read until it closes. */
  lemma ConnectIsPlayed(st: State, req: Request, persisted: bool, acked: bool, inbox: seq<Incoming>)
    returns (es: seq<Event>)
    requires (st.durable || (persisted && AllPersisted(inbox))) && InTimeOrder(inbox, st.now)
    ensures Run(st, es) && In(After(st, es), |st.handlers|, Finished)
    ensures After(st, es).table == Connected(st.table, |st.handlers|, req, st.now, persisted, acked, inbox)
  {
    var s := |st.handlers|;
    if !persisted {
      es := [Open(req), Reject(s)];
      TwoSteps(st, Open(req), Reject(s));
      return;
    }
    hide Run, After, Can, Next;
    var enter := [Open(req), Enter(s)];
    Enters(st, req);
    EntersIdle(st, req);
    var entered := After(st, enter);
    var rest: seq<Event>;
    if acked {
      Reads(entered, s);
      var reading := After(entered, [AckSent(s)]);
      var read := InboxIsPlayed(reading, s, inbox);
      CanLeave(After(reading, read), s, Close(s));
      Leaves(After(reading, read), s, Close(s));
      Join(reading, read, [Close(s)]);
      Join(entered, [AckSent(s)], read + [Close(s)]);
      rest := [AckSent(s)] + (read + [Close(s)]);
    } else {
      CanLeave(entered, s, AckFailed(s));
      Leaves(entered, s, AckFailed(s));
      rest := [AckFailed(s)];
    }
    Join(st, enter, rest);
    es := enter + rest;
  }

  lemma CanLeave(st: State, s: nat, e: Event)
    requires (e == Close(s) && Idle(st, s)) || (e == AckFailed(s) && In(st, s, Entered))
    ensures Can(st, e)
  {
  }

  lemma OneStep(st: State, e: Event)
    requires Can(st, e)
    ensures Run(st, [e]) && After(st, [e]) == Next(st, e)
  {
    assert [e][1..] == [];
  }

  lemma TwoSteps(st: State, e: Event, f: Event)
    requires Can(st, e) && Can(Next(st, e), f)
    ensures Run(st, [e, f]) && After(st, [e, f]) == Next(Next(st, e), f)
  {
    OneStep(st, e);
    OneStep(Next(st, e), f);
    Join(st, [e], [f]);
    assert [e] + [f] == [e, f];
  }
}
