/** One `Connect` call of the center that nobody interferes with. */
module TunnelService {
  import opened Tunnel
  import opened RegistryTable
  import opened NodeRegistry
  import opened Connections

  /** What can come in on a stream, with the time at which it is handled.  Replies to tool requests
      go to the router and leave the registry alone. */
  datatype Incoming =
    | Heartbeat(at: int)
    | Forward(req: Request, at: int, persisted: bool)
    | ToolReply

  /** The table after one message has been handled: a heartbeat is for the connection's own host, a
      forwarded registration of a known host is a heartbeat of that host, and one of an unknown host
      enters it unless it cannot be persisted. */
  function Heard(t: Table, s: nat, own: Host, m: Incoming): Table {
    match m
    case Heartbeat(at) => Refreshed(t, own, at)
    case Forward(req, at, persisted) =>
      if req.host in t then Refreshed(t, req.host, at)
      else if persisted then Registered(t, Placed(req, at, s))
      else t
    case ToolReply => t
  }

  function HeardAll(t: Table, s: nat, own: Host, inbox: seq<Incoming>): Table {
    if inbox == [] then t else Heard(HeardAll(t, s, own, inbox[..|inbox| - 1]), s, own, inbox[|inbox| - 1])
  }

  // ----- what a connection's messages come to -----

  /** The message is a heartbeat of `h` or a registration for it. */
  predicate Names(m: Incoming, own: Host, h: Host) {
    match m
    case Heartbeat(_) => h == own
    case Forward(req, _, _) => h == req.host
    case ToolReply => false
  }

  /** Message `i` is the last that names `h`. */
  predicate IsLast(inbox: seq<Incoming>, own: Host, h: Host, i: nat) {
    i < |inbox| && Names(inbox[i], own, h) && forall j | i < j < |inbox| :: !Names(inbox[j], own, h)
  }

  predicate Enrolls(m: Incoming, h: Host) {
    m.Forward? && m.req.host == h && m.persisted
  }

  /** Message `i` is the first registration of `h` that can be persisted. */
  predicate IsFirst(inbox: seq<Incoming>, h: Host, i: nat) {
    i < |inbox| && Enrolls(inbox[i], h) && forall j | 0 <= j < i :: !Enrolls(inbox[j], h)
  }

  lemma {:induction false} HeardAppend(t: Table, s: nat, own: Host, a: seq<Incoming>, b: seq<Incoming>)
    ensures HeardAll(t, s, own, a + b) == HeardAll(HeardAll(t, s, own, a), s, own, b)
    decreases |b|
  {
    if b == [] {
      assert a + b == a;
    } else {
      HeardAppend(t, s, own, a, b[..|b| - 1]);
      assert (a + b)[..|a + b| - 1] == a + b[..|b| - 1];
    }
  }

  /** The table after the first `i` messages, the next one, and the rest. */
  lemma HeardAround(t: Table, s: nat, own: Host, inbox: seq<Incoming>, i: nat)
    requires i < |inbox|
    ensures HeardAll(t, s, own, inbox)
            == HeardAll(Heard(HeardAll(t, s, own, inbox[..i]), s, own, inbox[i]), s, own, inbox[i + 1..])
  {
    assert inbox[..i + 1][..i] == inbox[..i];
    assert inbox == inbox[..i + 1] + inbox[i + 1..];
    HeardAppend(t, s, own, inbox[..i + 1], inbox[i + 1..]);
  }

  lemma {:induction false} KnownKeepsPlace(t: Table, s: nat, own: Host, inbox: seq<Incoming>, h: Host)
    requires h in t
    ensures h in HeardAll(t, s, own, inbox) && SamePlace(HeardAll(t, s, own, inbox)[h], t[h])
  {
    if inbox != [] {
      KnownKeepsPlace(t, s, own, inbox[..|inbox| - 1], h);
    }
  }

  /** A known host no message names keeps its record as it is. */
  lemma {:induction false} UnnamedHostIsLeftAlone(t: Table, s: nat, own: Host, inbox: seq<Incoming>, h: Host)
    requires h in t && forall k | 0 <= k < |inbox| :: !Names(inbox[k], own, h)
    ensures h in HeardAll(t, s, own, inbox) && HeardAll(t, s, own, inbox)[h] == t[h]
  {
    if inbox != [] {
      UnnamedHostIsLeftAlone(t, s, own, inbox[..|inbox| - 1], h);
    }
  }

  /** A known host keeps its place, and is online with the time of the last message that names it:
      the connection's own host with its last heartbeat. */
  lemma KnownHostIsRefreshed(t: Table, s: nat, own: Host, inbox: seq<Incoming>, h: Host, i: nat)
    requires h in t && IsLast(inbox, own, h, i)
    ensures var t' := HeardAll(t, s, own, inbox);
            h in t' && t'[h] == t[h].(lastHeartbeat := inbox[i].at, online := true)
  {
    HeardAround(t, s, own, inbox, i);
    KnownKeepsPlace(t, s, own, inbox[..i], h);
    UnnamedHostIsLeftAlone(Heard(HeardAll(t, s, own, inbox[..i]), s, own, inbox[i]), s, own, inbox[i + 1..], h);
  }

  /** A host that is not known is entered exactly if a registration forwarded for it can be
      persisted. */
  lemma {:induction false} UnknownUntilPersisted(t: Table, s: nat, own: Host, inbox: seq<Incoming>, h: Host)
    requires h !in t
    ensures h in HeardAll(t, s, own, inbox) <==> exists m :: m in inbox && Enrolls(m, h)
  {
    if inbox != [] {
      var init, last := inbox[..|inbox| - 1], inbox[|inbox| - 1];
      UnknownUntilPersisted(t, s, own, init, h);
      assert inbox == init + [last];
      if Enrolls(last, h) {
        assert last in inbox;
      }
    }
  }

  /** Its place and its registration time are those of the first such registration, on this stream, and
      its heartbeat is the last message that names it. */
  lemma UnknownHostIsEntered(t: Table, s: nat, own: Host, inbox: seq<Incoming>, h: Host, i: nat, k: nat)
    requires h !in t && IsFirst(inbox, h, i) && IsLast(inbox, own, h, k)
    ensures var t' := HeardAll(t, s, own, inbox);
            h in t' && t'[h] == Record(h, inbox[i].req.nodeType, inbox[i].req.path,
                                       inbox[i].at, inbox[k].at, true, s)
  {
    var before, rest := HeardAll(t, s, own, inbox[..i]), inbox[i + 1..];
    UnknownUntilPersisted(t, s, own, inbox[..i], h);
    assert forall m | m in inbox[..i] :: !Enrolls(m, h);
    HeardAround(t, s, own, inbox, i);
    var entered := Heard(before, s, own, inbox[i]);
    assert entered[h] == Placed(inbox[i].req, inbox[i].at, s);
    assert Names(inbox[i], own, h) && i <= k;
    if k > i {
      assert rest[k - i - 1] == inbox[k];
      assert IsLast(rest, own, h, k - i - 1);
      KnownHostIsRefreshed(entered, s, own, rest, h, k - i - 1);
    } else {
      UnnamedHostIsLeftAlone(entered, s, own, rest, h);
    }
  }

  /** The registry while the connection of `own` on stream `s` is up, compared with `before`. */
  predicate Between(t: Table, before: Table, own: Host, s: nat) {
    && own in t && t[own].route == s
    && (forall h | h in before && h != own :: h in t && SamePlace(t[h], before[h]))
    && (forall h | h in t :: t[h].route == s || (h in before && h != own))
  }

  lemma BetweenKept(t: Table, before: Table, own: Host, s: nat, m: Incoming)
    requires Between(t, before, own, s)
    ensures Between(Heard(t, s, own, m), before, own, s)
  {
  }

  lemma {:induction false} BetweenKeptAlong(t: Table, before: Table, own: Host, s: nat, inbox: seq<Incoming>)
    requires Between(t, before, own, s)
    ensures Between(HeardAll(t, s, own, inbox), before, own, s)
  {
    if inbox != [] {
      BetweenKeptAlong(t, before, own, s, inbox[..|inbox| - 1]);
      BetweenKept(HeardAll(t, s, own, inbox[..|inbox| - 1]), before, own, s, inbox[|inbox| - 1]);
    }
  }

  /** The table after a whole connection on stream `s`. */
  function Connected(t: Table, s: nat, req: Request, at: int, persisted: bool, acked: bool,
                     inbox: seq<Incoming>): Table {
    if !persisted then t
    else
      var entered := Registered(t, Placed(req, at, s));
      WithoutRoute(if acked then HeardAll(entered, s, req.host, inbox) else entered, s)
  }

  class Service {
    const reg: Registry

    constructor (reg: Registry)
      ensures this.reg == reg
    {
      this.reg := reg;
    }

    /** The stream's records are gone when it ends, and the connection leaves every other host but
        its own as it found it, except for the heartbeats it passed on. */
    method Connect(s: nat, req: Request, at: int, accepted: bool, persisted: bool, acked: bool,
                   inbox: seq<Incoming>)
      requires reg.Valid() && forall h | h in reg.Contents :: reg.Contents[h].route != s
      modifies reg, reg.records.Values
      ensures reg.Valid()
      ensures reg.Contents == if accepted then Connected(old(reg.Contents), s, req, at, persisted, acked, inbox)
                              else old(reg.Contents)
      ensures accepted && persisted ==>
                forall h :: h in reg.Contents <==> h in old(reg.Contents) && h != req.host
      ensures forall h | h in reg.Contents :: SamePlace(reg.Contents[h], old(reg.Contents)[h])
    {
      if !accepted || !persisted {
        return;
      }
      BetweenKeptAlong(Registered(reg.Contents, Placed(req, at, s)), reg.Contents, req.host, s, inbox);
      var rec := new AgentRecord(Placed(req, at, s));
      reg.Register(rec);
      if acked {
        ReadLoop(s, req.host, inbox);
      }
      var removed := reg.UnregisterByStream(s);
    }

    /** Every record afterwards is what the messages come to (`KnownHostIsRefreshed`,
        `UnknownHostIsEntered`); the connection's own has the time of its last heartbeat. */
    method ReadLoop(s: nat, own: Host, inbox: seq<Incoming>)
      requires reg.Valid()
      modifies reg, reg.records.Values
      ensures reg.Valid() && reg.Contents == HeardAll(old(reg.Contents), s, own, inbox)
      ensures forall i: nat | own in old(reg.Contents) && IsLast(inbox, own, own, i) ::
                own in reg.Contents && reg.Contents[own].online && reg.Contents[own].lastHeartbeat == inbox[i].at
    {
      for i := 0 to |inbox|
        invariant reg.Valid() && reg.Contents == HeardAll(old(reg.Contents), s, own, inbox[..i])
        invariant forall r | r in reg.records.Values :: r in old(reg.records.Values) || fresh(r)
      {
        assert inbox[..i + 1][..i] == inbox[..i];
        match inbox[i]
        case Heartbeat(at) => reg.UpdateHeartbeat(own, at);
        case Forward(req, at, persisted) => Forwarded(s, own, req, at, persisted);
        case ToolReply =>
      }
      assert inbox[..|inbox|] == inbox;
      forall i: nat | own in old(reg.Contents) && IsLast(inbox, own, own, i)
        ensures own in reg.Contents && reg.Contents[own].online && reg.Contents[own].lastHeartbeat == inbox[i].at
      {
        KnownHostIsRefreshed(old(reg.Contents), s, own, inbox, own, i);
      }
    }

    method Forwarded(s: nat, own: Host, req: Request, at: int, persisted: bool)
      requires reg.Valid()
      modifies reg, reg.records.Values
      ensures reg.Valid()
      ensures reg.Contents == Heard(old(reg.Contents), s, own, Forward(req, at, persisted))
      ensures forall r | r in reg.records.Values :: r in old(reg.records.Values) || fresh(r)
    {
      var known := reg.Lookup(req.host);
      if known != null {
        reg.UpdateHeartbeat(req.host, at);
      } else {
        var rec := new AgentRecord(Placed(req, at, s));
        reg.Register(rec);
        if !persisted {
          assert Unregistered(reg.Contents, req.host) == old(reg.Contents);
          reg.Unregister(req.host);
        }
      }
    }
  }
}
