/** The center's steps keep the invariant.

    Every event has a lemma `Keep...`, which takes the book before the step to the book after it.
    Its proof has two halves.  A lemma `...Step` shows that the step touches no more than it names;
    there the conjuncts of the invariant are hidden.  The rest is about what is touched: a call and
    a stream at most.

    A call begins unsent, and its request is on its way down once it has been sent.  A cancel is
    sent only by a call that gave up, so it cannot be on a stream already.  A reply that is loaded
    finds the slot of its own call, because the call's ID is in use by no other. */
module ProtocolCenterSteps {
  import opened Tunnel
  import opened RouterTable
  import opened RelayTable
  import opened Protocol
  import opened ProtocolInvariant
  import opened ProtocolFrames

  // ----- Begin -----

  lemma BeginFrame(st: State, b: Book, id: Id, host: Host, job: Job, route: nat)
    requires Inv(st, b) && RouteOk(st, host, route) && IdFree(st, id)
    ensures var st' := DoBegin(st, id, host, job, route);
            Frame(st, b, st') && Sizes(st', Book(b.loc + [Unsent], b.cancel + [NotSent])) && PendingOk(st')
  {
    hide StreamOk, CallOk, ProxyOk, AgentOk, TaskOk;
  }

  lemma BeginStep(st: State, b: Book, id: Id, host: Host, job: Job, route: nat)
    requires Inv(st, b) && RouteOk(st, host, route) && IdFree(st, id)
    ensures Step(st, b, DoBegin(st, id, host, job, route), Book(b.loc + [Unsent], b.cancel + [NotSent]),
                 Touched(-1, -1, -1, -1, -1, -1))
  {
    hide StreamOk, CallOk, ProxyOk, AgentOk, TaskOk, Frame, PendingOk;
    BeginFrame(st, b, id, host, job, route);
  }

  lemma KeepBegin(st: State, b: Book, id: Id, host: Host, job: Job, route: nat) returns (b': Book)
    requires Inv(st, b) && RouteOk(st, host, route) && IdFree(st, id)
    ensures Inv(DoBegin(st, id, host, job, route), b')
  {
    hide StreamOk, ProxyOk, AgentOk, Step;
    var st' := DoBegin(st, id, host, job, route);
    var c := |st.calls|;
    b' := Book(b.loc + [Unsent], b.cancel + [NotSent]);
    BeginStep(st, b, id, host, job, route);
    assert NoTask(st', c) by {
      forall t | 0 <= t < |st.tasks| ensures st.tasks[t].origin != c {
        assert TaskOk(st, b, t);
      }
    }
    assert CallOk(st', b', c);
    Assemble(st, b, st', b', Touched(-1, -1, -1, -1, -1, -1));
  }

  // ----- SendRequest -----

  lemma SendRequestOkStep(st: State, b: Book, c: nat)
    requires Inv(st, b) && CallIn(st, c, Stored) && MaySend(st, st.calls[c].route, true)
    requires c < |b.loc| && b.loc[c] == Unsent
    ensures var r := st.calls[c].route;
            Step(st, b, DoSendRequest(st, c, true), Move(b, c, OnDown(r)),
                 Touched(r, -1, c, -1, -1, -1))
  {
    hide StreamOk, CallOk, ProxyOk, AgentOk, TaskOk;
  }

  lemma SendRequestFailedStep(st: State, b: Book, c: nat)
    requires Inv(st, b) && CallIn(st, c, Stored) && MaySend(st, st.calls[c].route, false)
    requires c < |b.loc| && b.loc[c] == Unsent
    ensures Step(st, b, DoSendRequest(st, c, false), b,
                 Touched(-1, -1, c, -1, -1, -1))
  {
    hide StreamOk, CallOk, ProxyOk, AgentOk, TaskOk;
  }

  lemma SendRequestStep(st: State, b: Book, c: nat, ok: bool)
    requires Inv(st, b) && CallIn(st, c, Stored) && MaySend(st, st.calls[c].route, ok)
    requires c < |b.loc| && b.loc[c] == Unsent
    ensures var r := st.calls[c].route;
            Step(st, b, DoSendRequest(st, c, ok), if ok then Move(b, c, OnDown(r)) else b,
                 Touched(if ok then r else -1, -1, c, -1, -1, -1))
  {
    hide Inv, Step, CallIn, MaySend;
    if ok {
      SendRequestOkStep(st, b, c);
    } else {
      SendRequestFailedStep(st, b, c);
    }
  }

  lemma KeepSendRequest(st: State, b: Book, c: nat, ok: bool) returns (b': Book)
    requires Inv(st, b) && CallIn(st, c, Stored) && MaySend(st, st.calls[c].route, ok)
    ensures Inv(DoSendRequest(st, c, ok), b')
  {
    hide StreamOk, ProxyOk, AgentOk, TaskOk, StreamsSame, CallsSame, MessagesStay, ProxiesSame, TasksSame;
    var st' := DoSendRequest(st, c, ok);
    var r := st.calls[c].route;
    b' := if ok then Move(b, c, OnDown(r)) else b;
    assert CallOk(st, b, c);
    SendRequestStep(st, b, c, ok);
    RoutesKept(st, b, st');
    assert CallOk(st', b', c);
    if ok {
      PushDownKept(st, b, st', b', r, Request(st, c));
    }
    Assemble(st, b, st', b', Touched(if ok then r else -1, -1, c, -1, -1, -1));
  }

  // ----- Expire -----

  lemma ExpireStep(st: State, b: Book, c: nat, canceled: bool)
    requires Inv(st, b) && CallIn(st, c, Waiting)
    ensures Step(st, b, DoExpire(st, c, canceled), b, Touched(-1, -1, c, -1, -1, -1))
  {
    hide StreamOk, CallOk, ProxyOk, AgentOk, TaskOk;
  }

  lemma KeepExpire(st: State, b: Book, c: nat, canceled: bool) returns (b': Book)
    requires Inv(st, b) && CallIn(st, c, Waiting)
    ensures Inv(DoExpire(st, c, canceled), b')
  {
    hide StreamOk, ProxyOk, AgentOk, TaskOk, Step;
    b' := b;
    var st' := DoExpire(st, c, canceled);
    ExpireStep(st, b, c, canceled);
    assert CallOk(st, b, c);
    assert CallOk(st', b', c);
    Assemble(st, b, st', b', Touched(-1, -1, c, -1, -1, -1));
  }

  // ----- SendCancel -----

  lemma SendCancelOkStep(st: State, b: Book, c: nat)
    requires Inv(st, b) && CallIn(st, c, Expired) && MaySend(st, st.calls[c].route, true)
    requires c < |b.cancel| && b.cancel[c] == NotSent
    ensures var r := st.calls[c].route;
            Step(st, b, DoSendCancel(st, c, true), MoveCancel(b, c, CancelOnDown(r)),
                 Touched(r, -1, c, -1, -1, -1))
  {
    hide StreamOk, CallOk, ProxyOk, AgentOk, TaskOk;
  }

  lemma SendCancelFailedStep(st: State, b: Book, c: nat)
    requires Inv(st, b) && CallIn(st, c, Expired) && MaySend(st, st.calls[c].route, false)
    requires c < |b.cancel| && b.cancel[c] == NotSent
    ensures Step(st, b, DoSendCancel(st, c, false), b,
                 Touched(-1, -1, c, -1, -1, -1))
  {
    hide StreamOk, CallOk, ProxyOk, AgentOk, TaskOk;
  }

  lemma SendCancelStep(st: State, b: Book, c: nat, ok: bool)
    requires Inv(st, b) && CallIn(st, c, Expired) && MaySend(st, st.calls[c].route, ok)
    requires c < |b.cancel| && b.cancel[c] == NotSent
    ensures var r := st.calls[c].route;
            Step(st, b, DoSendCancel(st, c, ok), if ok then MoveCancel(b, c, CancelOnDown(r)) else b,
                 Touched(if ok then r else -1, -1, c, -1, -1, -1))
  {
    hide Inv, Step, CallIn, MaySend;
    if ok {
      SendCancelOkStep(st, b, c);
    } else {
      SendCancelFailedStep(st, b, c);
    }
  }

  lemma KeepSendCancel(st: State, b: Book, c: nat, ok: bool) returns (b': Book)
    requires Inv(st, b) && CallIn(st, c, Expired) && MaySend(st, st.calls[c].route, ok)
    ensures Inv(DoSendCancel(st, c, ok), b')
  {
    hide StreamOk, ProxyOk, AgentOk, TaskOk, StreamsSame, CallsSame, MessagesStay, ProxiesSame, TasksSame;
    var st' := DoSendCancel(st, c, ok);
    var r := st.calls[c].route;
    b' := if ok then MoveCancel(b, c, CancelOnDown(r)) else b;
    assert CallOk(st, b, c);
    SendCancelStep(st, b, c, ok);
    NoCancelThere(st, b, c, r);
    RoutesKept(st, b, st');
    assert CallOk(st', b', c);
    if ok {
      PushDownKept(st, b, st', b', r, CancelRequest(st.calls[c].id, c));
    }
    Assemble(st, b, st', b', Touched(if ok then r else -1, -1, c, -1, -1, -1));
  }

  // ----- TakeReply -----

  lemma TakeReplyStep(st: State, b: Book, c: nat)
    requires Inv(st, b) && CanTakeReply(st, c)
    requires c < |b.loc| && b.loc[c] == InSlot
    ensures Step(st, b, DoTakeReply(st, c), Move(b, c, Consumed), Touched(-1, -1, c, -1, -1, -1))
  {
    hide StreamOk, CallOk, ProxyOk, AgentOk, TaskOk;
  }

  lemma KeepTakeReply(st: State, b: Book, c: nat) returns (b': Book)
    requires Inv(st, b) && CanTakeReply(st, c)
    ensures Inv(DoTakeReply(st, c), b')
  {
    hide StreamOk, ProxyOk, AgentOk, TaskOk, StreamsSame, CallsSame, MessagesStay, ProxiesSame, TasksSame;
    var st' := DoTakeReply(st, c);
    b' := Move(b, c, Consumed);
    assert CallOk(st, b, c);
    TakeReplyStep(st, b, c);
    RoutesKept(st, b, st');
    AuthenticKept(st, b, st', st.router.slots[c].value);
    assert CallOk(st', b', c);
    Assemble(st, b, st', b', Touched(-1, -1, c, -1, -1, -1));
  }

  // ----- Return -----

  lemma ReturnStep(st: State, b: Book, c: nat)
    requires Inv(st, b) && CallIn(st, c, Closing)
    requires forall d | 0 <= d < |st.calls| && d != c && st.calls[d].phase != Returned ::
               st.calls[d].id != st.calls[c].id
    ensures Step(st, b, DoReturn(st, c), b, Touched(-1, -1, c, -1, -1, -1))
  {
    hide StreamOk, CallOk, ProxyOk, AgentOk, TaskOk;
  }

  lemma OnlyUnfinished(st: State, b: Book, c: nat)
    requires Inv(st, b) && CallIn(st, c, Closing)
    ensures forall d | 0 <= d < |st.calls| && d != c && st.calls[d].phase != Returned ::
              st.calls[d].id != st.calls[c].id
  {
    hide StreamOk, ProxyOk, AgentOk, TaskOk;
    forall d | 0 <= d < |st.calls| && d != c && st.calls[d].phase != Returned
      ensures st.calls[d].id != st.calls[c].id
    {
      assert CallOk(st, b, d);
      assert CallOk(st, b, c);
    }
  }

  lemma KeepReturn(st: State, b: Book, c: nat) returns (b': Book)
    requires Inv(st, b) && CallIn(st, c, Closing)
    ensures Inv(DoReturn(st, c), b')
  {
    hide StreamOk, ProxyOk, AgentOk, TaskOk, Step;
    var st' := DoReturn(st, c);
    b' := b;
    OnlyUnfinished(st, b, c);
    ReturnStep(st, b, c);
    assert CallOk(st, b, c);
    assert CallOk(st', b', c);
    Assemble(st, b, st', b', Touched(-1, -1, c, -1, -1, -1));
  }

  // ----- CenterLoad -----

  lemma CenterLoadStep(st: State, b: Book, s: nat)
    requires Inv(st, b) && CanCenterLoad(st, s)
    requires ReplyAt(st, b, st.streams[s].up[0], OnUp(s))
    ensures var c := st.streams[s].up[0].origin;
            Step(st, b, DoCenterLoad(st, s), Move(b, c, AtHandler(s)), Touched(s, -1, c, -1, -1, -1))
  {
    hide StreamOk, CallOk, ProxyOk, AgentOk, TaskOk;
    var c := st.streams[s].up[0].origin;
    assert forall p :: !Via(st, c, p) || !Beyond(st, b, c, p);
  }

  lemma UpHead(st: State, b: Book, s: nat)
    requires Inv(st, b) && s < |st.streams| && |st.streams[s].up| > 0
    ensures StreamOk(st, b, s) && ReplyAt(st, b, st.streams[s].up[0], OnUp(s))
    ensures CallOk(st, b, st.streams[s].up[0].origin)
  {
    hide CallOk, ProxyOk, AgentOk, TaskOk;
    assert StreamOk(st, b, s);
  }

  /** The call a reply is loaded for is the call it was made for, or none. */
  lemma LoadsItsOwn(st: State, b: Book, m: Msg)
    requires Inv(st, b) && MsgOk(st, m)
    ensures m.id in st.router.pending ==> st.router.pending[m.id] == m.origin
  {
    hide StreamOk, ProxyOk, AgentOk, TaskOk;
    if m.id in st.router.pending {
      assert CallOk(st, b, st.router.pending[m.id]);
    }
  }

  lemma KeepCenterLoad(st: State, b: Book, s: nat) returns (b': Book)
    requires Inv(st, b) && CanCenterLoad(st, s)
    ensures Inv(DoCenterLoad(st, s), b')
  {
    hide StreamOk, ProxyOk, AgentOk, TaskOk, StreamsSame, CallsSame, MessagesStay, ProxiesSame, TasksSame;
    var st' := DoCenterLoad(st, s);
    var m := st.streams[s].up[0];
    UpHead(st, b, s);
    LoadsItsOwn(st, b, m);
    CenterLoadStep(st, b, s);
    b' := Move(b, m.origin, AtHandler(s));
    RoutesKept(st, b, st');
    assert CallOk(st', b', m.origin);
    MsgKept(st, b, st', m);
    PopUpKept(st, b, st', b', s);
    Assemble(st, b, st', b', Touched(s, -1, m.origin, -1, -1, -1));
  }

  // ----- CenterPut -----

  lemma CenterPutStep(st: State, b: Book, s: nat)
    requires Inv(st, b) && CanCenterPut(st, s)
    requires HandOk(st, b, s, st.streams[s].server, st.streams[s].hand)
    ensures var c := st.streams[s].hand.reply.origin;
            Step(st, b, DoCenterPut(st, s), Move(b, c, InSlot), Touched(s, -1, c, -1, -1, -1))
  {
    hide StreamOk, CallOk, ProxyOk, AgentOk, TaskOk;
  }

  lemma HandHeld(st: State, b: Book, s: nat)
    requires Inv(st, b) && s < |st.streams| && st.streams[s].hand != Free
    ensures StreamOk(st, b, s) && HandOk(st, b, s, st.streams[s].server, st.streams[s].hand)
    ensures CallOk(st, b, st.streams[s].hand.reply.origin)
  {
    hide CallOk, ProxyOk, AgentOk, TaskOk;
    assert StreamOk(st, b, s);
  }

  lemma KeepCenterPut(st: State, b: Book, s: nat) returns (b': Book)
    requires Inv(st, b) && CanCenterPut(st, s)
    ensures Inv(DoCenterPut(st, s), b')
  {
    hide StreamOk, ProxyOk, AgentOk, TaskOk, StreamsSame, CallsSame, MessagesStay, ProxiesSame, TasksSame;
    var st' := DoCenterPut(st, s);
    HandHeld(st, b, s);
    var m := st.streams[s].hand.reply;
    CenterPutStep(st, b, s);
    b' := Move(b, m.origin, InSlot);
    RoutesKept(st, b, st');
    AuthenticKept(st, b, st', m);
    assert CallOk(st', b', m.origin);
    FreeKept(st, b, st', b', s);
    Assemble(st, b, st', b', Touched(s, -1, m.origin, -1, -1, -1));
  }
}
