/** The agent's steps keep the invariant.

    Every event has a lemma `Keep...`.  Its proof has a lemma `...Step`, which shows that the step
    touches no more than it names, and lemmas about what is touched: the agent, its goroutine, the
    call and a stream.

    A goroutine starts when the request is taken, so a call has only one; it replies once and is
    then done.  The cancel function stored for an ID is that of the one unfinished goroutine with
    the ID, so a cancel stops it and no other, and the clean-up of a goroutine removes its own
    function or finds it gone. */
module ProtocolAgentSteps {
  import opened Tunnel
  import opened RouterTable
  import opened RelayTable
  import opened Protocol
  import opened ProtocolInvariant
  import opened ProtocolFrames

  lemma DownHead(st: State, b: Book, s: nat)
    requires Inv(st, b) && s < |st.streams| && |st.streams[s].down| > 0
    ensures StreamOk(st, b, s) && EndsOk(st, s) && DownMsgOk(st, b, s, st.streams[s].down[0])
    ensures CallOk(st, b, st.streams[s].down[0].origin)
  {
    hide CallOk, ProxyOk, AgentOk, TaskOk;
    assert StreamOk(st, b, s);
  }

  /** What an agent knows about the message it takes next. */
  lemma AgentHead(st: State, b: Book, a: nat)
    requires Inv(st, b) && AgentReads(st, a)
    ensures var s := st.agents[a].link.stream;
            && st.streams[s].client == AgentNode(a)
            && StreamOk(st, b, s) && EndsOk(st, s) && DownMsgOk(st, b, s, NextForAgent(st, a))
            && CallOk(st, b, NextForAgent(st, a).origin)
    ensures AgentOk(st, a)
  {
    hide CallOk, StreamOk, ProxyOk, TaskOk;
    assert AgentOk(st, a);
    DownHead(st, b, st.agents[a].link.stream);
  }

  /** Two live goroutines with the same request ID are the same. */
  lemma SameTask(st: State, b: Book, t: nat, u: nat)
    requires Inv(st, b) && t < |st.tasks| && u < |st.tasks|
    requires st.tasks[t].phase != Done && st.tasks[u].phase != Done && st.tasks[t].id == st.tasks[u].id
    ensures t == u
  {
    hide StreamOk, CallOk, ProxyOk, AgentOk;
    assert TaskOk(st, b, t) && TaskOk(st, b, u);
  }

  /** A live goroutine and a message with its request ID belong to the same call. */
  lemma SameOrigin(st: State, b: Book, t: nat, m: Msg)
    requires Inv(st, b) && t < |st.tasks| && st.tasks[t].phase != Done && MsgOk(st, m)
    requires st.tasks[t].id == m.id
    ensures st.tasks[t].origin == m.origin
  {
    hide StreamOk, CallOk, ProxyOk, AgentOk;
    assert TaskOk(st, b, t);
  }

  // ----- AgentStart -----

  lemma AgentStartStep(st: State, b: Book, a: nat)
    requires Inv(st, b) && CanAgentStart(st, a)
    requires var s := st.agents[a].link.stream; var c := NextForAgent(st, a).origin;
             && st.streams[s].client == AgentNode(a) && c < |b.loc| && b.loc[c] == OnDown(s)
             && c < |st.calls| && NoTask(st, c)
    requires forall t | 0 <= t < |st.tasks| && st.tasks[t].phase != Done :: st.tasks[t].id != NextForAgent(st, a).id
    ensures var s := st.agents[a].link.stream; var c := NextForAgent(st, a).origin;
            Step(st, b, DoAgentStart(st, a), Move(b, c, AtTask(|st.tasks|)), Touched(s, -1, c, -1, a, -1))
  {
    hide StreamOk, CallOk, ProxyOk, AgentOk, TaskOk;
  }

  lemma KeepAgentStart(st: State, b: Book, a: nat) returns (b': Book)
    requires Inv(st, b) && CanAgentStart(st, a)
    ensures Inv(DoAgentStart(st, a), b')
  {
    hide StreamOk, ProxyOk, StreamsSame, CallsSame, MessagesStay, ProxiesSame, TasksSame;
    var st' := DoAgentStart(st, a);
    var s := st.agents[a].link.stream;
    var m := NextForAgent(st, a);
    var c := m.origin;
    AgentHead(st, b, a);
    forall t | 0 <= t < |st.tasks| && st.tasks[t].phase != Done ensures st.tasks[t].id != m.id {
      if st.tasks[t].id == m.id {
        SameOrigin(st, b, t, m);
      }
    }
    AgentStartStep(st, b, a);
    b' := Move(b, c, AtTask(|st.tasks|));
    RoutesKept(st, b, st');
    assert CallOk(st', b', c);
    assert AgentOk(st', a);
    NewTask(st, b, a);
    PopDownKept(st, b, st', b', s);
    Assemble(st, b, st', b', Touched(s, -1, c, -1, a, -1));
  }

  lemma NewTask(st: State, b: Book, a: nat)
    requires Inv(st, b) && CanAgentStart(st, a)
    ensures var m := NextForAgent(st, a);
            && m.origin < |b.loc|
            && TaskOk(DoAgentStart(st, a), Move(b, m.origin, AtTask(|st.tasks|)), |st.tasks|)
  {
    hide StreamOk, ProxyOk, TaskOk;
    var st' := DoAgentStart(st, a);
    var m := NextForAgent(st, a);
    var t := |st.tasks|;
    AgentHead(st, b, a);
    assert TaskOk(st', Move(b, m.origin, AtTask(t)), t) by {
      TaskIsOk(st, b, st', a, m);
    }
  }

  lemma TaskIsOk(st: State, b: Book, st': State, a: nat, m: Msg)
    requires a < |st.agents| && m.ToolRequest? && MsgOk(st, m) && m.origin < |b.loc|
    requires st.agents[a].link.Live? && st.agents[a].link.stream < |st.streams|
    requires var s := st.agents[a].link.stream;
             && st.streams[s].client == AgentNode(a) && EndsOk(st, s) && Hop(st, m.origin, s)
    requires RouteOk(st, st.calls[m.origin].host, st.calls[m.origin].route)
    requires NoTask(st, m.origin)
    requires st'.calls == st.calls && |st'.streams| == |st.streams| && |st'.agents| == |st.agents|
    requires forall s | 0 <= s < |st.streams| ::
               st'.streams[s].client == st.streams[s].client && st'.streams[s].accepted == st.streams[s].accepted
    requires st'.agents[a].host == st.agents[a].host && st'.agents[a].parent == st.agents[a].parent
    requires st'.agents[a].cancelFns == st.agents[a].cancelFns[m.id := |st.tasks|]
    requires st'.tasks == st.tasks + [Task(a, m.id, m.job, m.origin, Running, false, None)]
    ensures TaskOk(st', Move(b, m.origin, AtTask(|st.tasks|)), |st.tasks|)
  {
  }

  // ----- AgentCancel -----

  lemma AgentCancelStep(st: State, b: Book, a: nat)
    requires Inv(st, b) && CanAgentCancel(st, a)
    requires var s := st.agents[a].link.stream; var c := NextForAgent(st, a).origin;
             && st.streams[s].client == AgentNode(a)
             && c < |b.cancel| && b.cancel[c] == CancelOnDown(s) && c < |st.calls|
    ensures var s := st.agents[a].link.stream; var m := NextForAgent(st, a);
            var fns := st.agents[a].cancelFns;
            Step(st, b, DoAgentCancel(st, a), MoveCancel(b, m.origin, CancelOver),
                 Touched(s, -1, m.origin, -1, a, if m.id in fns then fns[m.id] else -1))
  {
    hide StreamOk, CallOk, ProxyOk, AgentOk, TaskOk;
  }

  lemma FiredTask(st: State, b: Book, a: nat, b': Book)
    requires Inv(st, b) && CanAgentCancel(st, a)
    requires NextForAgent(st, a).id in st.agents[a].cancelFns
    requires b'.loc == b.loc
    ensures TaskOk(DoAgentCancel(st, a), b', st.agents[a].cancelFns[NextForAgent(st, a).id])
  {
    hide StreamOk, CallOk, ProxyOk, AgentOk;
    assert TaskOk(st, b, st.agents[a].cancelFns[NextForAgent(st, a).id]);
  }

  lemma CanceledCall(st: State, b: Book, a: nat)
    requires Inv(st, b) && CanAgentCancel(st, a)
    requires Frame(st, b, DoAgentCancel(st, a))
    ensures var c := NextForAgent(st, a).origin;
            c < |b.cancel| && CallOk(DoAgentCancel(st, a), MoveCancel(b, c, CancelOver), c)
  {
    hide StreamOk, ProxyOk, AgentOk, TaskOk;
    AgentHead(st, b, a);
    CancelFirst(st, b, st.agents[a].link.stream);
    RoutesKept(st, b, DoAgentCancel(st, a));
  }

  lemma KeepAgentCancel(st: State, b: Book, a: nat) returns (b': Book)
    requires Inv(st, b) && CanAgentCancel(st, a)
    ensures Inv(DoAgentCancel(st, a), b')
  {
    hide StreamOk, CallOk, ProxyOk, TaskOk, StreamsSame, CallsSame, MessagesStay, ProxiesSame, TasksSame;
    var st' := DoAgentCancel(st, a);
    var s := st.agents[a].link.stream;
    var m := NextForAgent(st, a);
    AgentHead(st, b, a);
    AgentCancelStep(st, b, a);
    b' := MoveCancel(b, m.origin, CancelOver);
    CanceledCall(st, b, a);
    assert AgentOk(st', a);
    PopDownKept(st, b, st', b', s);
    var fns := st.agents[a].cancelFns;
    if m.id in fns {
      FiredTask(st, b, a, b');
    }
    Assemble(st, b, st', b', Touched(s, -1, m.origin, -1, a, if m.id in fns then fns[m.id] else -1));
  }

  // ----- TaskReply -----

  /** The stream an agent answers on is served by its parent. */
  lemma AnswersToParent(st: State, b: Book, a: nat)
    requires Inv(st, b) && a < |st.agents| && st.agents[a].link.Live?
    ensures var s := st.agents[a].link.stream;
            s < |st.streams| && st.streams[s].server == st.agents[a].parent && StreamOk(st, b, s)
  {
    hide CallOk, ProxyOk, TaskOk;
    assert AgentOk(st, a);
    assert StreamOk(st, b, st.agents[a].link.stream);
  }

  /** What a running goroutine knows about its call. */
  ghost predicate RunningFor(st: State, b: Book, t: nat, c: nat) {
    && t < |st.tasks| && st.tasks[t].origin == c && st.tasks[t].agent < |st.agents|
    && c < |st.calls| && c < |b.loc| && b.loc[c] == AtTask(t) && st.tasks[t].reply == None
    && st.tasks[t].id == st.calls[c].id && Current(st, c)
    && match st.agents[st.tasks[t].agent].parent
       case Center => st.calls[c].route < |st.streams| && st.streams[st.calls[c].route].client.AgentNode?
       case AtProxy(p) => Via(st, c, p)
  }

  lemma RunningTask(st: State, b: Book, t: nat)
    requires Inv(st, b) && t < |st.tasks| && st.tasks[t].phase == Running
    ensures RunningFor(st, b, t, st.tasks[t].origin) && CallOk(st, b, st.tasks[t].origin)
  {
    hide StreamOk, CallOk, ProxyOk, AgentOk;
    assert TaskOk(st, b, t);
  }

  lemma ReplySentFrame(st: State, b: Book, t: nat, handled: Handled, c: nat)
    requires Inv(st, b) && CanTaskReply(st, t, true)
    requires st.tasks[t].origin == c && c < |b.loc| && b.loc[c] == AtTask(t) && st.tasks[t].reply == None
    requires forall p | Via(st, c, p) ::
               st.streams[st.agents[st.tasks[t].agent].link.stream].server == AtProxy(p)
    ensures var s := st.agents[st.tasks[t].agent].link.stream;
            var st' := DoTaskReply(st, t, handled, true);
            Frame(st, b, st') && Sizes(st', Move(b, c, OnUp(s))) && PendingOk(st')
  {
    hide StreamOk, CallOk, ProxyOk, AgentOk, TaskOk;
  }

  lemma ReplySentStep(st: State, b: Book, t: nat, handled: Handled, c: nat)
    requires Inv(st, b) && CanTaskReply(st, t, true)
    requires st.tasks[t].origin == c && c < |b.loc| && b.loc[c] == AtTask(t) && st.tasks[t].reply == None
    requires forall p | Via(st, c, p) ::
               st.streams[st.agents[st.tasks[t].agent].link.stream].server == AtProxy(p)
    ensures var s := st.agents[st.tasks[t].agent].link.stream;
            Step(st, b, DoTaskReply(st, t, handled, true), Move(b, c, OnUp(s)), Touched(s, -1, c, -1, -1, t))
  {
    hide StreamOk, CallOk, ProxyOk, AgentOk, TaskOk, Frame, PendingOk;
    ReplySentFrame(st, b, t, handled, c);
  }

  lemma ReplyLostStep(st: State, b: Book, t: nat, handled: Handled)
    requires Inv(st, b) && CanTaskReply(st, t, false) && st.tasks[t].reply == None
    ensures Step(st, b, DoTaskReply(st, t, handled, false), b, Touched(-1, -1, st.tasks[t].origin, -1, -1, t))
  {
    hide StreamOk, CallOk, ProxyOk, AgentOk, TaskOk;
  }

  lemma RepliedTask(st: State, b: Book, t: nat, handled: Handled, ok: bool, b': Book)
    requires Inv(st, b) && CanTaskReply(st, t, ok)
    requires |b'.loc| == |b.loc|
    ensures TaskOk(DoTaskReply(st, t, handled, ok), b', t)
  {
    hide StreamOk, CallOk, ProxyOk, AgentOk;
    assert TaskOk(st, b, t);
  }

  lemma RepliedCall(st: State, b: Book, t: nat, handled: Handled, ok: bool, b': Book)
    requires CanTaskReply(st, t, ok) && RunningFor(st, b, t, st.tasks[t].origin)
    requires CallOk(st, b, st.tasks[t].origin)
    requires ok ==> st.streams[st.agents[st.tasks[t].agent].link.stream].server == st.agents[st.tasks[t].agent].parent
    requires b' == if ok then Move(b, st.tasks[t].origin, OnUp(st.agents[st.tasks[t].agent].link.stream)) else b
    requires Frame(st, b, DoTaskReply(st, t, handled, ok))
    ensures CallOk(DoTaskReply(st, t, handled, ok), b', st.tasks[t].origin)
  {
    RoutesKept(st, b, DoTaskReply(st, t, handled, ok));
  }

  lemma KeepTaskReply(st: State, b: Book, t: nat, handled: Handled, ok: bool) returns (b': Book)
    requires Inv(st, b) && CanTaskReply(st, t, ok)
    ensures Inv(DoTaskReply(st, t, handled, ok), b')
  {
    hide StreamOk, CallOk, ProxyOk, AgentOk, TaskOk, StreamsSame, CallsSame, MessagesStay, ProxiesSame, TasksSame;
    var st' := DoTaskReply(st, t, handled, ok);
    var x := st.tasks[t];
    RunningTask(st, b, t);
    var s := if ok then st.agents[x.agent].link.stream else -1;
    b' := if ok then Move(b, x.origin, OnUp(s)) else b;
    if ok {
      AnswersToParent(st, b, x.agent);
    }
    RepliedTask(st, b, t, handled, ok, b');
    if ok {
      ReplySentStep(st, b, t, handled, x.origin);
    } else {
      ReplyLostStep(st, b, t, handled);
    }
    RepliedCall(st, b, t, handled, ok, b');
    if ok {
      PushUpKept(st, b, st', b', s, Reply(x.id, ReplyBody(handled), x.origin, MadeByTask(t)));
    }
    Assemble(st, b, st', b', Touched(s, -1, x.origin, -1, -1, t));
  }

  // ----- TaskCleanup -----

  lemma TaskCleanupStep(st: State, b: Book, t: nat)
    requires Inv(st, b) && CanTaskCleanup(st, t)
    requires forall u | 0 <= u < |st.tasks| && u != t && st.tasks[u].phase != Done :: st.tasks[u].id != st.tasks[t].id
    ensures Step(st, b, DoTaskCleanup(st, t), b, Touched(-1, -1, -1, -1, st.tasks[t].agent, t))
  {
    hide StreamOk, CallOk, ProxyOk, AgentOk, TaskOk;
  }

  lemma KeepTaskCleanup(st: State, b: Book, t: nat) returns (b': Book)
    requires Inv(st, b) && CanTaskCleanup(st, t)
    ensures Inv(DoTaskCleanup(st, t), b')
  {
    hide StreamOk, CallOk, ProxyOk, Step;
    var st' := DoTaskCleanup(st, t);
    var a := st.tasks[t].agent;
    b' := b;
    forall u | 0 <= u < |st.tasks| && u != t && st.tasks[u].phase != Done ensures st.tasks[u].id != st.tasks[t].id {
      if st.tasks[u].id == st.tasks[t].id {
        SameTask(st, b, t, u);
      }
    }
    TaskCleanupStep(st, b, t);
    assert TaskOk(st, b, t);
    assert TaskOk(st', b', t);
    assert AgentOk(st, a);
    assert AgentOk(st', a);
    Assemble(st, b, st', b', Touched(-1, -1, -1, -1, a, t));
  }
}
