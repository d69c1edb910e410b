/** Why a `Send` returns what it returns: the event of the run that decided it. */
module ProtocolOutcomes {
  import opened Tunnel
  import opened RouterTable
  import opened Protocol
  import opened ProtocolInvariant
  import opened ProtocolTheorems

  // ----- how a handler ended -----

  /** The handler of goroutine `t` ended with `h` in the course of `es`. */
  predicate EndedWith(es: seq<Event>, t: nat, h: Handled) {
    AtAgent(TaskReply(t, h, true)) in es || AtAgent(TaskReply(t, h, false)) in es
  }

  /** What an agent replies for each way a handler can end. */
  ghost predicate RepliedFor(es: seq<Event>, t: nat, body: Body) {
    match body
    case ToolResponse(json) => EndedWith(es, t, Succeeded(json))
    case ErrorResponse(code, message) =>
      || (code == "TOOL_ERROR" && EndedWith(es, t, Failed(message)))
      || (code == "TOOL_NOT_FOUND" && EndedWith(es, t, UnknownTool(message)))
  }

  function ReplyOf(st: State, t: nat): Option<Body> {
    if t < |st.tasks| then st.tasks[t].reply else None
  }

  lemma StepReply(st: State, e: Event, t: nat)
    requires Can(st, e)
    ensures var reply := ReplyOf(Next(st, e), t);
            reply.Some? && reply != ReplyOf(st, t) ==> RepliedFor([e], t, reply.value)
  {
    match e
    case AtAgent(x) =>
      if x.TaskReply? {
        assert e in [e];
      }
    case AtCenter(x) => TasksAtCenter(st, x);
    case AtRelay(x) => TasksAtRelay(st, x);
    case AtNetwork(x) => TasksAtNetwork(st, x);
  }

  lemma TasksAtCenter(st: State, e: CenterEvent)
    requires CanCenter(st, e)
    ensures NextCenter(st, e).tasks == st.tasks
  {
  }

  lemma TasksAtRelay(st: State, e: RelayEvent)
    requires CanRelay(st, e)
    ensures NextRelay(st, e).tasks == st.tasks
  {
  }

  lemma TasksAtNetwork(st: State, e: NetworkEvent)
    requires CanNetwork(st, e)
    ensures NextNetwork(st, e).tasks == st.tasks
  {
  }

  lemma {:induction false} ReplyCameFromHandler(st: State, es: seq<Event>, t: nat)
    requires Run(st, es)
    ensures var reply := ReplyOf(After(st, es), t);
            reply.Some? && reply != ReplyOf(st, t) ==> RepliedFor(es, t, reply.value)
    decreases |es|
  {
    if es != [] {
      hide Can, Next, IdFree, ReplyOf;
      StepReply(st, es[0], t);
      ReplyCameFromHandler(Next(st, es[0]), es[1..], t);
      assert es == [es[0]] + es[1..];
    }
  }

  // ----- how a call ended -----

  /** The outcome of a call is open as long as it is being sent or waits. */
  predicate Undecided(st: State) {
    forall c | 0 <= c < |st.calls| ::
      st.calls[c].outcome == NoOutcome <==> st.calls[c].phase == Stored || st.calls[c].phase == Waiting
  }

  function OutcomeOf(st: State, c: nat): Outcome {
    if c < |st.calls| then st.calls[c].outcome else NoOutcome
  }

  predicate HasReturned(st: State, c: nat) {
    c < |st.calls| && st.calls[c].phase == Returned
  }

  /** The four ways to an outcome, and the return. */
  ghost predicate Decided(st: State, es: seq<Event>, st': State, c: nat) {
    && (OutcomeOf(st', c) == TimedOut <==> OutcomeOf(st, c) == TimedOut || AtCenter(Expire(c, false)) in es)
    && (OutcomeOf(st', c) == Canceled <==> OutcomeOf(st, c) == Canceled || AtCenter(Expire(c, true)) in es)
    && (OutcomeOf(st', c) == SendFailed <==> OutcomeOf(st, c) == SendFailed || AtCenter(SendRequest(c, false)) in es)
    && (OutcomeOf(st', c).Got? <==> OutcomeOf(st, c).Got? || AtCenter(TakeReply(c)) in es)
    && (HasReturned(st', c) <==> HasReturned(st, c) || AtCenter(Return(c)) in es)
  }

  lemma StaysUndecided(st: State, e: CenterEvent)
    requires Undecided(st) && CanCenter(st, e)
    ensures Undecided(NextCenter(st, e))
  {
  }

  lemma CenterDecides(st: State, e: CenterEvent, c: nat)
    requires Undecided(st) && CanCenter(st, e)
    ensures Decided(st, [AtCenter(e)], NextCenter(st, e), c)
  {
  }

  lemma StepDecides(st: State, e: Event, c: nat)
    requires Undecided(st) && Can(st, e)
    ensures Undecided(Next(st, e)) && Decided(st, [e], Next(st, e), c)
  {
    hide CanCenter, NextCenter;
    match e
    case AtCenter(x) =>
      StaysUndecided(st, x);
      CenterDecides(st, x, c);
    case AtRelay(x) => NextCallsRelay(st, x);
    case AtAgent(x) => CallsAtAgent(st, x);
    case AtNetwork(x) => NextCallsNetwork(st, x);
  }

  lemma CallsAtAgent(st: State, e: AgentEvent)
    requires CanAgent(st, e)
    ensures NextAgent(st, e).calls == st.calls
  {
  }

  lemma {:induction false} RunDecides(st: State, es: seq<Event>, c: nat)
    requires Undecided(st) && Run(st, es)
    ensures Decided(st, es, After(st, es), c)
    decreases |es|
  {
    if es != [] {
      hide Can, Next, IdFree, Undecided, OutcomeOf, HasReturned;
      StepDecides(st, es[0], c);
      RunDecides(Next(st, es[0]), es[1..], c);
      assert es == [es[0]] + es[1..];
    }
  }

  // ----- what a call asks -----

  /** What was asked, of whom, and on which stream. */
  predicate SameQuestion(a: Call, b: Call) {
    a.id == b.id && a.host == b.host && a.job == b.job && a.route == b.route
  }

  /** The call asks what the event that began it said. */
  predicate Asks(x: Call, es: seq<Event>) {
    AtCenter(Begin(x.id, x.host, x.job, x.route)) in es
  }

  lemma StepKeepsQuestions(st: State, e: Event)
    requires Can(st, e)
    ensures |Next(st, e).calls| >= |st.calls|
    ensures forall c | 0 <= c < |st.calls| :: SameQuestion(Next(st, e).calls[c], st.calls[c])
    ensures forall c | |st.calls| <= c < |Next(st, e).calls| :: Asks(Next(st, e).calls[c], [e])
  {
    match e
    case AtCenter(x) =>
    case AtRelay(x) => NextCallsRelay(st, x);
    case AtAgent(x) => CallsAtAgent(st, x);
    case AtNetwork(x) => NextCallsNetwork(st, x);
  }

  lemma {:induction false} CallsAskWhatWasBegun(st: State, es: seq<Event>)
    requires Run(st, es)
    ensures |After(st, es).calls| >= |st.calls|
    ensures forall c | 0 <= c < |st.calls| :: SameQuestion(After(st, es).calls[c], st.calls[c])
    ensures forall c | |st.calls| <= c < |After(st, es).calls| :: Asks(After(st, es).calls[c], es)
    decreases |es|
  {
    if es != [] {
      hide Can, Next, IdFree;
      StepKeepsQuestions(st, es[0]);
      CallsAskWhatWasBegun(Next(st, es[0]), es[1..]);
      assert es == [es[0]] + es[1..];
    }
  }

  // ----- the theorems -----

  /** Goroutine `t` ran the job of call `c` on an agent of the call's host. */
  predicate RanFor(st: State, c: nat, t: nat) {
    && c < |st.calls| && t < |st.tasks| && st.tasks[t].agent < |st.agents|
    && st.tasks[t].origin == c
    && st.tasks[t].id == st.calls[c].id
    && st.tasks[t].job == st.calls[c].job
    && st.agents[st.tasks[t].agent].host == st.calls[c].host
  }

  /** In every run every call asks what it was begun with, and: a result is what the handler of a goroutine of this call succeeded with; an error of
      the agent has the code TOOL_ERROR and the message a handler of this call failed with, or the
      code TOOL_NOT_FOUND and the name that was not found; an error of the proxy has the code
      HOST_NOT_FOUND and names the call's host, and then nothing ran for the call. */
  lemma SendReturnsWhatTheHandlerEndedWith(st: State, es: seq<Event>, c: nat)
    requires Initial(st) && Run(st, es) && c < |After(st, es).calls|
    ensures Asks(After(st, es).calls[c], es)
    ensures var end := After(st, es);
            match Returns(end, c)
            case Result(json) => exists t :: RanFor(end, c, t) && EndedWith(es, t, Succeeded(json))
            case AgentError(code, message) =>
              || (code == "TOOL_ERROR" && exists t :: RanFor(end, c, t) && EndedWith(es, t, Failed(message)))
              || (code == "TOOL_NOT_FOUND" && exists t :: RanFor(end, c, t) && EndedWith(es, t, UnknownTool(message)))
              || (code == "HOST_NOT_FOUND" && message == "proxy: target host " + end.calls[c].host + " not found"
                  && forall t | 0 <= t < |end.tasks| :: end.tasks[t].origin != c)
            case _ => true
  {
    hide Inv, Run, After, EndedWith, RanFor, Answered, Asks;
    var end := After(st, es);
    CallsAskWhatWasBegun(st, es);
    assert EndsIn(st, es, end);
    SendReturnsItsOwnReply(end, c);
    match Returns(end, c)
    case Result(json) =>
      var t :| Answered(end, c, t, ToolResponse(json));
      AnsweredAfterHandler(st, es, c, t, ToolResponse(json));
    case AgentError(code, message) =>
      if t :| Answered(end, c, t, ErrorResponse(code, message)) {
        AnsweredAfterHandler(st, es, c, t, ErrorResponse(code, message));
      }
    case _ =>
  }

  lemma AnsweredAfterHandler(st: State, es: seq<Event>, c: nat, t: nat, body: Body)
    requires Initial(st) && Run(st, es) && Answered(After(st, es), c, t, body)
    ensures RanFor(After(st, es), c, t) && RepliedFor(es, t, body)
  {
    hide Run, After;
    ReplyCameFromHandler(st, es, t);
  }

  /** In every run, and for every call, what `Send` returns says which event ended it: the deadline, the
      caller's cancel, the failed send, or the reply taken from the slot.  Nothing is returned before
      the return. */
  lemma SendReturnsForItsReason(st: State, es: seq<Event>, c: nat)
    requires Initial(st) && Run(st, es) && c < |After(st, es).calls|
    ensures var r := Returns(After(st, es), c);
            && (r == Unfinished <==> AtCenter(Return(c)) !in es)
            && (r == Timeout <==> AtCenter(Return(c)) in es && AtCenter(Expire(c, false)) in es)
            && (r == Cancel <==> AtCenter(Return(c)) in es && AtCenter(Expire(c, true)) in es)
            && (r == SendError <==> AtCenter(Return(c)) in es && AtCenter(SendRequest(c, false)) in es)
            && (r.Result? || r.AgentError? <==> AtCenter(Return(c)) in es && AtCenter(TakeReply(c)) in es)
  {
    hide Inv, Run, After;
    RunDecides(st, es, c);
    assert EndsIn(st, es, After(st, es));
    if HasReturned(After(st, es), c) {
      ReturnedIsDecided(After(st, es), c);
    }
  }

  lemma ReturnedIsDecided(st: State, c: nat)
    requires Reachable(st) && c < |st.calls| && st.calls[c].phase == Returned
    ensures st.calls[c].outcome != NoOutcome
    ensures st.calls[c].outcome.Got? ==> st.calls[c].outcome.reply.Reply?
  {
    hide Reachable, StreamOk, ProxyOk, AgentOk, TaskOk;
    var b := Reached(st);
    assert CallOk(st, b, c);
  }

  /** From the moment a waiting call's context ends, with whichever error, that error is what the call
      returns, even if a reply reaches its slot before it has returned. */
  lemma ExpiredSendReturnsItsContextsError(st: State, c: nat, canceled: bool, es: seq<Event>)
    requires Undecided(st) && CanCenter(st, Expire(c, canceled))
    requires Run(Next(st, AtCenter(Expire(c, canceled))), es)
    ensures var end := After(Next(st, AtCenter(Expire(c, canceled))), es);
            && c < |end.calls|
            && Returns(end, c) == if !HasReturned(end, c) then Unfinished else if canceled then Cancel else Timeout
  {
    hide Run, After;
    var e := AtCenter(Expire(c, canceled));
    StepDecides(st, e, c);
    RunDecides(Next(st, e), es, c);
    CallsAskWhatWasBegun(Next(st, e), es);
  }
}
