/** Why request IDs must differ: the run in which two calls share one. */
module ProtocolMixup {
  import opened Tunnel
  import opened RouterTable
  import opened RelayTable
  import opened Protocol
  import opened ProtocolTheorems

  function TwoAgents(h0: Host, h1: Host): State {
    State(RouterState(map[], []), [], [], [],
          [Agent(h0, Center, Down, map[]), Agent(h1, Center, Down, map[])], [])
  }

  function Connect(): seq<Event> {
    [AtNetwork(AgentDial(0)), AtNetwork(AgentAck(0)), AtNetwork(AgentUp(0)), AtNetwork(AgentDial(1))]
  }

  /** A fan-out to two hosts under one request ID. */
  function FanOut(id: Id, h0: Host, h1: Host, job: Job): seq<Event> {
    [AtCenter(Begin(id, h0, job, 0)), AtCenter(SendRequest(0, true)),
     AtCenter(Begin(id, h1, job, 1)), AtCenter(SendRequest(1, true))]
  }

  function Execute(json: string): seq<Event> {
    [AtAgent(AgentStart(0)), AtAgent(TaskReply(0, Succeeded(json), true))]
  }

  function Deliver(): seq<Event> {
    [AtCenter(CenterLoad(0)), AtCenter(CenterPut(0)), AtCenter(TakeReply(1)), AtCenter(Return(1))]
  }

  function Connected(h0: Host, h1: Host): State {
    TwoAgents(h0, h1).(
      streams := [Opened(AgentNode(0), Center).(accepted := true), Opened(AgentNode(1), Center)],
      agents := [Agent(h0, Center, Live(0), map[]), Agent(h1, Center, Dialing(1), map[])])
  }

  lemma ConnectPlays(h0: Host, h1: Host, rest: seq<Event>)
    requires Legal(Connected(h0, h1), rest)
    ensures Legal(TwoAgents(h0, h1), Connect() + rest)
    ensures Play(TwoAgents(h0, h1), Connect() + rest) == Play(Connected(h0, h1), rest)
  {
    hide Legal, Play;
    var s0 := TwoAgents(h0, h1);
    var e := Connect();
    var s1 := Next(s0, e[0]);
    var s2 := Next(s1, e[1]);
    var s3 := Next(s2, e[2]);
    assert Next(s3, e[3]) == Connected(h0, h1);
    PlayFirst(s3, e[3], rest);
    PlayFirst(s2, e[2], [e[3]] + rest);
    PlayFirst(s1, e[1], [e[2]] + ([e[3]] + rest));
    PlayFirst(s0, e[0], [e[1]] + ([e[2]] + ([e[3]] + rest)));
    assert e + rest == [e[0]] + ([e[1]] + ([e[2]] + ([e[3]] + rest)));
  }

  function Asked(id: Id, h0: Host, h1: Host, job: Job): State {
    var st := Connected(h0, h1);
    st.(router := RouterState(map[id := 1], [None, None]),
        calls := [Call(id, h0, job, 0, Waiting, NoOutcome), Call(id, h1, job, 1, Waiting, NoOutcome)],
        streams := [st.streams[0].(down := [ToolRequest(id, job, h0, 0)]),
                    st.streams[1].(down := [ToolRequest(id, job, h1, 1)])])
  }

  lemma FanOutPlays(id: Id, h0: Host, h1: Host, job: Job, rest: seq<Event>)
    requires Legal(Asked(id, h0, h1, job), rest)
    ensures Legal(Connected(h0, h1), FanOut(id, h0, h1, job) + rest)
    ensures Play(Connected(h0, h1), FanOut(id, h0, h1, job) + rest) == Play(Asked(id, h0, h1, job), rest)
  {
    hide Legal, Play;
    var s0 := Connected(h0, h1);
    var e := FanOut(id, h0, h1, job);
    var s1 := Next(s0, e[0]);
    var s2 := Next(s1, e[1]);
    var s3 := Next(s2, e[2]);
    var end, asked := Next(s3, e[3]), Asked(id, h0, h1, job);
    assert end.calls == asked.calls;
    assert end.router.pending == asked.router.pending && end.router.slots == asked.router.slots;
    assert end.streams[0].down == asked.streams[0].down && end.streams[1].down == asked.streams[1].down;
    assert end.streams == asked.streams;
    assert end == asked;
    PlayFirst(s3, e[3], rest);
    PlayFirst(s2, e[2], [e[3]] + rest);
    PlayFirst(s1, e[1], [e[2]] + ([e[3]] + rest));
    PlayFirst(s0, e[0], [e[1]] + ([e[2]] + ([e[3]] + rest)));
    assert e + rest == [e[0]] + ([e[1]] + ([e[2]] + ([e[3]] + rest)));
  }

  function Answer(id: Id, json: string): Msg {
    Reply(id, ToolResponse(json), 0, MadeByTask(0))
  }

  function Replied0(id: Id, h0: Host, h1: Host, job: Job, json: string): State {
    var st := Asked(id, h0, h1, job);
    st.(streams := st.streams[0 := st.streams[0].(down := [], up := [Answer(id, json)])],
        agents := st.agents[0 := st.agents[0].(cancelFns := map[id := 0])],
        tasks := [Task(0, id, job, 0, Replied, false, Some(ToolResponse(json)))])
  }

  function MixedUp(id: Id, h0: Host, h1: Host, job: Job, json: string): State {
    var st := Replied0(id, h0, h1, job, json);
    st.(router := RouterState(map[], [None, None]),
        calls := st.calls[1 := Call(id, h1, job, 1, Returned, Got(Answer(id, json)))],
        streams := st.streams[0 := st.streams[0].(up := [])])
  }

  lemma ExecutePlays(id: Id, h0: Host, h1: Host, job: Job, json: string, rest: seq<Event>)
    requires Legal(Replied0(id, h0, h1, job, json), rest)
    ensures Legal(Asked(id, h0, h1, job), Execute(json) + rest)
    ensures Play(Asked(id, h0, h1, job), Execute(json) + rest) == Play(Replied0(id, h0, h1, job, json), rest)
  {
    hide Legal, Play;
    var s0 := Asked(id, h0, h1, job);
    var e := Execute(json);
    var s1 := Next(s0, e[0]);
    var s2 := Next(s1, e[1]);
    var replied := Replied0(id, h0, h1, job, json);
    assert s2.streams[0].down == replied.streams[0].down && s2.streams[0].up == replied.streams[0].up;
    assert s2.streams == replied.streams && s2.agents == replied.agents && s2.tasks == replied.tasks;
    assert s2 == replied;
    PlayFirst(s1, e[1], rest);
    PlayFirst(s0, e[0], [e[1]] + rest);
    assert e + rest == [e[0]] + ([e[1]] + rest);
  }

  lemma DeliveryPlays(id: Id, h0: Host, h1: Host, job: Job, json: string)
    ensures Legal(Replied0(id, h0, h1, job, json), Deliver())
    ensures Play(Replied0(id, h0, h1, job, json), Deliver()) == MixedUp(id, h0, h1, job, json)
  {
    hide Legal, Play;
    var e := Deliver();
    var s0 := Replied0(id, h0, h1, job, json);
    var s1 := Next(s0, e[0]);
    assert s1.streams[0].hand == Putting(Answer(id, json), 1);
    var s2 := Next(s1, e[1]);
    assert s2.router.slots[1] == Some(Answer(id, json));
    var s3 := Next(s2, e[2]);
    var s4 := Next(s3, e[3]);
    var mixed := MixedUp(id, h0, h1, job, json);
    assert s4.router.pending == map[] && s4.router.slots == mixed.router.slots;
    assert s4.calls == mixed.calls;
    assert s4.streams[0].up == [] && s4.streams == mixed.streams;
    assert s4 == mixed;
    Nothing(s4);
    var none: seq<Event> := [];
    PlayFirst(s3, e[3], none);
    PlayFirst(s2, e[2], [e[3]] + none);
    PlayFirst(s1, e[1], [e[2]] + ([e[3]] + none));
    PlayFirst(s0, e[0], [e[1]] + ([e[2]] + ([e[3]] + none)));
    assert e == [e[0]] + ([e[1]] + ([e[2]] + ([e[3]] + none)));
  }

  lemma Nothing(st: State)
    ensures Legal(st, []) && Play(st, []) == st
  {
  }

  /** If two calls to different hosts share a request ID, as the targets of one builtin
      invocation do, a legal run ends with the second host's call returning what the first host's
      agent answered to the first call, while no agent ever ran the second call and the first
      call still waits for a reply that was already given away. */
  lemma SharedIdMixesUp(id: Id, h0: Host, h1: Host, job: Job, json: string)
    requires h0 != h1
    ensures var st0 := TwoAgents(h0, h1); var es := Connect() + (FanOut(id, h0, h1, job) + (Execute(json) + Deliver()));
            && Initial(st0) && Legal(st0, es)
            && var st := Play(st0, es);
               && |st.calls| == 2 && st.calls[1].host == h1 && Returns(st, 1) == Result(json)
               && (forall t | 0 <= t < |st.tasks| ::
                     st.tasks[t].origin == 0 && st.tasks[t].agent == 0 && |st.agents| > 0 && st.agents[0].host == h0)
               && st.calls[0].phase == Waiting && id !in st.router.pending
  {
    hide Legal, Play, Connect, FanOut, Execute, Deliver;
    DeliveryPlays(id, h0, h1, job, json);
    ExecutePlays(id, h0, h1, job, json, Deliver());
    FanOutPlays(id, h0, h1, job, Execute(json) + Deliver());
    ConnectPlays(h0, h1, FanOut(id, h0, h1, job) + (Execute(json) + Deliver()));
  }
}
