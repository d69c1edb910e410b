/** The center's table of waiting calls. */
module RouterTable {
  import opened Tunnel

  /** `pending` maps a request ID to the number of the slot it was stored with; a slot is a
      channel of capacity one. */
  datatype RouterState = RouterState(pending: map<Id, nat>, slots: seq<Option<Msg>>)

  /** A fresh slot stored under `id`. */
  function Store(r: RouterState, id: Id): RouterState {
    RouterState(r.pending[id := |r.slots|], r.slots + [None])
  }

  /** A non-blocking send into slot `c`. */
  function Put(r: RouterState, c: nat, m: Msg): RouterState
    requires c < |r.slots|
  {
    if r.slots[c].None? then r.(slots := r.slots[c := Some(m)]) else r
  }

  /** A receive from slot `c`. */
  function Take(r: RouterState, c: nat): RouterState
    requires c < |r.slots|
  {
    r.(slots := r.slots[c := None])
  }

  function Delete(r: RouterState, id: Id): RouterState {
    r.(pending := r.pending - {id})
  }
}

/** The proxy's relay state: its registry, seen as a routing table, and the requests it has
    passed on. */
module RelayTable {
  import opened Tunnel

  datatype Entry = Entry(host: Host, origin: nat)
  datatype RelayState = RelayState(table: map<Host, nat>, pendingRequests: map<Id, Entry>)

  function Track(r: RelayState, req: Msg): RelayState
    requires req.ToolRequest?
  {
    r.(pendingRequests := r.pendingRequests[req.id := Entry(req.target, req.origin)])
  }

  function Forget(r: RelayState, id: Id): RelayState {
    r.(pendingRequests := r.pendingRequests - {id})
  }

  function Clear(r: RelayState): RelayState {
    r.(pendingRequests := map[])
  }
}

/** The agent's table of cancel functions: a request ID maps to the goroutine whose context its
    function cancels. */
module AgentTable {
  import opened Tunnel

  type CancelFns = map<Id, nat>

  function Started(fns: CancelFns, id: Id, t: nat): CancelFns {
    fns[id := t]
  }

  function Dropped(fns: CancelFns, id: Id): CancelFns {
    fns - {id}
  }
}
