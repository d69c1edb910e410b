/** The vocabulary of the tunnel: the messages that travel between the center, a proxy and
    the agents, and the streams that carry them.

    Every message carries an `origin`, the number of the `Send` call it was created for, and
    every reply a `maker`.  They stand for nothing on the wire: they are copied along with the
    message and no step of the protocol looks at them, so that "this reply belongs to that
    call" can be said without trusting request IDs. */
module Tunnel {

  datatype Option<+T> = None | Some(value: T)

  type Id = string
  type Host = string

  datatype Job = Job(tool: string, args: string)

  /** The two payloads a reply can have. */
  datatype Body =
    | ToolResponse(resultJson: string)
    | ErrorResponse(code: string, message: string)

  /** Who made a reply: an agent goroutine, or a proxy that does not know the target host. */
  datatype Maker = MadeByTask(task: nat) | MadeByProxy(proxy: nat)

  datatype Msg =
    | ToolRequest(id: Id, job: Job, target: Host, origin: nat)
    | CancelRequest(id: Id, origin: nat)
    | Reply(id: Id, body: Body, origin: nat, maker: Maker)

  /** The proxy's own answer to a request whose target is not in its registry. */
  function HostNotFound(host: Host): Body {
    ErrorResponse("HOST_NOT_FOUND", "proxy: target host " + host + " not found")
  }

  function Refusal(req: Msg, p: nat): Msg
    requires req.ToolRequest?
  {
    Reply(req.id, HostNotFound(req.target), req.origin, MadeByProxy(p))
  }

  datatype Server = Center | AtProxy(proxy: nat)
  datatype Client = AgentNode(agent: nat) | ProxyNode(proxy: nat)

  /** What the goroutine that reads a stream on the server side holds between two of its
      atomic steps. */
  datatype Hand =
    | Free
    | Putting(reply: Msg, slot: nat)
    | Forwarding(reply: Msg)

  /** One bidirectional stream: `down` is read by the client, `up` by the server.  `broken`
      never becomes false again; a reconnect makes a new stream.  `accepted` says that the
      client has processed the registration ack. */
  datatype Stream = Stream(
    client: Client, server: Server,
    down: seq<Msg>, up: seq<Msg>,
    broken: bool, accepted: bool, hand: Hand)

  /** Where a dialer is in its connect, register, read loop. */
  datatype Link =
    | Down
    | Dialing(stream: nat)
    | Acked(stream: nat)
    | Live(stream: nat)
}
