/**
 The wire vocabulary of the whiteboard relay: what a connection sends to the
 server (join-room, drawing, clear, disconnect) and what the server sends back
 (load-history, drawing, clear). The relay never interprets a stroke beyond
 its `boardId`, so every other field is carried as opaque data.
 */
module Protocol {

  /** A board (socket.io room) name, taken from the `/board/:boardId` route. */
  type BoardId = string

  /** A socket id as assigned by socket.io. */
  type ConnId = string

  datatype Option<+T> = None | Some(value: T)

  /** One line segment as the client emits it; only `boardId` is read by the server. */
  datatype Segment = Segment(
    boardId: BoardId,
    x0: real, y0: real, x1: real, y1: real,
    color: string,
    width: real,
    mode: string)

  /** An inbound event on one connection. */
  datatype Event =
    | JoinRoom(board: BoardId)
    | Drawing(data: Segment)
    | Clear(board: BoardId)
    | Disconnect

  /** One event as it arrives at the server, tagged with the connection it came from. */
  datatype Input = Input(from: ConnId, event: Event)

  /** An outbound message: `load-history`, a relayed `drawing`, or a payload-less `clear`. */
  datatype Message =
    | LoadHistory(history: seq<Segment>)
    | Relayed(data: Segment)
    | Cleared

  /** What one event causes to be sent: each addressed connection gets exactly one message. */
  type Outbox = map<ConnId, Message>

  /** True when `e` writes board `b`'s history: a stroke for `b` or a clear of `b`. */
  predicate Touches(e: Event, b: BoardId)
  {
    (e.Drawing? && e.data.boardId == b) || (e.Clear? && e.board == b)
  }
}
