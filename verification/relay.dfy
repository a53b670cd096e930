/**
 The four handlers registered for each connection in `io.on("connection", ...)`.
 Node runs one handler to completion before the next, so each event is one
 atomic step from a state to the next state plus the messages it sends.
 */
module Relay {
  import opened Protocol
  import opened RoomStore
  import opened Sessions

  /** The server's whole state: board histories and room membership. */
  datatype State = State(store: Store, rooms: Rooms)

  const Initial: State := State(Empty, NoRooms)

  /** The outcome of handling one event. */
  datatype Transition = Transition(next: State, out: Outbox)

  /** `join-room`: enter the room; the joiner alone is sent the board's history if it has an entry. */
  function OnJoinRoom(st: State, c: ConnId, b: BoardId): (t: Transition)
    ensures t.next.store == st.store
    ensures Members(t.next.rooms, b) == Members(st.rooms, b) + {c}
    ensures forall k {:trigger Members(t.next.rooms, k)} :: k != b ==> Members(t.next.rooms, k) == Members(st.rooms, k)
    ensures t.out.Keys <= {c}
    ensures c in t.out <==> b in st.store
    ensures c in t.out ==> t.out[c] == LoadHistory(Log(st.store, b))
  {
    var out := match Snapshot(st.store, b)
      case Some(h) => map[c := LoadHistory(h)]
      case None => map[];
    Transition(State(st.store, Join(st.rooms, c, b)), out)
  }

  /** `drawing`: record the stroke under its own `boardId` and relay it to that room, sender excluded. */
  function OnDrawing(st: State, c: ConnId, d: Segment): (t: Transition)
    ensures t.next.rooms == st.rooms
    ensures t.next.store.Keys == st.store.Keys + {d.boardId}
    ensures Log(t.next.store, d.boardId) == Log(st.store, d.boardId) + [d]
    ensures forall k {:trigger Log(t.next.store, k)} :: k != d.boardId ==> Log(t.next.store, k) == Log(st.store, k)
    ensures t.out.Keys == Members(st.rooms, d.boardId) - {c}
    ensures forall r :: r in t.out ==> t.out[r] == Relayed(d)
  {
    var audience := Audience(st.rooms, d.boardId, c);
    Transition(State(Append(st.store, d.boardId, d), st.rooms),
               map r | r in audience :: Relayed(d))
  }

  /** `clear`: empty the board's history (creating it if absent) and tell the room, sender excluded. */
  function OnClear(st: State, c: ConnId, b: BoardId): (t: Transition)
    ensures t.next.rooms == st.rooms
    ensures t.next.store.Keys == st.store.Keys + {b}
    ensures Log(t.next.store, b) == []
    ensures forall k {:trigger Log(t.next.store, k)} :: k != b ==> Log(t.next.store, k) == Log(st.store, k)
    ensures t.out.Keys == Members(st.rooms, b) - {c}
    ensures forall r :: r in t.out ==> t.out[r] == Cleared
  {
    var audience := Audience(st.rooms, b, c);
    Transition(State(Reset(st.store, b), st.rooms), map r | r in audience :: Cleared)
  }

  /** `disconnect`: the handler only logs; the socket leaves its rooms, no history changes. */
  function OnDisconnect(st: State, c: ConnId): (t: Transition)
    ensures t.next.store == st.store
    ensures forall k {:trigger Members(t.next.rooms, k)} :: Members(t.next.rooms, k) == Members(st.rooms, k) - {c}
    ensures t.out == map[]
  {
    Transition(State(st.store, Drop(st.rooms, c)), map[])
  }

  /** Dispatch one inbound event to its handler. */
  function Step(st: State, i: Input): (t: Transition)
    // Only the board the event names can change; join and disconnect change none.
    ensures forall k {:trigger Log(t.next.store, k)} :: !Touches(i.event, k) ==> Log(t.next.store, k) == Log(st.store, k)
    // The sender hears back only from its own join, never an echo of its stroke or clear.
    ensures i.from in t.out ==> i.event.JoinRoom?
    // Everyone else who is sent something is a member of the room the event names.
    ensures forall r :: r in t.out && r != i.from ==>
              && (i.event.Drawing? ==> r in Members(st.rooms, i.event.data.boardId) && t.out[r] == Relayed(i.event.data))
              && (i.event.Clear? ==> r in Members(st.rooms, i.event.board) && t.out[r] == Cleared)
              && !i.event.JoinRoom? && !i.event.Disconnect?
    // Membership is only ever lost by the disconnecting socket itself.
    ensures forall k, c {:trigger c in Members(t.next.rooms, k)} :: c in Members(st.rooms, k) && i != Input(c, Disconnect) ==> c in Members(t.next.rooms, k)
  {
    match i.event
    case JoinRoom(b) => OnJoinRoom(st, i.from, b)
    case Drawing(d) => OnDrawing(st, i.from, d)
    case Clear(b) => OnClear(st, i.from, b)
    case Disconnect => OnDisconnect(st, i.from)
  }
}
