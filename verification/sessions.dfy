/**
 Room membership as socket.io keeps it: for each room, the set of sockets in
 it. `socket.join` only ever adds; the library drops a socket from all of its
 rooms when it disconnects. Broadcasting with `socket.to(room)` reaches the
 room's members other than the emitting socket.
 */
module Sessions {
  import opened Protocol

  type Rooms = map<BoardId, set<ConnId>>

  /** No socket is in any room when the server starts. */
  const NoRooms: Rooms := map[]

  /** The sockets currently in room `b`. */
  function Members(r: Rooms, b: BoardId): set<ConnId>
  {
    if b in r then r[b] else {}
  }

  /** `socket.join(b)`: `c` enters `b` and keeps every room it was already in. */
  function Join(r: Rooms, c: ConnId, b: BoardId): (r': Rooms)
    ensures Members(r', b) == Members(r, b) + {c}
    ensures forall k {:trigger Members(r', k)} :: k != b ==> Members(r', k) == Members(r, k)
  {
    r[b := Members(r, b) + {c}]
  }

  /** The recipients of `socket.to(b).emit(...)` issued by `sender`. */
  function Audience(r: Rooms, b: BoardId, sender: ConnId): (a: set<ConnId>)
    ensures sender !in a
    ensures forall c :: c in a <==> c in Members(r, b) && c != sender
  {
    Members(r, b) - {sender}
  }

  /** What socket.io does on disconnect: `c` leaves every room and nothing else changes. */
  function Drop(r: Rooms, c: ConnId): (r': Rooms)
    ensures forall k {:trigger Members(r', k)} :: Members(r', k) == Members(r, k) - {c}
  {
    map k | k in r :: r[k] - {c}
  }
}
