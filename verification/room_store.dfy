/**
 The `boardHistory` store: a map from board id to the strokes drawn on that
 board since it was last cleared, in arrival order. A board has an entry once
 something was drawn on it or it was cleared; joining alone never creates one.
 */
module RoomStore {
  import opened Protocol

  type Store = map<BoardId, seq<Segment>>

  /** The store when the server starts. */
  const Empty: Store := map[]

  /** The strokes recorded for `b`; a board with no entry has none. */
  function Log(s: Store, b: BoardId): seq<Segment>
  {
    if b in s then s[b] else []
  }

  /** The history a joiner is sent: present exactly when the board has an entry. */
  function Snapshot(s: Store, b: BoardId): (r: Option<seq<Segment>>)
    ensures r.Some? <==> b in s
    ensures r.Some? ==> r.value == Log(s, b)
    ensures r.None? ==> Log(s, b) == []
  {
    if b in s then Some(s[b]) else None
  }

  /** Record one stroke at the end of `b`'s history, creating the entry if absent. */
  function Append(s: Store, b: BoardId, seg: Segment): (r: Store)
    ensures r.Keys == s.Keys + {b}
    ensures Log(r, b) == Log(s, b) + [seg]
    ensures |Log(r, b)| == |Log(s, b)| + 1 && Log(r, b)[|Log(s, b)|] == seg
    ensures forall k {:trigger Log(r, k)} :: k != b ==> Log(r, k) == Log(s, k)
  {
    s[b := Log(s, b) + [seg]]
  }

  /** Forget every stroke of `b`, leaving an empty (but present) entry. */
  function Reset(s: Store, b: BoardId): (r: Store)
    ensures r.Keys == s.Keys + {b}
    ensures Log(r, b) == []
    ensures forall k {:trigger Log(r, k)} :: k != b ==> Log(r, k) == Log(s, k)
  {
    s[b := []]
  }

  /** A cleared board is not a never-touched board: its snapshot is an empty history. */
  lemma SnapshotAfterReset(s: Store, b: BoardId)
    ensures Snapshot(Reset(s, b), b) == Some([])
  {
  }

  /** Appending is observed by the next snapshot, which ends with the new stroke. */
  lemma SnapshotAfterAppend(s: Store, b: BoardId, seg: Segment)
    ensures Snapshot(Append(s, b, seg), b) == Some(Log(s, b) + [seg])
  {
  }
}
