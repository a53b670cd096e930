/**
 Concrete runs of the relay that pin down behaviour the general lemmas leave
 implicit: the three-client walk-through of join, draw, clear and re-join, and
 a socket that switches boards without leaving the first one.
 */
module Scenarios {
  import opened Protocol
  import opened RoomStore
  import opened Sessions
  import opened Relay
  import opened Traces

  const Board: BoardId := "abc1234"
  const Stroke: Segment := Segment(Board, 0.0, 0.0, 10.0, 10.0, "#000000", 5.0, "draw")

  const Alice: ConnId := "alice"
  const Bob: ConnId := "bob"
  const Carol: ConnId := "carol"

  /** The states and messages of the walk-through, one input at a time. */
  const Step1: Transition := Step(Initial, Input(Alice, JoinRoom(Board)))
  const Step2: Transition := Step(Step1.next, Input(Alice, Drawing(Stroke)))
  const Step3: Transition := Step(Step2.next, Input(Bob, JoinRoom(Board)))
  const Step4: Transition := Step(Step3.next, Input(Alice, Clear(Board)))
  const Step5: Transition := Step(Step4.next, Input(Carol, JoinRoom(Board)))

  /**
   Alice joins the fresh board and is sent nothing; she draws, and nobody else
   is there to hear it; Bob joins and is sent her stroke; she clears and only
   Bob hears it; Carol joins and is sent an empty history, because a cleared
   board still has an entry.
   */
  lemma WalkThrough()
    ensures Step1.out == map[]
    ensures Step2.out == map[]
    ensures Step3.out == map[Bob := LoadHistory([Stroke])]
    ensures Step4.out == map[Bob := Cleared]
    ensures Step5.out == map[Carol := LoadHistory([])]
  {
    assert Step1.out.Keys == {} && Step2.out.Keys == {};
    assert Log(Step2.next.store, Board) == Log(Empty, Board) + [Stroke] == [Stroke];
    assert Step3.out.Keys == {Bob} && Step3.out[Bob] == LoadHistory([Stroke]);
    assert Members(Step3.next.rooms, Board) == {Alice, Bob};
    assert Step4.out.Keys == {Bob};
    assert Step5.out.Keys == {Carol};
  }

  /**
   A socket that joins `b1` and then `b2` is still in `b1`'s audience: a
   stroke for `b1` from someone else is relayed to it.
   */
  lemma SwitchingBoardsKeepsOldAudience(st: State, c: ConnId, other: ConnId, b1: BoardId, b2: BoardId, d: Segment)
    requires c != other && d.boardId == b1
    ensures var r := Execute(st, [Input(c, JoinRoom(b1)), Input(c, JoinRoom(b2)), Input(other, Drawing(d))]);
            c in r.outs[2] && r.outs[2][c] == Relayed(d)
  {
    var t := [Input(c, JoinRoom(b1)), Input(c, JoinRoom(b2)), Input(other, Drawing(d))];
    var s1 := Step(st, t[0]).next;
    var s2 := Step(s1, t[1]).next;
    assert c in Members(s2.rooms, b1);
    ExecuteOuts(st, t);
    ExecuteOuts(s1, t[1..]);
    ExecuteOuts(s2, t[1..][1..]);
  }
}
