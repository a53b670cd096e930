/**
 Runs of the relay over a sequence of inbound events, and what they guarantee:
 a board's history is exactly the strokes drawn on it since its last clear, in
 arrival order; a joiner's history followed by the strokes it later draws or is
 relayed is that history again, with nothing lost or repeated; a socket outside
 a room never hears of that room's strokes or clears; joining never leaves a room.
 */
module Traces {
  import opened Protocol
  import opened RoomStore
  import opened Sessions
  import opened Relay

  /** The final state of a run and, per input, the messages that input caused. */
  datatype Run = Run(final: State, outs: seq<Outbox>)

  /** Handle the inputs one at a time, in arrival order. */
  function Execute(st: State, t: seq<Input>): (r: Run)
    ensures |r.outs| == |t|
    decreases |t|
  {
    if |t| == 0 then Run(st, [])
    else
      var first := Step(st, t[0]);
      var rest := Execute(first.next, t[1..]);
      Run(rest.final, [first.out] + rest.outs)
  }

  /** The stroke `e` draws on `b`, if any. */
  function Drawn(e: Event, b: BoardId): seq<Segment>
  {
    if e.Drawing? && e.data.boardId == b then [e.data] else []
  }

  /** The payloads of the `drawing` events for `b` in `t`, in arrival order. */
  function DrawnFor(t: seq<Input>, b: BoardId): seq<Segment>
    decreases |t|
  {
    if |t| == 0 then [] else Drawn(t[0].event, b) + DrawnFor(t[1..], b)
  }

  /** A non-empty run ends where the run of the rest, started after the first step, ends. */
  lemma ExecuteFinal(st: State, t: seq<Input>)
    requires |t| > 0
    ensures Execute(st, t).final == Execute(Step(st, t[0]).next, t[1..]).final
  {
  }

  /** A non-empty run's messages are the first step's, then those of the rest. */
  lemma ExecuteOuts(st: State, t: seq<Input>)
    requires |t| > 0
    ensures Execute(st, t).outs[0] == Step(st, t[0]).out
    ensures Execute(st, t).outs[1..] == Execute(Step(st, t[0]).next, t[1..]).outs
  {
  }

  /** Regrouping `a + b` followed by `c` as `a` followed by `b + c`. */
  lemma Regroup<T>(whole: seq<T>, front: seq<T>, a: seq<T>, b: seq<T>, c: seq<T>, bc: seq<T>)
    requires whole == front + c && front == a + b && bc == b + c
    ensures whole == a + bc
  {
  }

  /** One step that does not clear `b` extends `b`'s history by the stroke it draws there. */
  lemma StepExtendsLog(st: State, i: Input, b: BoardId)
    requires i.event != Clear(b)
    ensures Log(Step(st, i).next.store, b) == Log(st.store, b) + Drawn(i.event, b)
    ensures b in Step(st, i).next.store <==> b in st.store || Drawn(i.event, b) != []
  {
  }

  predicate NoClearOf(t: seq<Input>, b: BoardId)
  {
    forall i :: 0 <= i < |t| ==> t[i].event != Clear(b)
  }

  predicate NoDisconnectOf(t: seq<Input>, c: ConnId)
  {
    forall i :: 0 <= i < |t| ==> t[i] != Input(c, Disconnect)
  }

  predicate NoJoinOf(t: seq<Input>, c: ConnId, b: BoardId)
  {
    forall i :: 0 <= i < |t| ==> t[i] != Input(c, JoinRoom(b))
  }

  lemma NoClearTail(t: seq<Input>, b: BoardId)
    requires |t| > 0 && NoClearOf(t, b)
    ensures t[0].event != Clear(b) && NoClearOf(t[1..], b)
  {
  }

  lemma NoDisconnectTail(t: seq<Input>, c: ConnId)
    requires |t| > 0 && NoDisconnectOf(t, c)
    ensures t[0] != Input(c, Disconnect) && NoDisconnectOf(t[1..], c)
  {
  }

  lemma NoJoinTail(t: seq<Input>, c: ConnId, b: BoardId)
    requires |t| > 0 && NoJoinOf(t, c, b)
    ensures t[0] != Input(c, JoinRoom(b)) && NoJoinOf(t[1..], c, b)
  {
  }

  /** Running two stretches of input back to back is running their concatenation. */
  lemma {:induction false} ExecuteConcat(st: State, t1: seq<Input>, t2: seq<Input>)
    ensures Execute(st, t1 + t2).final == Execute(Execute(st, t1).final, t2).final
    ensures Execute(st, t1 + t2).outs == Execute(st, t1).outs + Execute(Execute(st, t1).final, t2).outs
    decreases |t1|
  {
    if |t1| > 0 {
      assert (t1 + t2)[1..] == t1[1..] + t2;
      ExecuteConcat(Step(st, t1[0]).next, t1[1..], t2);
    } else {
      assert t1 + t2 == t2;
    }
  }

  /**
   With no clear of `b` in between, `b`'s history grows by exactly the strokes
   drawn on it, in arrival order.
   */
  lemma {:induction false} DrawingsAccumulate(st: State, t: seq<Input>, b: BoardId)
    requires NoClearOf(t, b)
    ensures Log(Execute(st, t).final.store, b) == Log(st.store, b) + DrawnFor(t, b)
    decreases |t|
  {
    if |t| > 0 {
      var s1 := Step(st, t[0]).next;
      NoClearTail(t, b);
      DrawingsAccumulate(s1, t[1..], b);
      ExecuteFinal(st, t);
      StepExtendsLog(st, t[0], b);
      Regroup(Log(Execute(st, t).final.store, b), Log(s1.store, b),
              Log(st.store, b), Drawn(t[0].event, b), DrawnFor(t[1..], b), DrawnFor(t, b));
    }
  }

  /** Without a clear, `b` has an entry at the end iff it had one or a stroke was drawn on it. */
  lemma {:induction false} EntryCreatedByDrawing(st: State, t: seq<Input>, b: BoardId)
    requires NoClearOf(t, b)
    ensures b in Execute(st, t).final.store <==> b in st.store || DrawnFor(t, b) != []
    decreases |t|
  {
    if |t| > 0 {
      var s1 := Step(st, t[0]).next;
      NoClearTail(t, b);
      EntryCreatedByDrawing(s1, t[1..], b);
      ExecuteFinal(st, t);
      StepExtendsLog(st, t[0], b);
    }
  }

  /** A board's history is exactly the strokes drawn on it since its most recent clear. */
  lemma HistorySinceLastClear(st: State, before: seq<Input>, x: ConnId, b: BoardId, after: seq<Input>)
    requires NoClearOf(after, b)
    ensures Log(Execute(st, before + [Input(x, Clear(b))] + after).final.store, b) == DrawnFor(after, b)
    ensures b in Execute(st, before + [Input(x, Clear(b))] + after).final.store
  {
    var mid := Execute(st, before).final;
    ExecuteConcat(st, before, [Input(x, Clear(b))]);
    ExecuteConcat(st, before + [Input(x, Clear(b))], after);
    var cleared := Execute(st, before + [Input(x, Clear(b))]).final;
    assert cleared == Step(mid, Input(x, Clear(b))).next;
    DrawingsAccumulate(cleared, after, b);
    EntryCreatedByDrawing(cleared, after, b);
  }

  /** Joining never removes a socket from a room; only its own disconnect does. */
  lemma {:induction false} MembershipSticks(st: State, t: seq<Input>, c: ConnId, b: BoardId)
    requires c in Members(st.rooms, b)
    requires NoDisconnectOf(t, c)
    ensures c in Members(Execute(st, t).final.rooms, b)
    decreases |t|
  {
    if |t| > 0 {
      NoDisconnectTail(t, c);
      MembershipSticks(Step(st, t[0]).next, t[1..], c, b);
      ExecuteFinal(st, t);
    }
  }

  /**
   What `c` has on board `b`'s canvas because of one input: its own stroke for
   `b`, or a stroke for `b` relayed to it.
   */
  function Witnessed(c: ConnId, b: BoardId, i: Input, out: Outbox): seq<Segment>
  {
    if i.from == c && i.event.Drawing? && i.event.data.boardId == b then [i.event.data]
    else if c in out && out[c].Relayed? && out[c].data.boardId == b then [out[c].data]
    else []
  }

  function WitnessedAll(c: ConnId, b: BoardId, t: seq<Input>, outs: seq<Outbox>): seq<Segment>
    requires |t| == |outs|
    decreases |t|
  {
    if |t| == 0 then [] else Witnessed(c, b, t[0], outs[0]) + WitnessedAll(c, b, t[1..], outs[1..])
  }

  /** A member of `b` witnesses exactly the stroke a step draws on `b`: its own, or relayed to it. */
  lemma WitnessedIsDrawn(st: State, c: ConnId, b: BoardId, i: Input)
    requires c in Members(st.rooms, b)
    ensures Witnessed(c, b, i, Step(st, i).out) == Drawn(i.event, b)
    ensures c in Members(Step(st, i).next.rooms, b) || i == Input(c, Disconnect)
  {
  }

  /** The history a socket was handed by one join step, or none. */
  function HistorySent(out: Outbox, c: ConnId): seq<Segment>
  {
    if c in out && out[c].LoadHistory? then out[c].history else []
  }

  /**
   While `c` stays in `b` and nobody clears `b`, the history `b` had plus what
   `c` draws or is relayed for `b` is `b`'s history at the end.
   */
  lemma {:induction false} LiveView(st: State, c: ConnId, b: BoardId, t: seq<Input>)
    requires c in Members(st.rooms, b)
    requires NoClearOf(t, b)
    requires NoDisconnectOf(t, c)
    ensures Log(st.store, b) + WitnessedAll(c, b, t, Execute(st, t).outs) == Log(Execute(st, t).final.store, b)
    decreases |t|
  {
    if |t| > 0 {
      var first := Step(st, t[0]);
      var outs := Execute(st, t).outs;
      NoClearTail(t, b);
      NoDisconnectTail(t, c);
      WitnessedIsDrawn(st, c, b, t[0]);
      LiveView(first.next, c, b, t[1..]);
      ExecuteFinal(st, t);
      ExecuteOuts(st, t);
      StepExtendsLog(st, t[0], b);
      assert WitnessedAll(c, b, t, outs) == Witnessed(c, b, t[0], outs[0]) + WitnessedAll(c, b, t[1..], outs[1..]);
      Regroup(Log(Execute(st, t).final.store, b), Log(first.next.store, b),
              Log(st.store, b), Drawn(t[0].event, b), WitnessedAll(c, b, t[1..], outs[1..]),
              WitnessedAll(c, b, t, outs));
    }
  }

  /**
   A socket that joins `b` and is then kept in step: the history it is sent,
   followed by the strokes it draws or is relayed for `b`, equals `b`'s current
   history — no stroke missing, none twice — as long as nobody clears `b` and
   the socket does not disconnect. A never-touched board sends no history.
   */
  lemma JoinReplay(st: State, c: ConnId, b: BoardId, t: seq<Input>)
    requires NoClearOf(t, b)
    requires NoDisconnectOf(t, c)
    ensures var j := Step(st, Input(c, JoinRoom(b)));
            HistorySent(j.out, c) + WitnessedAll(c, b, t, Execute(j.next, t).outs)
              == Log(Execute(j.next, t).final.store, b)
  {
    var j := Step(st, Input(c, JoinRoom(b)));
    assert HistorySent(j.out, c) == Log(j.next.store, b);
    LiveView(j.next, c, b, t);
  }

  /**
   A socket that is not in `b` and does not join it is sent nothing by any
   stroke for `b` or clear of `b`, whoever emits it.
   */
  lemma {:induction false} OutsiderNeverSees(st: State, c: ConnId, b: BoardId, t: seq<Input>)
    requires c !in Members(st.rooms, b)
    requires NoJoinOf(t, c, b)
    ensures forall i :: 0 <= i < |t| && Touches(t[i].event, b) ==> c !in Execute(st, t).outs[i]
    decreases |t|
  {
    if |t| > 0 {
      var first := Step(st, t[0]);
      var r := Execute(st, t);
      var rest := Execute(first.next, t[1..]);
      NoJoinTail(t, c, b);
      ExecuteOuts(st, t);
      assert c !in Members(first.next.rooms, b);
      OutsiderNeverSees(first.next, c, b, t[1..]);
      forall i | 0 <= i < |t| && Touches(t[i].event, b)
        ensures c !in r.outs[i]
      {
        if i > 0 {
          assert t[1..][i - 1] == t[i];
          assert rest.outs[i - 1] == r.outs[i];
        }
      }
    }
  }
}
