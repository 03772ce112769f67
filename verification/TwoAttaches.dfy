/**
 Why attaches of one session must not overlap: the relay sends the frames of
 any snapshot to every client with a pending attach, whoever it is meant for.
 */
module TwoAttaches {
  import opened Bytes
  import opened RingBuffer
  import opened Sessions
  import opened Frames
  import opened Pieces
  import opened Delivery
  import opened Answers

  const A: Cid := "a"
  const B: Cid := "b"

  const BOTH_ATTACH := [Join(A, 0), Join(B, 2), Attach(B), Attach(A), RelayControl, RelayControl]
  const B_ANSWERED := [Replay([]), Route, Apply(A)]

  function Fresh(l: nat): Client { Client([], [], l, true, l, true) }

  function Asked2(): State {
    State([5, 6, 7], 8, 1, 3, [], 3, map[B := true, A := true], [], [Attachment(B, 2), Attachment(A, 0)],
          map[A := Fresh(0), B := Fresh(2)])
  }

  /** The delta from offset 2 that B asked for. */
  function DeltaOfB(): Item { Item(Frame(SNAPSHOT, 0, 1, 3, [7]), 2) }

  lemma BothPending()
    ensures Run(Initial([5, 6, 7], 8, 1), BOTH_ATTACH) == Asked2()
  {
    var s := Initial([5, 6, 7], 8, 1);
    var s1 := Step(s, Join(A, 0));
    var s2 := Step(s1, Join(B, 2));
    assert s2.clients == map[A := Client([], [], 0, false, 0, true), B := Client([], [], 2, false, 2, true)];
    var s3 := Step(s2, Attach(B));
    var s4 := Step(s3, Attach(A));
    assert s4 == s.(clients := map[A := Fresh(0), B := Fresh(2)], sent := [Ask(Attachment(B, 2)), Ask(Attachment(A, 0))]);
    Unroll(s, BOTH_ATTACH, s1);
    Unroll(s1, BOTH_ATTACH[1..], s2);
    Unroll(s2, BOTH_ATTACH[2..], s3);
    Unroll(s3, BOTH_ATTACH[3..], s4);
    RelayMarksBoth(s4);
  }

  lemma RelayMarksBoth(s4: State)
    requires s4 == Initial([5, 6, 7], 8, 1).(clients := map[A := Fresh(0), B := Fresh(2)],
                                             sent := [Ask(Attachment(B, 2)), Ask(Attachment(A, 0))])
    ensures Run(s4, BOTH_ATTACH[4..]) == Asked2()
  {
    var s5 := Step(s4, RelayControl);
    var s6 := Step(s5, RelayControl);
    assert s6 == Asked2();
    Unroll(s4, BOTH_ATTACH[4..], s5);
    Unroll(s5, BOTH_ATTACH[5..], s6);
  }

  lemma Unroll(s: State, es: seq<Event>, t: State)
    requires es != [] && t == Step(s, es[0])
    ensures Run(s, es) == Run(t, es[1..])
  {
  }

  /** The relay routes the one frame that answers B. */
  lemma Answer(s: State)
    requires s == Asked2()
    ensures Step(s, Replay([])) == s.(toAgent := [Attachment(A, 0)], toRelay := [DeltaOfB()])
  {
    assert FlushStep(s) == s && s.stream + [] == s.stream;
    assert s.stream[2..] == [7];
    assert Tag([DeltaOfB().f], 2)[1..] == [];
  }

  /**
   A starts at offset 0 and should see bytes 0 to 3; B asked first, for offset
   2, which the ring still has and A has not reached. So, as for every pending
   client, the answer completes A and leaves a gap.
   */
  lemma SecondAttachLosesBytes()
    ensures var s := Run(Run(Run(Initial([5, 6, 7], 8, 1), BOTH_ATTACH), [Replay([])]), [Route]);
      && A in s.clients && A in s.attached && !s.attached[A]
      && !NoGap(Log(s.clients[A]), s.clients[A].base)
  {
    BothPending();
    var s := Asked2();
    Answer(s);
    Unroll(s, [Replay([])], Step(s, Replay([])));
    assert [Replay([])][1..] == [] && [Route][1..] == [];
    assert Routes([Route]) == 1;
    assert s.stream + [] == s.stream;
    AnswerReachesPending(s, [], [Route], A, 2);
  }

  /** And A believes it has everything up to 3, so it will never ask for bytes 0 and 1 again. */
  lemma LostForGood()
    ensures var s := Run(Run(Initial([5, 6, 7], 8, 1), BOTH_ATTACH), B_ANSWERED);
      && A in s.clients && s.clients[A].base == 0 && s.clients[A].lastSeq == 3
      && s.clients[A].shown == [DeltaOfB()] && !Shows(s.clients[A].shown, 0)
  {
    BothPending();
    var s := Asked2();
    var s1 := Step(s, Replay([]));
    Answer(s);
    var s2 := Step(s1, Route);
    var s3 := Step(s2, Apply(A));
    assert s2.clients[A] == Fresh(0).(queue := [DeltaOfB()]);
    assert s3.clients[A] == Fresh(0).(shown := [DeltaOfB()], lastSeq := 3);
    Unroll(s, B_ANSWERED, s1);
    Unroll(s1, B_ANSWERED[1..], s2);
    Unroll(s2, B_ANSWERED[2..], s3);
    assert Init([DeltaOfB()]) == [];
  }
}
