/**
 A run of tunelithd and a client, move by move: the client asks for a stream, a
 tuner is tuned, the client is told, brings its data connection up and hands the
 stream out; a chunk comes, is written and read; then the source ends, the client
 is told, and a read finds the end. So the theorems about streams handed out
 speak of something.
 */
module EndToEndExample {
  import opened Options
  import opened Tunelithd
  import opened TunelithClient
  import opened EndToEnd
  import opened EndToEndRuns
  import X = TunelithdStreams

  lemma {:induction false} AfterOneMore(w: World, moves: seq<Move>, move: Move)
    requires EndToEnd.After(w, moves).Some? && CanMove(EndToEnd.After(w, moves).value, move)
    ensures EndToEnd.After(w, moves + [move]) == Some(Moved(EndToEnd.After(w, moves).value, move))
    decreases |moves|
  {
    if moves == [] {
      assert moves + [move] == [move];
    } else {
      assert (moves + [move])[1..] == moves[1..] + [move];
      AfterOneMore(Moved(w, moves[0]), moves[1..], move);
    }
  }

  lemma Goes(w: World, move: Move, w': World)
    requires EndToEnd.Reachable(w) && CanMove(w, move) && Moved(w, move) == w'
    ensures EndToEnd.Reachable(w')
  {
    var moves :| EndToEnd.After(START, moves) == Some(w);
    AfterOneMore(START, moves, move);
  }

  /* The worlds it goes through: the client 0, its task 0, the tuner 7, the
     session 0 and the stream 5 */

  function Before(calls: map<TaskId, Call>, busy: set<TunerId>, slots: set<TunerId>, x: Inner): World {
    World(Daemon(busy, {}, slots, [], map[], map[], {}, None, calls, map[0 := Client(Some({}), {}, [], 0)],
                 map[], map[]),
          map[0 := x], {}, if x == NEWLY then map[] else ASKED, {})
  }

  const ASKED: map<(ConnId, nat), Wish> := map[(0, 1) := Wish(None, 1)]

  function Acquires(at: AcquirePhase): map<TaskId, Call> {
    map[0 := Acquire(0, 1, None, 1, at)]
  }

  function Serving(calls: map<TaskId, Call>, client: Client, unattached: set<Token>, phase: Phase, took: seq<Chunk>,
                   stream: Stream, data: map<Token, DataPhase>, x: Inner): World {
    World(Daemon({7}, {}, {7}, [0], map[0 := Session(1, 7, phase, map[5 := Subscriber(0, 0)], false, true, took)],
                 map[5 := 0], unattached, None, calls, map[0 := client], map[5 := stream], data),
          map[0 := x], {}, ASKED, {})
  }

  function Over(phase: Phase, subs: map<Token, Subscriber>, lock: Option<SessionId>, client: Client, stream: Stream,
                data: map<Token, DataPhase>, x: Inner): World {
    World(Daemon({7}, {7}, {7}, [], map[0 := Session(1, 7, phase, subs, false, true, [CHUNK])],
                 map[], {}, lock, map[], map[0 := client], map[5 := stream], data),
          map[0 := x], {}, ASKED, {})
  }

  const CHUNK: Chunk := [0]
  const TOLD := [Acquired(1, 5)]
  const GONE := StreamEndEvent(5, "")
  const WHY := SourceEnded(None)
  const NEW := Stream(0, 0, [], true, 0, [], [], [], None, false)
  const ATTACHED := Stream(0, 0, [], true, 0, [], [], [], None, true)
  const QUEUED := Stream(0, 0, [CHUNK], true, 0, [Offered(CHUNK, true)], [], [], None, true)
  const WRITTEN := Stream(0, 0, [], true, 0, [Offered(CHUNK, true)], [CHUNK], [], None, true)
  const ENDED := Stream(0, 0, [], true, 0, [Offered(CHUNK, true)], [CHUNK], [], Some(""), true)
  const HUNG_UP := Stream(0, 0, [], false, 0, [Offered(CHUNK, true)], [CHUNK], [], Some(""), true)
  const SERVED: map<Token, DataPhase> := map[5 := Streaming]

  function Owner(sent: seq<Message>, received: nat): Client {
    Client(Some({5}), {}, sent, received)
  }

  const ASKING := Inner(true, 2, map[1 := true], map[], map[], map[], map[], map[])
  const TAKING := Inner(true, 2, map[], map[1 := 5], map[], map[], map[], map[])

  function Holding(hold: Hold, read: nat, end: End): Inner {
    Inner(true, 2, map[], map[], map[5 := 0], map[5 := end], map[5 := hold], map[5 := read])
  }

  /* The client asks, and a tuner is tuned */

  lemma AskedIsReached()
    ensures EndToEnd.Reachable(Before(Acquires(Looking), {}, {}, ASKING))
  {
    var open := Before(map[], {}, {}, NEWLY);
    assert EndToEnd.After(START, []) == Some(START);
    assert INITIAL.conns[0 := Client(Some({}), {}, [], 0)] == open.d.conns;
    Goes(START, Move.Open(0), open);
    assert NEWLY.pending[1 := true] == map[1 := true] && open.asked[(0, 1) := Wish(None, 1)] == ASKED;
    Goes(open, Move.Call(0, 0, None, 1), Before(Acquires(Looking), {}, {}, ASKING));
  }

  lemma ChoosingIsReached()
    ensures EndToEnd.Reachable(Before(Acquires(Choosing), {}, {}, ASKING))
  {
    AskedIsReached();
    Goes(Before(Acquires(Looking), {}, {}, ASKING), Own(Acquiring(0, NothingShared)),
         Before(Acquires(Choosing), {}, {}, ASKING));
  }

  lemma ReservedIsReached()
    ensures EndToEnd.Reachable(Before(Acquires(Reserved(7)), {7}, {}, ASKING))
  {
    ChoosingIsReached();
    Goes(Before(Acquires(Choosing), {}, {}, ASKING), Own(Acquiring(0, Reserve(7))),
         Before(Acquires(Reserved(7)), {7}, {}, ASKING));
  }

  lemma OpenedIsReached()
    ensures EndToEnd.Reachable(Before(Acquires(Opened(7)), {7}, {7}, ASKING))
  {
    ReservedIsReached();
    Goes(Before(Acquires(Reserved(7)), {7}, {}, ASKING), Own(Acquiring(0, OpenTuner)),
         Before(Acquires(Opened(7)), {7}, {7}, ASKING));
  }

  /* It has its stream */

  function Tuning(calls: map<TaskId, Call>, client: Client, x: Inner): World {
    Serving(calls, client, {5}, Running, [], NEW, map[], x)
  }

  lemma TuningIs()
    ensures var d := Before(Acquires(Opened(7)), {7}, {7}, ASKING).d;
            AcquireEnabled(d, 0, Tuned(0, 5))
            && ApplyAcquire(d, 0, Tuned(0, 5)) == Tuning(Acquires(Subscribed(5)), Client(Some({}), {}, [], 0), ASKING).d
  {
  }

  lemma TunedIsReached()
    ensures EndToEnd.Reachable(Tuning(Acquires(Subscribed(5)), Client(Some({}), {}, [], 0), ASKING))
  {
    OpenedIsReached();
    TuningIs();
    Goes(Before(Acquires(Opened(7)), {7}, {7}, ASKING), Own(Acquiring(0, Tuned(0, 5))),
         Tuning(Acquires(Subscribed(5)), Client(Some({}), {}, [], 0), ASKING));
  }

  lemma KeepingIs()
    ensures var d := Tuning(Acquires(Subscribed(5)), Client(Some({}), {}, [], 0), ASKING).d;
            AcquireEnabled(d, 0, Keep)
            && ApplyAcquire(d, 0, Keep) == Tuning(map[0 := Answering(0, Acquired(1, 5))], Owner([], 0), ASKING).d
  {
    assert {} + {5} == {5};
  }

  lemma KeptIsReached()
    ensures EndToEnd.Reachable(Tuning(map[0 := Answering(0, Acquired(1, 5))], Owner([], 0), ASKING))
  {
    TunedIsReached();
    KeepingIs();
    Goes(Tuning(Acquires(Subscribed(5)), Client(Some({}), {}, [], 0), ASKING), Own(Acquiring(0, Keep)),
         Tuning(map[0 := Answering(0, Acquired(1, 5))], Owner([], 0), ASKING));
  }

  lemma AnsweredIsReached()
    ensures EndToEnd.Reachable(Tuning(map[], Owner(TOLD, 0), ASKING))
  {
    KeptIsReached();
    var w := Tuning(map[0 := Answering(0, Acquired(1, 5))], Owner([], 0), ASKING);
    assert [] + TOLD == TOLD && w.d.calls - {0} == map[];
    assert Send(w.d.conns, 0, TOLD) == map[0 := Owner(TOLD, 0)];
    Goes(w, Own(Control(Answer(0))), Tuning(map[], Owner(TOLD, 0), ASKING));
  }

  /* It is handed out */

  lemma ReceivedIsReached()
    ensures EndToEnd.Reachable(Tuning(map[], Owner(TOLD, 1), TAKING))
  {
    AnsweredIsReached();
    assert ASKING.pending - {1} == map[] && ASKING.answers[1 := 5] == map[1 := 5];
    assert Took(ASKING, Acquired(1, 5)) == TAKING;
    Goes(Tuning(map[], Owner(TOLD, 0), ASKING), Move.Receive(0, 0), Tuning(map[], Owner(TOLD, 1), TAKING));
  }

  lemma KnownIsReached()
    ensures EndToEnd.Reachable(Tuning(map[], Owner(TOLD, 1), Holding(Registered, 0, Pending)))
  {
    ReceivedIsReached();
    assert TAKING.answers - {1} == map[];
    assert Resumed(TAKING, 1) == Holding(Registered, 0, Pending);
    Goes(Tuning(map[], Owner(TOLD, 1), TAKING), Move.Resume(0, 1),
         Tuning(map[], Owner(TOLD, 1), Holding(Registered, 0, Pending)));
  }

  function Streams(phase: Phase, took: seq<Chunk>, stream: Stream, x: Inner): World {
    Serving(map[], Owner(TOLD, 1), {}, phase, took, stream, SERVED, x)
  }

  lemma AttachingIs()
    ensures var w := Tuning(map[], Owner(TOLD, 1), Holding(Registered, 0, Pending));
            DataEnabled(w.d, 5, Attach)
            && ApplyData(w.d, 5, Attach) == Streams(Running, [], ATTACHED, Holding(Hold.Attached, 0, Pending)).d
  {
    var d := Tuning(map[], Owner(TOLD, 1), Holding(Registered, 0, Pending)).d;
    assert d.unattached - {5} == {} && d.data[5 := Streaming] == SERVED;
    assert d.streams[5 := ATTACHED] == map[5 := ATTACHED];
  }

  lemma ConnectedIsReached()
    ensures EndToEnd.Reachable(Streams(Running, [], ATTACHED, Holding(Hold.Attached, 0, Pending)))
  {
    KnownIsReached();
    AttachingIs();
    var x := Holding(Registered, 0, Pending);
    assert x.held[5 := Hold.Attached] == map[5 := Hold.Attached];
    Goes(Tuning(map[], Owner(TOLD, 1), x), AttachData(0, 5),
         Streams(Running, [], ATTACHED, Holding(Hold.Attached, 0, Pending)));
  }

  lemma HandedIsReached()
    ensures EndToEnd.Reachable(Streams(Running, [], ATTACHED, Holding(Handed, 0, Pending)))
  {
    ConnectedIsReached();
    var x := Holding(Hold.Attached, 0, Pending);
    assert x.held[5 := Handed] == map[5 := Handed];
    Goes(Streams(Running, [], ATTACHED, x), Move.HandOut(0, 5),
         Streams(Running, [], ATTACHED, Holding(Handed, 0, Pending)));
  }

  /* A chunk comes, is written and read */

  lemma TakingIs()
    ensures var d := Streams(Running, [], ATTACHED, Holding(Handed, 0, Pending)).d;
            FanOutEnabled(d, 0, TakeChunk(CHUNK))
            && ApplyFanOut(d, 0, TakeChunk(CHUNK))
                 == Streams(Sending(CHUNK, {5}), [CHUNK], ATTACHED, Holding(Handed, 0, Pending)).d
  {
    assert [] + [CHUNK] == [CHUNK];
    assert Streams(Running, [], ATTACHED, Holding(Handed, 0, Pending)).d.sess[0].subs.Keys == {5};
  }

  lemma TakenIsReached()
    ensures EndToEnd.Reachable(Streams(Sending(CHUNK, {5}), [CHUNK], ATTACHED, Holding(Handed, 0, Pending)))
  {
    HandedIsReached();
    TakingIs();
    Goes(Streams(Running, [], ATTACHED, Holding(Handed, 0, Pending)), Own(FanOut(0, TakeChunk(CHUNK))),
         Streams(Sending(CHUNK, {5}), [CHUNK], ATTACHED, Holding(Handed, 0, Pending)));
  }

  lemma OfferingIs()
    ensures var d := Streams(Sending(CHUNK, {5}), [CHUNK], ATTACHED, Holding(Handed, 0, Pending)).d;
            FanOutEnabled(d, 0, Offer(5))
            && OfferTo(d, 0, 5) == Streams(Sending(CHUNK, {}), [CHUNK], QUEUED, Holding(Handed, 0, Pending)).d
  {
    var d := Streams(Sending(CHUNK, {5}), [CHUNK], ATTACHED, Holding(Handed, 0, Pending)).d;
    var none: seq<nat> := [];
    assert TOLD + [] == TOLD && none + none == none && [] + [CHUNK] == [CHUNK] && {5} - {5} == {};
    assert [] + [Offered(CHUNK, true)] == [Offered(CHUNK, true)];
    assert d.sess[0].subs[5 := Subscriber(0, 0)] == d.sess[0].subs && Send(d.conns, 0, []) == d.conns;
  }

  lemma SentIsReached()
    ensures EndToEnd.Reachable(Streams(Sending(CHUNK, {}), [CHUNK], QUEUED, Holding(Handed, 0, Pending)))
  {
    TakenIsReached();
    OfferingIs();
    Goes(Streams(Sending(CHUNK, {5}), [CHUNK], ATTACHED, Holding(Handed, 0, Pending)), Own(FanOut(0, Offer(5))),
         Streams(Sending(CHUNK, {}), [CHUNK], QUEUED, Holding(Handed, 0, Pending)));
  }

  lemma OfferedIsReached()
    ensures EndToEnd.Reachable(Streams(Running, [CHUNK], QUEUED, Holding(Handed, 0, Pending)))
  {
    SentIsReached();
    var w := Streams(Sending(CHUNK, {}), [CHUNK], QUEUED, Holding(Handed, 0, Pending));
    assert 5 in w.d.sess[0].subs;
    assert ApplyFanOut(w.d, 0, AllOffered) == Streams(Running, [CHUNK], QUEUED, Holding(Handed, 0, Pending)).d;
    Goes(w, Own(FanOut(0, AllOffered)), Streams(Running, [CHUNK], QUEUED, Holding(Handed, 0, Pending)));
  }

  lemma WritingIs()
    ensures var d := Streams(Running, [CHUNK], QUEUED, Holding(Handed, 0, Pending)).d;
            DataEnabled(d, 5, HandOver)
            && ApplyData(d, 5, HandOver) == Streams(Running, [CHUNK], WRITTEN, Holding(Handed, 0, Pending)).d
  {
    assert [] + [CHUNK] == [CHUNK] && [CHUNK][1..] == [];
  }

  lemma WrittenIsReached()
    ensures EndToEnd.Reachable(Streams(Running, [CHUNK], WRITTEN, Holding(Handed, 0, Pending)))
  {
    OfferedIsReached();
    WritingIs();
    Goes(Streams(Running, [CHUNK], QUEUED, Holding(Handed, 0, Pending)), Own(Data(5, HandOver)),
         Streams(Running, [CHUNK], WRITTEN, Holding(Handed, 0, Pending)));
  }

  lemma ReadIsReached()
    ensures EndToEnd.Reachable(Streams(Running, [CHUNK], WRITTEN, Holding(Handed, 1, Pending)))
  {
    WrittenIsReached();
    var w := Streams(Running, [CHUNK], WRITTEN, Holding(Handed, 0, Pending));
    assert w.clients[0].read[5 := 1] == map[5 := 1];
    Goes(w, Move.Read(0, 5), Streams(Running, [CHUNK], WRITTEN, Holding(Handed, 1, Pending)));
  }

  /* The source ends, and the client is told */

  lemma EndingIsReached()
    ensures EndToEnd.Reachable(Streams(Ending(WHY), [CHUNK], WRITTEN, Holding(Handed, 1, Pending)))
  {
    ReadIsReached();
    Goes(Streams(Running, [CHUNK], WRITTEN, Holding(Handed, 1, Pending)), Own(FanOut(0, SourceEnds(None))),
         Streams(Ending(WHY), [CHUNK], WRITTEN, Holding(Handed, 1, Pending)));
  }

  function DrainingIt(): World {
    Over(Draining(WHY), map[5 := Subscriber(0, 0)], Some(0), Owner(TOLD, 1), WRITTEN, SERVED,
         Holding(Handed, 1, Pending))
  }

  function DrainedIt(phase: Phase, lock: Option<SessionId>): World {
    Over(phase, map[], lock, Owner(TOLD + [GONE], 1), ENDED, SERVED, Holding(Handed, 1, Pending))
  }

  lemma OursAre()
    ensures TokensOf(map[5 := 0], 0) == {5}
  {
    assert 5 in map[5 := 0];
  }

  lemma PurgeIs()
    ensures var d := Streams(Ending(WHY), [CHUNK], WRITTEN, Holding(Handed, 1, Pending)).d;
            FanOutEnabled(d, 0, EndBegin) && Purge(d, 0) == DrainingIt().d
  {
    var d := Streams(Ending(WHY), [CHUNK], WRITTEN, Holding(Handed, 1, Pending)).d;
    OursAre();
    assert {5} * d.unattached == {} && WithoutReceivers(d.streams, {}) == d.streams;
    assert d.tokens - {5} == map[] && d.closing + {7} == {7} && d.unattached - {5} == {};
    assert Without(d.sessions, 0) == [];
  }

  lemma DrainingIsReached()
    ensures EndToEnd.Reachable(DrainingIt())
  {
    EndingIsReached();
    PurgeIs();
    Goes(Streams(Ending(WHY), [CHUNK], WRITTEN, Holding(Handed, 1, Pending)), Own(FanOut(0, EndBegin)), DrainingIt());
  }

  lemma FarewellIs()
    ensures FanOutEnabled(DrainingIt().d, 0, EndOne(5))
    ensures Farewell(DrainingIt().d, 0, 5) == DrainedIt(Draining(WHY), Some(0)).d
  {
    var none: seq<nat> := [];
    assert none + none == none && [] + [GONE] == [GONE] && DrainingIt().d.sess[0].subs - {5} == map[];
    assert Send(DrainingIt().d.conns, 0, [GONE]) == map[0 := Owner(TOLD + [GONE], 1)];
  }

  lemma DrainedIsReached()
    ensures EndToEnd.Reachable(DrainedIt(Draining(WHY), Some(0)))
  {
    DrainingIsReached();
    FarewellIs();
    Goes(DrainingIt(), Own(FanOut(0, EndOne(5))), DrainedIt(Draining(WHY), Some(0)));
  }

  lemma UnlockingIs()
    ensures var d := DrainedIt(Draining(WHY), Some(0)).d;
            FanOutEnabled(d, 0, EndUnlock) && ApplyFanOut(d, 0, EndUnlock) == DrainedIt(Closing, None).d
  {
  }

  lemma EndedIsReached()
    ensures EndToEnd.Reachable(DrainedIt(Closing, None))
  {
    DrainedIsReached();
    UnlockingIs();
    Goes(DrainedIt(Draining(WHY), Some(0)), Own(FanOut(0, EndUnlock)), DrainedIt(Closing, None));
  }

  function Heard(stream: Stream, data: map<Token, DataPhase>): World {
    Over(Closing, map[], None, Owner(TOLD + [GONE], 2), stream, data, Holding(Handed, 1, End.Ended(None)))
  }

  lemma HearingIs()
    ensures CanMove(DrainedIt(Closing, None), Move.Receive(0, 0))
    ensures Moved(DrainedIt(Closing, None), Move.Receive(0, 0)) == Heard(ENDED, SERVED)
  {
    var w := DrainedIt(Closing, None);
    assert Next(w.d, 0) == GONE;
    assert w.clients[0].ends[5 := End.Ended(None)] == map[5 := End.Ended(None)];
    assert Took(w.clients[0], GONE) == Holding(Handed, 1, End.Ended(None));
  }

  lemma HangingUpIs()
    ensures var d := Heard(ENDED, SERVED).d;
            && DataEnabled(d, 5, HangUp) && Drained(d, 5)
            && ApplyData(d, 5, HangUp) == Heard(HUNG_UP, map[5 := Finishing]).d
  {
    assert SERVED[5 := Finishing] == map[5 := Finishing];
  }

  // So what the theorems speak of comes about: a stream handed out, all of it
  // read, whose end is found.
  lemma AnEndIsFound() returns (w: World)
    ensures EndToEnd.Reachable(w) && HandedOut(w, 0, 5) && !X.Served(w.d, 5) && PollEof(w.clients[0], 5) == Ends
    ensures 5 in w.d.streams && w.d.streams[5].handed == [CHUNK]
    ensures 5 in w.clients[0].read && w.clients[0].read[5] == 1
  {
    EndedIsReached();
    HearingIs();
    HangingUpIs();
    w := Heard(HUNG_UP, map[5 := Finishing]);
    Goes(DrainedIt(Closing, None), Move.Receive(0, 0), Heard(ENDED, SERVED));
    Goes(Heard(ENDED, SERVED), Own(Data(5, HangUp)), w);
  }
}
