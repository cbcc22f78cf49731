/**
 A control connection lost: the streams a client holds fail, but one whose
 acquire takes its response after that waits for an end nobody tells.
 */
module EndToEndLoss {
  import opened Options
  import opened Tunelithd
  import opened TunelithClient
  import opened EndToEnd
  import opened EndToEndLinks
  import opened EndToEndRuns
  import opened EndToEndExample

  // Since the client held `held`, and lost its connection.
  ghost predicate LostSince(w: World, c: ConnId, held: set<Token>) {
    && c in w.clients
    && var x := w.clients[c];
       && !x.up && x.held.Keys == x.ends.Keys && x.answers.Values !! held
       && forall t :: t in x.ends ==> x.ends[t] == if t in held then Ended(Some(CLOSED)) else Pending
  }

  lemma MovedIsLost(w: World, move: Move, c: ConnId, held: set<Token>)
    requires LostSince(w, c, held) && CanMove(w, move)
    ensures LostSince(Moved(w, move), c, held)
  {
    var x := w.clients[c];
    if move.Resume? && move.c == c {
      assert x.answers[move.id] in x.answers.Values;
      assert (x.answers - {move.id}).Values <= x.answers.Values;
    }
    if move.DropAnswer? && move.c == c { assert (x.answers - {move.id}).Values <= x.answers.Values; }
  }

  lemma {:induction false} RunIsLost(w: World, moves: seq<Move>, c: ConnId, held: set<Token>)
    requires LostSince(w, c, held) && EndToEnd.After(w, moves).Some?
    ensures LostSince(EndToEnd.After(w, moves).value, c, held)
    decreases |moves|
  {
    if moves == [] {
    } else {
      MovedIsLost(w, moves[0], c, held);
      RunIsLost(Moved(w, moves[0]), moves[1..], c, held);
    }
  }

  lemma LosesAll(w: World, c: ConnId)
    requires EndToEnd.Reachable(w) && CanMove(w, Lose(c))
    ensures LostSince(Moved(w, Lose(c)), c, w.clients[c].held.Keys)
  {
    ReachableInv(w);
    var x := w.clients[c];
    forall t ensures t in x.held <==> t in x.ends { assert LinkOk(w, c, t); }
    forall t | t in x.answers.Values ensures t !in x.held {
      var id :| id in x.answers && x.answers[id] == t;
      assert Waiting(x, id, t) && LinkOk(w, c, t);
    }
  }

  // Whatever runs after the connection is lost: at the end of the data, a stream
  // held then fails, and one held later waits, for as long as it is held.
  lemma WaitsIfHeldLater(w: World, c: ConnId, moves: seq<Move>, t: Token)
    requires EndToEnd.Reachable(w) && CanMove(w, Lose(c)) && EndToEnd.After(Moved(w, Lose(c)), moves).Some?
    ensures var w' := EndToEnd.After(Moved(w, Lose(c)), moves).value;
            && c in w'.clients
            && var x := w'.clients[c];
               && (PollEof(x, t) == Waits <==> t in x.held && t !in w.clients[c].held)
               && (t in x.held && t in w.clients[c].held ==> PollEof(x, t) == Fails(CLOSED))
  {
    LosesAll(w, c);
    RunIsLost(Moved(w, Lose(c)), moves, c, w.clients[c].held.Keys);
  }

  /* It comes to that */

  // The client 0 was told of the stream 5, and lost its connection.
  function Late(hold: Option<Hold>): Inner {
    match hold
    case None => Inner(false, 2, map[], map[1 := 5], map[], map[], map[], map[])
    case Some(h) => Inner(false, 2, map[], map[], map[5 := 0], map[5 := Pending], map[5 := h], map[5 := 0])
  }

  lemma LosingIs()
    ensures Lost(TAKING) == Late(None) && Resumed(Late(None), 1) == Late(Some(Registered))
  {
    assert (map t | t in TAKING.ends :: Ended(Some(CLOSED))) == map[];
    assert Late(None).answers - {1} == map[];
  }

  lemma LostIsReached()
    ensures EndToEnd.Reachable(Tuning(map[], Owner(TOLD, 1), Late(None)))
  {
    ReceivedIsReached();
    LosingIs();
    Goes(Tuning(map[], Owner(TOLD, 1), TAKING), Move.Lose(0), Tuning(map[], Owner(TOLD, 1), Late(None)));
  }

  lemma HeldLater()
    ensures EndToEnd.Reachable(Tuning(map[], Owner(TOLD, 1), Late(Some(Registered))))
  {
    LostIsReached();
    LosingIs();
    Goes(Tuning(map[], Owner(TOLD, 1), Late(None)), Move.Resume(0, 1),
         Tuning(map[], Owner(TOLD, 1), Late(Some(Registered))));
  }

  lemma AttachedLater()
    ensures EndToEnd.Reachable(Streams(Running, [], ATTACHED, Late(Some(Hold.Attached))))
  {
    HeldLater();
    AttachingIs();
    var x := Late(Some(Registered));
    assert x.held[5 := Hold.Attached] == map[5 := Hold.Attached];
    Goes(Tuning(map[], Owner(TOLD, 1), x), AttachData(0, 5), Streams(Running, [], ATTACHED, Late(Some(Hold.Attached))));
  }

  // A client handed a stream whose reads wait at the end of the data, whatever
  // runs from there on.
  lemma HandedOutToWait() returns (w: World)
    ensures EndToEnd.Reachable(w) && 0 in w.clients && !w.clients[0].up
    ensures 5 in w.clients[0].held && w.clients[0].held[5] == Handed && Attends(w.d, 5)
    ensures forall moves :: EndToEnd.After(w, moves).Some? ==>
              var w' := EndToEnd.After(w, moves).value;
              0 in w'.clients && (5 in w'.clients[0].held ==> PollEof(w'.clients[0], 5) == Waits)
  {
    AttachedLater();
    var x := Late(Some(Hold.Attached));
    assert x.held[5 := Handed] == map[5 := Handed];
    w := Streams(Running, [], ATTACHED, Late(Some(Handed)));
    Goes(Streams(Running, [], ATTACHED, x), Move.HandOut(0, 5), w);
    forall moves | EndToEnd.After(w, moves).Some?
      ensures LostSince(EndToEnd.After(w, moves).value, 0, {})
    {
      RunIsLost(w, moves, 0, {});
    }
  }
}
