/** A read that meets the end of the data gives the error of the source. */
module EndToEndCauses {
  import opened Options
  import opened Tunelithd
  import opened TunelithClient
  import opened EndToEnd
  import opened EndToEndRuns
  import Runs = TunelithdRuns
  import X = TunelithdStreams
  import K = TunelithdCauses

  /* A run of tunelithd and its clients is one of tunelithd */

  // The steps the daemon takes at a move.
  function StepsAt(w: World, move: Move): seq<Step>
    requires CanMove(w, move)
  {
    match move
    case Open(c) => [Control(Connect(c))]
    case Call(c, k, wanted, params) => [Control(RequestAcquire(k, c, w.clients[c].nextId, wanted, params))]
    case Receive(c, k) =>
      var m := Next(w.d, c);
      (if Late(w.clients[c], m) then [Control(RequestRelease(k, c, w.clients[c].nextId, m.token))] else [])
        + [Control(Deliver(c))]
    case AttachData(_, t) => [Data(t, Attach)]
    case Drop(c, t, k) =>
      if w.clients[c].up then [Control(RequestRelease(k, c, w.clients[c].nextId, t))] else []
    case Own(step) => [step]
    case _ => []
  }

  function StepsAlong(w: World, moves: seq<Move>): seq<Step>
    decreases |moves|
  {
    if moves == [] || !CanMove(w, moves[0]) then []
    else StepsAt(w, moves[0]) + StepsAlong(Moved(w, moves[0]), moves[1..])
  }

  lemma OneStep(d: Daemon, step: Step)
    requires Enabled(d, step)
    ensures Tunelithd.After(d, [step]) == Some(Apply(d, step))
  {
    assert [step][1..] == [] && Tunelithd.After(Apply(d, step), []) == Some(Apply(d, step));
  }

  lemma {:induction false} StepsJoin(d: Daemon, a: seq<Step>, b: seq<Step>)
    requires Tunelithd.After(d, a).Some?
    ensures Tunelithd.After(d, a + b) == Tunelithd.After(Tunelithd.After(d, a).value, b)
    decreases |a|
  {
    if a == [] {
      assert a + b == b;
    } else {
      assert (a + b)[1..] == a[1..] + b;
      StepsJoin(Apply(d, a[0]), a[1..], b);
    }
  }

  lemma ReceiveSteps(w: World, c: ConnId, k: TaskId)
    requires CanMove(w, Receive(c, k))
    ensures Tunelithd.After(w.d, StepsAt(w, Receive(c, k))) == Some(Moved(w, Receive(c, k)).d)
  {
    var m := Next(w.d, c);
    if Late(w.clients[c], m) {
      var asked := AskRelease(w, c, m.token, k).d;
      OneStep(w.d, Control(RequestRelease(k, c, w.clients[c].nextId, m.token)));
      OneStep(asked, Control(Deliver(c)));
      StepsJoin(w.d, [Control(RequestRelease(k, c, w.clients[c].nextId, m.token))], [Control(Deliver(c))]);
    } else {
      OneStep(w.d, Control(Deliver(c)));
      assert [] + [Control(Deliver(c))] == [Control(Deliver(c))];
    }
  }

  lemma MoveSteps(w: World, move: Move)
    requires CanMove(w, move)
    ensures Tunelithd.After(w.d, StepsAt(w, move)) == Some(Moved(w, move).d)
  {
    match move
    case Open(c) => OneStep(w.d, Control(Connect(c)));
    case Call(c, k, wanted, params) => OneStep(w.d, StepsAt(w, move)[0]);
    case Receive(c, k) => ReceiveSteps(w, c, k);
    case AttachData(_, t) => OneStep(w.d, Data(t, Attach));
    case Drop(c, _, _) => if w.clients[c].up { OneStep(w.d, StepsAt(w, move)[0]); }
    case Own(step) => OneStep(w.d, step);
    case _ =>
  }

  lemma {:induction false} RunsAsTheDaemon(w: World, moves: seq<Move>)
    requires EndToEnd.After(w, moves).Some?
    ensures Tunelithd.After(w.d, StepsAlong(w, moves)) == Some(EndToEnd.After(w, moves).value.d)
    decreases |moves|
  {
    if moves == [] {
    } else {
      MoveSteps(w, moves[0]);
      RunsAsTheDaemon(Moved(w, moves[0]), moves[1..]);
      StepsJoin(w.d, StepsAt(w, moves[0]), StepsAlong(Moved(w, moves[0]), moves[1..]));
    }
  }

  /* The cause of the end */

  // Whether the source of `s` gave `error` along `moves`.
  predicate Gives(moves: seq<Move>, s: SessionId, error: string) {
    Own(FanOut(s, SourceEnds(Some(error)))) in moves
  }

  lemma GivesAt(w: World, move: Move, s: SessionId, error: string)
    requires CanMove(w, move)
    ensures K.Gives(StepsAt(w, move), s, error) <==> move == Own(FanOut(s, SourceEnds(Some(error))))
  {
  }

  lemma {:induction false} GivesTheSame(w: World, moves: seq<Move>, s: SessionId, error: string)
    requires EndToEnd.After(w, moves).Some?
    ensures K.Gives(StepsAlong(w, moves), s, error) <==> Gives(moves, s, error)
    decreases |moves|
  {
    if moves == [] {
    } else {
      GivesAt(w, moves[0], s, error);
      GivesTheSame(Moved(w, moves[0]), moves[1..], s, error);
      assert moves == [moves[0]] + moves[1..];
    }
  }

  lemma EndedAsTheSource(moves: seq<Move>, t: Token)
    requires EndToEnd.After(START, moves).Some?
    requires var d := EndToEnd.After(START, moves).value.d; t in d.streams && d.streams[t].ended.Some?
    ensures var y := EndToEnd.After(START, moves).value.d.streams[t];
            && (forall e :: Gives(moves, y.session, e) ==> y.ended == Some(e))
            && ((forall e :: !Gives(moves, y.session, e)) ==> y.ended == Some(""))
  {
    var y := EndToEnd.After(START, moves).value.d.streams[t];
    RunsAsTheDaemon(START, moves);
    K.EndsAsTheSource(StepsAlong(START, moves), t);
    forall e ensures K.Gives(StepsAlong(START, moves), y.session, e) <==> Gives(moves, y.session, e) {
      GivesTheSame(START, moves, y.session, e);
    }
  }

  // A read that meets the end of the data of a stream handed out, and stops
  // waiting, fails with the error the source gave, if it gave one that says
  // anything, and ends otherwise.
  lemma ReadGivesTheCause(moves: seq<Move>, c: ConnId, t: Token)
    requires EndToEnd.After(START, moves).Some?
    requires var w := EndToEnd.After(START, moves).value; HandedOut(w, c, t) && !X.Served(w.d, t)
    ensures var w := EndToEnd.After(START, moves).value;
            && t in w.d.streams
            && var s, found := w.d.streams[t].session, PollEof(w.clients[c], t);
               found != Waits ==>
                 && (forall e :: Gives(moves, s, e) ==> found == if e == "" then Ends else Fails(e))
                 && ((forall e :: !Gives(moves, s, e)) ==> found == Ends)
  {
    EndIsFound(EndToEnd.After(START, moves).value, c, t);
    EndedAsTheSource(moves, t);
  }
}
