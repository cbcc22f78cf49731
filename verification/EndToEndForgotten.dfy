/**
 A stream is forgotten exactly when the caller of acquire went away with its
 response: nobody holds it, and nobody asks for it to be released.
 */
module EndToEndForgotten {
  import opened Options
  import opened Tunelithd
  import opened TunelithClient
  import opened EndToEnd
  import opened EndToEndLinks
  import opened EndToEndLeaks
  import A = TunelithdAnswers
  import E = TunelithdEvents
  import Runs = TunelithdRuns
  import Example = EndToEndExample

  predicate Unknown(w: World, c: ConnId, t: Token) {
    t !in w.released && (c in w.clients ==> t !in w.clients[c].held && t !in w.clients[c].answers.Values)
  }

  // A token that went away with its response is known no more.
  predicate DroppedOk(w: World, t: Token) {
    t in w.dropped ==>
      t in w.d.streams && Hears(w.d, w.d.streams[t].conn, t) && Unknown(w, w.d.streams[t].conn, t)
  }

  ghost predicate Dropped(w: World) {
    forall t :: DroppedOk(w, t)
  }

  ghost predicate SameConns(d: Daemon, d': Daemon) {
    forall t :: t in d.streams ==> t in d'.streams && d'.streams[t].conn == d.streams[t].conn
  }

  ghost predicate HearsOn(d: Daemon, d': Daemon) {
    (forall c, t :: Hears(d, c, t) ==> Hears(d', c, t)) && SameConns(d, d')
  }

  // Of the tokens dropped, the client `c` comes to know none.
  lemma NoneIsKnownKeeps(w: World, w': World, c: ConnId)
    requires Dropped(w) && HearsOn(w.d, w'.d) && w'.dropped == w.dropped
    requires w.clients.Keys <= w'.clients.Keys <= w.clients.Keys + {c}
    requires forall b :: b in w.clients && b != c ==> w'.clients[b] == w.clients[b]
    requires forall t :: t in w.dropped && t in w.d.streams ==>
               && (t in w'.released ==> t in w.released)
               && (w.d.streams[t].conn == c && Unknown(w, c, t) ==> Unknown(w', c, t))
    ensures Dropped(w')
  {
    forall t ensures DroppedOk(w', t) { assert DroppedOk(w, t); }
  }

  // A token a client knows of is none dropped.
  lemma KnownIsKept(w: World, c: ConnId, t: Token)
    requires HeardOnce(w.d) && Links(w) && Dropped(w) && c in w.clients
    requires t in w.clients[c].held || t in w.clients[c].answers.Values
    ensures t !in w.dropped && t !in w.released && Hears(w.d, c, t) && t in w.d.streams && w.d.streams[t].conn == c
  {
    var x := w.clients[c];
    assert LinkOk(w, c, t);
    if t !in x.held {
      var id :| id in x.answers && x.answers[id] == t;
      assert Waiting(x, id, t);
    }
    assert HeardOk(w.d, c, t) && DroppedOk(w, t);
  }

  lemma TookNoMore(x: Inner, m: Message)
    requires m.Acquired?
    ensures Took(x, m).held == x.held
    ensures forall t :: t in Took(x, m).answers.Values ==> t in x.answers.Values || t == m.token
  {
    var x' := Took(x, m);
    forall t | t in x'.answers.Values ensures t in x.answers.Values || t == m.token {
      var id :| id in x'.answers && x'.answers[id] == t;
      assert t != m.token ==> id in x.answers && x.answers[id] == t;
    }
  }

  // The client comes to know of `t` alone, or asks for it to be released.
  lemma OneIsKnownKeeps(w: World, w': World, c: ConnId, t: Token)
    requires Dropped(w) && HearsOn(w.d, w'.d) && t !in w.dropped && w'.dropped == w.dropped
    requires c in w.clients && c in w'.clients && w'.clients == w.clients[c := w'.clients[c]]
    requires w'.released <= w.released + {t} && w'.clients[c].held == w.clients[c].held
    requires forall u :: u in w'.clients[c].answers.Values ==> u in w.clients[c].answers.Values || u == t
    ensures Dropped(w')
  {
    NoneIsKnownKeeps(w, w', c);
  }

  lemma ToldKeepsDropped(w: World, c: ConnId, k: TaskId)
    requires HeardOnce(w.d) && Links(w) && Dropped(w) && CanMove(w, Receive(c, k))
    requires HeardOnce(ApplyControl(w.d, Deliver(c))) && Next(w.d, c).Acquired?
    ensures Dropped(Moved(w, Receive(c, k)))
  {
    var m := Next(w.d, c);
    TokenIsNew(w, c);
    ReceivedHears(w, c, k);
    assert m.token !in w.dropped by { assert DroppedOk(w, m.token); }
    TookNoMore(w.clients[c], m);
    OneIsKnownKeeps(w, Moved(w, Receive(c, k)), c, m.token);
  }

  lemma PlainKeepsDropped(w: World, c: ConnId, k: TaskId)
    requires HeardOnce(w.d) && Dropped(w) && CanMove(w, Receive(c, k))
    requires HeardOnce(ApplyControl(w.d, Deliver(c))) && !Next(w.d, c).Acquired?
    ensures Dropped(Moved(w, Receive(c, k)))
  {
    PlainIsNotHeard(w.d, c);
    TookPlain(w.clients[c], Next(w.d, c));
    NoneIsKnownKeeps(w, Moved(w, Receive(c, k)), c);
  }

  lemma ResumeKeepsDropped(w: World, c: ConnId, id: nat)
    requires HeardOnce(w.d) && Links(w) && Dropped(w) && CanMove(w, Resume(c, id))
    ensures Dropped(Moved(w, Resume(c, id)))
  {
    var x, w' := w.clients[c], Moved(w, Resume(c, id));
    assert w'.d.conns == w.d.conns && forall b :: Heard(w'.d, b) == Heard(w.d, b);
    KnownIsKept(w, c, x.answers[id]);
    assert (x.answers - {id}).Values <= x.answers.Values;
    NoneIsKnownKeeps(w, w', c);
  }

  lemma DropAnswerKeepsDropped(w: World, c: ConnId, id: nat)
    requires HeardOnce(w.d) && Links(w) && Dropped(w) && CanMove(w, DropAnswer(c, id))
    ensures Dropped(Moved(w, DropAnswer(c, id)))
  {
    var x, w' := w.clients[c], Moved(w, DropAnswer(c, id));
    var gone := x.answers[id];
    KnownIsKept(w, c, gone);
    assert Waiting(x, id, gone) && LinkOk(w, c, gone);
    forall t ensures DroppedOk(w', t) {
      assert DroppedOk(w, t);
      assert t in (x.answers - {id}).Values ==> t in x.answers.Values;
      if i :| i in x.answers - {id} && x.answers[i] == gone { assert Waiting(x, i, gone); }
    }
  }

  lemma DropKeepsDropped(w: World, c: ConnId, t: Token, k: TaskId)
    requires HeardOnce(w.d) && Links(w) && Dropped(w) && CanMove(w, Drop(c, t, k))
    ensures Dropped(Moved(w, Drop(c, t, k)))
  {
    var w' := Moved(w, Drop(c, t, k));
    assert w'.d.conns == w.d.conns && forall b :: Heard(w'.d, b) == Heard(w.d, b);
    KnownIsKept(w, c, t);
    NoneIsKnownKeeps(w, w', c);
  }

  lemma OwnKeepsDropped(w: World, step: Step)
    requires E.ConnsKnown(w.d) && Dropped(w) && CanMove(w, Own(step))
    ensures Dropped(Moved(w, Own(step)))
  {
    OwnHears(w, step);
    OwnConns(w, step);
    forall t ensures DroppedOk(Moved(w, Own(step)), t) { assert DroppedOk(w, t); }
  }

  lemma OwnConns(w: World, step: Step)
    requires CanMove(w, Own(step))
    ensures SameConns(w.d, Apply(w.d, step))
  {
    match step
    case Control(control) => ControlBehind(w.d, control);
    case Acquiring(k, acquire) => AcquireBehind(w.d, k, acquire);
    case FanOut(s, fanOut) => FanOutBehind(w.d, s, fanOut);
    case Data(t, data) => DataBehind(w.d, t, data);
  }

  lemma QuietKeepsDropped(w: World, move: Move)
    requires Dropped(w) && CanMove(w, move)
    requires move.Open? || move.Call? || move.GiveUp? || move.AttachData? || move.HandOut? || move.Read? || move.Lose?
    requires move.HandOut? || move.AttachData? ==> move.t in w.clients[move.c].held
    requires HeardOnce(w.d)
    ensures Dropped(Moved(w, move))
  {
    var w' := Moved(w, move);
    forall b ensures Heard(w'.d, b) == Heard(w.d, b) {}
    forall t | t in w.dropped && t in w.d.streams && w.d.streams[t].conn == move.c && Unknown(w, move.c, t)
      ensures Unknown(w', move.c, t)
    {
    }
    NoneIsKnownKeeps(w, w', move.c);
  }

  lemma MovedKeepsDropped(w: World, move: Move)
    requires HeardOnce(w.d) && E.ConnsKnown(w.d) && Links(w) && Dropped(w) && CanMove(w, move)
    requires move.Receive? ==> HeardOnce(ApplyControl(w.d, Deliver(move.c)))
    ensures Dropped(Moved(w, move))
  {
    match move
    case Receive(c, k) => if Next(w.d, c).Acquired? { ToldKeepsDropped(w, c, k); } else { PlainKeepsDropped(w, c, k); }
    case Resume(c, id) => ResumeKeepsDropped(w, c, id);
    case DropAnswer(c, id) => DropAnswerKeepsDropped(w, c, id);
    case Drop(c, t, k) => DropKeepsDropped(w, c, t, k);
    case Own(step) => OwnKeepsDropped(w, step);
    case _ => QuietKeepsDropped(w, move);
  }

  lemma {:induction false} RunKeepsDropped(w: World, moves: seq<Move>)
    requires EndToEndLeaks.Inv(w) && Dropped(w) && EndToEnd.After(w, moves).Some?
    ensures Dropped(EndToEnd.After(w, moves).value)
    decreases |moves|
  {
    if moves == [] {
    } else {
      HeardIsTold(w.d);
      if moves[0].Receive? {
        Runs.ControlKeeps(w.d, Deliver(moves[0].c));
        HeardIsTold(ApplyControl(w.d, Deliver(moves[0].c)));
      }
      EndToEndLeaks.MovedKeeps(w, moves[0]);
      MovedKeepsDropped(w, moves[0]);
      RunKeepsDropped(Moved(w, moves[0]), moves[1..]);
    }
  }

  // Of the streams told to a client, while it is up, exactly those whose caller
  // went away with the response are neither held, nor to be taken, nor asked to
  // be released.
  lemma ForgottenIsDropped(w: World, c: ConnId, j: nat)
    requires EndToEnd.Reachable(w) && c in w.clients && w.clients[c].up && c in w.d.conns
    requires j < w.d.conns[c].received <= |w.d.conns[c].sent| && w.d.conns[c].sent[j].Acquired?
    ensures var t := w.d.conns[c].sent[j].token;
            t !in w.clients[c].held && t !in w.clients[c].answers.Values && t !in w.released <==> t in w.dropped
  {
    var t := w.d.conns[c].sent[j].token;
    NoStreamIsForgotten(w, c, j);
    TokenIsOurs(w, c, j);
    var moves :| EndToEnd.After(START, moves) == Some(w);
    EndToEndLeaks.StartIsFine();
    RunKeepsDropped(START, moves);
    assert DroppedOk(w, t);
  }

  // It comes to that: the daemon serves a stream to nobody, its client up.
  lemma ForgottenOnce() returns (w: World)
    ensures EndToEnd.Reachable(w) && 0 in w.clients && w.clients[0].up && 5 in w.dropped
    ensures 5 in w.d.tokens && 5 in w.d.unattached && w.d.calls == map[] && w.d.busy == {7}
    ensures w.clients[0].held == map[] && w.clients[0].answers == map[] && w.released == {}
  {
    Example.ReceivedIsReached();
    var told := Example.Tuning(map[], Example.Owner(Example.TOLD, 1), Example.TAKING);
    w := Moved(told, Move.DropAnswer(0, 1));
    Example.Goes(told, Move.DropAnswer(0, 1), w);
  }
}
