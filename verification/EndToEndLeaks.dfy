/** What an acquire is answered, over all runs, and that no stream is forgotten. */
module EndToEndLeaks {
  import opened Options
  import opened Tunelithd
  import opened TunelithClient
  import opened EndToEnd
  import opened EndToEndLinks
  import opened EndToEndRequests
  import A = TunelithdAnswers
  import E = TunelithdEvents
  import EndToEndRuns

  // A stream told to a client that is up is held, about to be taken, or asked to
  // be released, unless the caller of acquire went away with its response.
  predicate KeptOk(w: World, c: ConnId, t: Token) {
    c in w.clients && w.clients[c].up && Hears(w.d, c, t) ==>
      t in w.clients[c].held || t in w.clients[c].answers.Values || t in w.released || t in w.dropped
  }

  ghost predicate Kept(w: World) {
    forall c, t :: KeptOk(w, c, t)
  }

  // Nothing is heard, and what the client `c` knows of is not lost sight of.
  lemma SameHeardKeeps(w: World, w': World, c: ConnId)
    requires Kept(w) && w.clients.Keys <= w'.clients.Keys <= w.clients.Keys + {c}
    requires forall b :: b in w.clients && b != c ==> w'.clients[b] == w.clients[b]
    requires c !in w.clients && c in w'.clients ==> forall t :: !Hears(w'.d, c, t)
    requires forall b, t :: Hears(w'.d, b, t) ==> Hears(w.d, b, t)
    requires w.released <= w'.released && w.dropped <= w'.dropped
    requires c in w.clients && w'.clients[c].up ==>
               w.clients[c].up && forall t ::
                 t in w.clients[c].held || t in w.clients[c].answers.Values ==>
                   t in w'.clients[c].held || t in w'.clients[c].answers.Values || t in w'.released || t in w'.dropped
    ensures Kept(w')
  {
    forall b, t ensures KeptOk(w', b, t) { assert KeptOk(w, b, t); }
  }

  // A caller that waits is given the token, and no answer is lost.
  lemma TookAnswer(x: Inner, m: Message)
    requires m.Acquired? && m.id in x.pending && m.id !in x.answers
    ensures var x' := Took(x, m);
            && x'.held == x.held && x'.up == x.up && (Late(x, m) || m.token in x'.answers.Values)
            && forall t :: t in x.answers.Values ==> t in x'.answers.Values
  {
    var x' := Took(x, m);
    forall t | t in x.answers.Values ensures t in x'.answers.Values {
      var id :| id in x.answers && x.answers[id] == t;
      assert id in x'.answers && x'.answers[id] == t;
    }
    assert !Late(x, m) ==> x'.answers[m.id] == m.token;
  }

  lemma ReceivedHears(w: World, c: ConnId, k: TaskId)
    requires HeardOnce(w.d) && CanMove(w, Receive(c, k)) && HeardOnce(ApplyControl(w.d, Deliver(c)))
    requires Next(w.d, c).Acquired? && !Hears(w.d, c, Next(w.d, c).token)
    ensures forall b, u :: Hears(Moved(w, Receive(c, k)).d, b, u) <==>
                             Hears(w.d, b, u) || (b == c && u == Next(w.d, c).token)
  {
    TokenIsHeard(w.d, c);
    assert forall b :: Heard(Moved(w, Receive(c, k)).d, b) == Heard(ApplyControl(w.d, Deliver(c)), b);
  }

  // The message taken tells a token.
  lemma ToldKeeps(w: World, c: ConnId, k: TaskId)
    requires HeardOnce(w.d) && Links(w) && Kept(w) && Expected(w) && CanMove(w, Receive(c, k))
    requires HeardOnce(ApplyControl(w.d, Deliver(c))) && Next(w.d, c).Acquired?
    ensures Kept(Moved(w, Receive(c, k)))
  {
    var x, m, i := w.clients[c], Next(w.d, c), w.d.conns[c].received;
    var w' := Moved(w, Receive(c, k));
    TokenIsNew(w, c);
    ReceivedHears(w, c, k);
    assert Grants(w.d, c, i, m.id, m.token);
    TookAnswer(x, m);
    forall b, t ensures KeptOk(w', b, t) { assert KeptOk(w, b, t); }
  }

  lemma PlainKeeps(w: World, c: ConnId, k: TaskId)
    requires HeardOnce(w.d) && Kept(w) && CanMove(w, Receive(c, k))
    requires HeardOnce(ApplyControl(w.d, Deliver(c))) && !Next(w.d, c).Acquired?
    ensures Kept(Moved(w, Receive(c, k)))
  {
    PlainIsNotHeard(w.d, c);
    TookPlain(w.clients[c], Next(w.d, c));
    SameHeardKeeps(w, Moved(w, Receive(c, k)), c);
  }

  lemma OwnHears(w: World, step: Step)
    requires E.ConnsKnown(w.d) && CanMove(w, Own(step))
    ensures forall c, t :: Hears(Moved(w, Own(step)).d, c, t) <==> Hears(w.d, c, t)
  {
    match step {
      case Control(control) => ControlBehind(w.d, control);
      case Acquiring(k, acquire) => AcquireBehind(w.d, k, acquire);
      case FanOut(s, fanOut) => FanOutBehind(w.d, s, fanOut);
      case Data(t, data) => DataBehind(w.d, t, data);
    }
    forall c ensures Heard(Apply(w.d, step), c) == Heard(w.d, c) { BehindHeard(w.d, Apply(w.d, step), c); }
  }

  lemma HoldStays(w: World, c: ConnId, x': Inner, id: nat)
    requires c in w.clients && x'.answers == w.clients[c].answers - {id} && w.clients[c].held.Keys <= x'.held.Keys
    requires id in w.clients[c].answers && x'.up == w.clients[c].up
    requires Kept(w)
    requires w.clients[c].answers[id] in x'.held
    ensures Kept(WithClient(w, c, x'))
  {
    var w' := WithClient(w, c, x');
    AnswersBut(w.clients[c].answers, id);
    SameHeardKeeps(w, w', c);
  }

  lemma AnswersBut(answers: map<nat, Token>, id: nat)
    requires id in answers
    ensures forall t :: t in answers.Values ==> t in (answers - {id}).Values || t == answers[id]
  {
    forall t | t in answers.Values ensures t in (answers - {id}).Values || t == answers[id] {
      var i :| i in answers && answers[i] == t;
      assert i != id ==> i in answers - {id} && (answers - {id})[i] == t;
    }
  }

  // The moves that take no message.
  lemma QuietKeepsKept(w: World, move: Move)
    requires Kept(w) && CanMove(w, move)
    requires !move.Open? && !move.Receive? && !move.Resume? && !move.DropAnswer? && !move.Own?
    ensures Kept(Moved(w, move))
  {
    var w' := Moved(w, move);
    assert w'.d.conns == w.d.conns;
    assert forall b :: Heard(w'.d, b) == Heard(w.d, b);
    SameHeardKeeps(w, w', move.c);
  }

  lemma OpenKeepsKept(w: World, c: ConnId)
    requires Kept(w) && CanMove(w, Open(c))
    ensures Kept(Moved(w, Open(c)))
  {
    assert forall b :: Heard(Moved(w, Open(c)).d, b) == if b == c then [] else Heard(w.d, b);
    SameHeardKeeps(w, Moved(w, Open(c)), c);
  }

  lemma DropAnswerKeepsKept(w: World, c: ConnId, id: nat)
    requires Kept(w) && CanMove(w, DropAnswer(c, id))
    ensures Kept(Moved(w, DropAnswer(c, id)))
  {
    AnswersBut(w.clients[c].answers, id);
    SameHeardKeeps(w, Moved(w, DropAnswer(c, id)), c);
  }

  lemma OwnKeepsKept(w: World, step: Step)
    requires E.ConnsKnown(w.d) && Kept(w) && CanMove(w, Own(step))
    ensures Kept(Moved(w, Own(step)))
  {
    OwnHears(w, step);
    forall c, t ensures KeptOk(Moved(w, Own(step)), c, t) { assert KeptOk(w, c, t); }
  }

  lemma MovedKeepsKept(w: World, move: Move)
    requires HeardOnce(w.d) && E.ConnsKnown(w.d) && Links(w) && Expected(w) && Kept(w) && CanMove(w, move)
    requires move.Receive? ==> HeardOnce(ApplyControl(w.d, Deliver(move.c)))
    ensures Kept(Moved(w, move))
  {
    match move
    case Open(c) => OpenKeepsKept(w, c);
    case Receive(c, k) => if Next(w.d, c).Acquired? { ToldKeeps(w, c, k); } else { PlainKeeps(w, c, k); }
    case Resume(c, id) => HoldStays(w, c, Resumed(w.clients[c], id), id);
    case DropAnswer(c, id) => DropAnswerKeepsKept(w, c, id);
    case Own(step) => OwnKeepsKept(w, step);
    case _ => QuietKeepsKept(w, move);
  }

  /* Over all runs */

  ghost predicate Inv(w: World) {
    EndToEndRuns.Inv(w) && Requests(w) && Kept(w)
  }

  lemma MovedKeeps(w: World, move: Move)
    requires Inv(w) && CanMove(w, move)
    ensures Inv(Moved(w, move))
  {
    HeardIsTold(w.d);
    if move.Receive? {
      EndToEndRuns.Runs.ControlKeeps(w.d, Deliver(move.c));
      HeardIsTold(ApplyControl(w.d, Deliver(move.c)));
    }
    EndToEndRuns.MovedKeeps(w, move);
    MovedKeepsRequests(w, move);
    MovedKeepsKept(w, move);
  }

  lemma {:induction false} RunKeeps(w: World, moves: seq<Move>)
    requires Inv(w) && EndToEnd.After(w, moves).Some?
    ensures Inv(EndToEnd.After(w, moves).value)
    decreases |moves|
  {
    if moves == [] {
    } else {
      MovedKeeps(w, moves[0]);
      RunKeeps(Moved(w, moves[0]), moves[1..]);
    }
  }

  lemma StartIsFine()
    ensures Inv(START)
  {
    EndToEndRuns.StartIsFine();
  }

  lemma ReachableInv(w: World)
    requires EndToEnd.Reachable(w)
    ensures Inv(w)
  {
    var moves :| EndToEnd.After(START, moves) == Some(w);
    StartIsFine();
    RunKeeps(START, moves);
  }

  // A stream told in response to a request is of a session with the parameters
  // the request asked for, on the tuner it named if it named one.
  lemma AcquiredAsAsked(w: World, c: ConnId, j: nat)
    requires EndToEnd.Reachable(w) && c in w.d.conns && j < |w.d.conns[c].sent| && w.d.conns[c].sent[j].Acquired?
    ensures var m := w.d.conns[c].sent[j];
            && (c, m.id) in w.asked && m.token in w.d.streams && w.d.streams[m.token].session in w.d.sess
            && var x, wish := w.d.sess[w.d.streams[m.token].session], w.asked[(c, m.id)];
               x.params == wish.params && (wish.wanted.Some? ==> x.tuner == wish.wanted.value)
  {
    var m := w.d.conns[c].sent[j];
    ReachableInv(w);
    assert Grants(w.d, c, j, m.id, m.token);
  }

  // What a caller of acquire is given is a stream of what its call asked for.
  lemma AnswerAsAsked(w: World, c: ConnId, id: nat)
    requires EndToEnd.Reachable(w) && c in w.clients && id in w.clients[c].answers
    ensures var t := w.clients[c].answers[id];
            && (c, id) in w.asked && t in w.d.streams && w.d.streams[t].session in w.d.sess
            && var x, wish := w.d.sess[w.d.streams[t].session], w.asked[(c, id)];
               x.params == wish.params && (wish.wanted.Some? ==> x.tuner == wish.wanted.value)
  {
    ReachableInv(w);
    assert Waiting(w.clients[c], id, w.clients[c].answers[id]);
  }

  // No request is responded to twice, and none that was is still worked on.
  lemma AnsweredOnce(w: World, c: ConnId, i: nat, j: nat)
    requires EndToEnd.Reachable(w) && c in w.d.conns && i < |w.d.conns[c].sent| && j < |w.d.conns[c].sent|
    requires var a, b := w.d.conns[c].sent[i], w.d.conns[c].sent[j];
             && (a.Acquired? || a.Failed? || a.Released?) && (b.Acquired? || b.Failed? || b.Released?) && a.id == b.id
    ensures i == j
    ensures forall k :: k in w.d.calls && w.d.calls[k].conn == c && !w.d.calls[k].Answering? ==>
              w.d.calls[k].id != w.d.conns[c].sent[i].id
  {
    ReachableInv(w);
    var id := w.d.conns[c].sent[i].id;
    assert Said(w.d, c, i, id) && Said(w.d, c, j, id);
    forall k | k in w.d.calls && w.d.calls[k].conn == c && !w.d.calls[k].Answering? ensures w.d.calls[k].id != id {
      assert Works(w.d, k, c, w.d.calls[k].id);
    }
  }

  // A stream whose token the client has received is held by someone there, given
  // to a caller yet to take it, or asked to be released, given up on or not: only
  // a caller that went away with its response leaves one behind.
  lemma NoStreamIsForgotten(w: World, c: ConnId, j: nat)
    requires EndToEnd.Reachable(w) && c in w.clients && w.clients[c].up && c in w.d.conns
    requires j < w.d.conns[c].received <= |w.d.conns[c].sent| && w.d.conns[c].sent[j].Acquired?
    ensures var t := w.d.conns[c].sent[j].token;
            || t in w.clients[c].held || t in w.clients[c].answers.Values
            || t in w.released || t in w.dropped
  {
    ReachableInv(w);
    TokenIsOurs(w, c, j);
    assert KeptOk(w, c, w.d.conns[c].sent[j].token);
  }

  // What the client has received is heard.
  lemma TokenIsOurs(w: World, c: ConnId, j: nat)
    requires EndToEnd.Reachable(w) && c in w.d.conns
    requires j < w.d.conns[c].received <= |w.d.conns[c].sent| && w.d.conns[c].sent[j].Acquired?
    ensures var t := w.d.conns[c].sent[j].token;
            Hears(w.d, c, t) && t in w.d.streams && w.d.streams[t].conn == c
  {
    ReachableInv(w);
    var t, ms := w.d.conns[c].sent[j].token, Heard(w.d, c);
    assert ms == ms[..j] + [ms[j]] + ms[j + 1..];
    TellingsMore(ms[..j], [ms[j]], t);
    TellingsMore(ms[..j] + [ms[j]], ms[j + 1..], t);
    HeardIsTold(w.d);
    assert HeardOk(w.d, c, t);
    A.TellingsOneMore([], ms[j], t);
    assert [] + [ms[j]] == [ms[j]];
  }
}
