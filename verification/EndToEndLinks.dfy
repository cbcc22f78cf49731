/**
 What ties tunelithd to its clients: a client knows a stream only once its
 token was told to it, and one asked to be released is let go of.
 */
module EndToEndLinks {
  import opened Options
  import opened Tunelithd
  import opened TunelithClient
  import opened EndToEnd
  import A = TunelithdAnswers
  import E = TunelithdEvents
  import Runs = TunelithdRuns

  // What the client `c` has received.
  function Heard(d: Daemon, c: ConnId): seq<Message> {
    if c in d.conns && d.conns[c].received <= |d.conns[c].sent| then d.conns[c].sent[..d.conns[c].received] else []
  }

  predicate Hears(d: Daemon, c: ConnId, t: Token) {
    A.Tellings(Heard(d, c), t) == 1
  }

  predicate Attends(d: Daemon, t: Token) {
    t in d.streams && d.streams[t].attached
  }

  predicate Asks(d: Daemon, k: TaskId, t: Token) {
    k in d.calls && (d.calls[k].Disowning? || d.calls[k].Releasing?) && d.calls[k].token == t
  }

  predicate ClientOk(w: World, c: ConnId) {
    c in w.clients && w.clients[c].up ==> c in w.d.conns && w.d.conns[c].owned.Some?
  }

  predicate AskOk(w: World, k: TaskId, t: Token) {
    Asks(w.d, k, t) ==> t in w.released
  }

  // A token asked to be released was told.
  predicate ReleasedOk(w: World, t: Token) {
    t in w.released ==> t in w.d.streams && Hears(w.d, w.d.streams[t].conn, t)
  }

  predicate Waiting(x: Inner, id: nat, t: Token) {
    id in x.answers && x.answers[id] == t
  }

  ghost predicate Awaited(x: Inner, t: Token) {
    exists id :: Waiting(x, id, t)
  }

  predicate HeldOk(x: Inner, t: Token) {
    && (t in x.held <==> t in x.drops) && (t in x.held <==> t in x.ends) && (t in x.held <==> t in x.read)
  }

  ghost predicate LinkOk(w: World, c: ConnId, t: Token) {
    c in w.clients ==>
      var x := w.clients[c];
      && HeldOk(x, t)
      && (t in x.held ==> Hears(w.d, c, t) && t !in w.released)
      && (Awaited(x, t) ==> Hears(w.d, c, t) && t !in w.released && t !in x.held)
      && (t in x.held && !x.held[t].Registered? ==> Attends(w.d, t))
      && (Attends(w.d, t) && w.d.streams[t].conn == c ==>
            Hears(w.d, c, t) && !Awaited(x, t) && (t in x.held ==> !x.held[t].Registered?))
  }

  ghost predicate OneAnswer(x: Inner) {
    forall i, j, t :: Waiting(x, i, t) && Waiting(x, j, t) ==> i == j
  }

  ghost predicate Links(w: World) {
    && w.clients.Keys == w.d.conns.Keys
    && (forall c :: ClientOk(w, c))
    && (forall c :: c in w.clients ==> OneAnswer(w.clients[c]))
    && (forall k, t :: AskOk(w, k, t))
    && (forall t :: ReleasedOk(w, t))
    && (forall c, t :: LinkOk(w, c, t))
  }

  lemma {:induction false} TellingsMore(ms: seq<Message>, more: seq<Message>, t: Token)
    ensures A.Tellings(ms + more, t) == A.Tellings(ms, t) + A.Tellings(more, t)
    decreases |more|
  {
    if more == [] { assert ms + more == ms; }
    else {
      var rest := more[..|more| - 1];
      assert (ms + more)[..|ms + more| - 1] == ms + rest;
      TellingsMore(ms, rest, t);
    }
  }

  predicate HeardOk(d: Daemon, c: ConnId, t: Token) {
    && A.Tellings(Heard(d, c), t) <= 1
    && (Hears(d, c, t) ==> t in d.streams && d.streams[t].conn == c)
  }

  // A token is heard once, and on one connection alone.
  ghost predicate HeardOnce(d: Daemon) {
    && (forall c :: c in d.conns ==> d.conns[c].received <= |d.conns[c].sent|)
    && (forall t :: t in d.streams ==> d.streams[t].conn in d.conns)
    && (forall c, t :: HeardOk(d, c, t))
  }

  lemma HeardIsTold(d: Daemon)
    requires A.Answered(d) && E.ConnsKnown(d)
    ensures HeardOnce(d)
  {
    forall c, t ensures HeardOk(d, c, t) {
      assert A.ToldOk(d, c, t);
      if c in d.conns {
        var ms, n := d.conns[c].sent, d.conns[c].received;
        assert ms == ms[..n] + ms[n..];
        TellingsMore(ms[..n], ms[n..], t);
      }
    }
  }

  /* The steps tunelithd takes of itself */

  ghost predicate Behind(d: Daemon, d': Daemon) {
    && d'.conns.Keys == d.conns.Keys
    && (forall c :: c in d.conns ==>
          d'.conns[c].received == d.conns[c].received && Extends(d.conns[c].sent, d'.conns[c].sent))
    && d.streams.Keys <= d'.streams.Keys
    && (forall t :: t in d.streams ==> d'.streams[t].conn == d.streams[t].conn)
    && (forall t :: Attends(d', t) <==> Attends(d, t))
    && (forall k, t :: Asks(d', k, t) ==> Asks(d, k, t))
    && (forall t :: t in d.streams && t in d'.unattached ==> t in d.unattached)
  }

  predicate Extends(a: seq<Message>, b: seq<Message>) {
    |a| <= |b| && b[..|a|] == a
  }

  predicate StillIn(d: Daemon, d': Daemon, c: ConnId) {
    c in d.conns && d.conns[c].owned.Some? ==> c in d'.conns && d'.conns[c].owned.Some?
  }

  lemma ControlBehind(d: Daemon, step: ControlStep)
    requires ControlEnabled(d, step)
    requires step.Leave? || step.Disown? || step.ReleaseAsked? || step.Answer? || step.ReleaseLeft? || step.Unpark?
    ensures Behind(d, ApplyControl(d, step))
    ensures forall c :: (step.Leave? ==> c != step.c) ==> StillIn(d, ApplyControl(d, step), c)
  {
    if step.ReleaseAsked? || step.ReleaseLeft? { ReleasingBehind(d, step); }
  }

  // A release changes nothing a client has heard, nor whose a stream is.
  lemma ReleaseBehind(d: Daemon, t: Token)
    requires CanRelease(d, t)
    ensures var d' := Release(d, t);
            && d'.conns == d.conns && d'.calls == d.calls && d'.streams.Keys == d.streams.Keys
            && d'.unattached <= d.unattached
            && (forall u :: u in d.streams ==> d'.streams[u].conn == d.streams[u].conn)
            && (forall u :: Attends(d', u) <==> Attends(d, u))
  {
  }

  lemma ReleasingBehind(d: Daemon, step: ControlStep)
    requires ControlEnabled(d, step) && (step.ReleaseAsked? || step.ReleaseLeft?)
    ensures Behind(d, ApplyControl(d, step))
    ensures forall c :: StillIn(d, ApplyControl(d, step), c)
  {
    var t := if step.ReleaseAsked? then d.calls[step.k].token else step.t;
    ReleaseBehind(d, t);
    var r, d' := Release(d, t), ApplyControl(d, step);
    assert d'.streams == r.streams && d'.unattached == r.unattached;
    assert forall u :: Attends(d', u) <==> Attends(r, u);
  }

  lemma AcquireBehind(d: Daemon, k: TaskId, step: AcquireStep)
    requires AcquireEnabled(d, k, step)
    ensures Behind(d, ApplyAcquire(d, k, step))
    ensures forall c :: StillIn(d, ApplyAcquire(d, k, step), c)
  {
    match step
    case Join(t) => JoinBehind(d, k, t);
    case Tuned(s, t) => TunedBehind(d, k, s, t);
    case GiveBack => ReleaseBehind(d, d.calls[k].at.token);
    case _ =>
  }

  lemma SubscribeBehind(d: Daemon, s: SessionId, c: ConnId, t: Token)
    requires s in d.sess && Fresh(d, t)
    ensures var d' := Subscribe(d, s, c, t);
            && d'.conns == d.conns && d'.calls == d.calls && d.streams.Keys <= d'.streams.Keys
            && (forall u :: u in d.streams ==> d'.streams[u].conn == d.streams[u].conn)
            && (forall u :: Attends(d', u) <==> Attends(d, u))
            && (forall u :: u in d.streams && u in d'.unattached ==> u in d.unattached)
  {
  }

  lemma JoinBehind(d: Daemon, k: TaskId, t: Token)
    requires AcquireEnabled(d, k, Join(t))
    ensures Behind(d, ApplyAcquire(d, k, Join(t))) && forall c :: StillIn(d, ApplyAcquire(d, k, Join(t)), c)
  {
    SubscribeBehind(d, SharedFor(d, k).value, d.calls[k].conn, t);
  }

  lemma TunedBehind(d: Daemon, k: TaskId, s: SessionId, t: Token)
    requires AcquireEnabled(d, k, Tuned(s, t))
    ensures Behind(d, ApplyAcquire(d, k, Tuned(s, t))) && forall c :: StillIn(d, ApplyAcquire(d, k, Tuned(s, t)), c)
  {
    SubscribeBehind(Started(d, k, s), s, d.calls[k].conn, t);
  }

  lemma FanOutBehind(d: Daemon, s: SessionId, step: SessionStep)
    requires FanOutEnabled(d, s, step)
    ensures Behind(d, ApplyFanOut(d, s, step))
    ensures forall c :: StillIn(d, ApplyFanOut(d, s, step), c)
  {
    match step
    case Offer(t) => OfferBehind(d, s, t);
    case EndOne(t) => EndOneBehind(d, s, t);
    case _ =>
  }

  lemma OfferBehind(d: Daemon, s: SessionId, t: Token)
    requires FanOutEnabled(d, s, Offer(t))
    ensures Behind(d, OfferTo(d, s, t)) && forall c :: StillIn(d, OfferTo(d, s, t), c)
  {
  }

  lemma EndOneBehind(d: Daemon, s: SessionId, t: Token)
    requires FanOutEnabled(d, s, EndOne(t))
    ensures Behind(d, Farewell(d, s, t)) && forall c :: StillIn(d, Farewell(d, s, t), c)
  {
  }

  lemma DataBehind(d: Daemon, t: Token, step: DataStep)
    requires DataEnabled(d, t, step) && !step.Attach?
    ensures Behind(d, ApplyData(d, t, step))
    ensures forall c :: StillIn(d, ApplyData(d, t, step), c)
  {
  }

  lemma BehindHeard(d: Daemon, d': Daemon, c: ConnId)
    requires Behind(d, d') && (c in d.conns ==> d.conns[c].received <= |d.conns[c].sent|)
    ensures Heard(d', c) == Heard(d, c)
  {
  }

  lemma OwnKeeps(w: World, d': Daemon)
    requires HeardOnce(w.d) && Links(w) && Behind(w.d, d')
    requires forall c :: c in w.clients && w.clients[c].up ==> StillIn(w.d, d', c)
    ensures Links(w.(d := d'))
  {
    var w' := w.(d := d');
    forall c ensures Heard(d', c) == Heard(w.d, c) { BehindHeard(w.d, d', c); }
    forall k, t ensures AskOk(w', k, t) { assert AskOk(w, k, t); }
    forall t ensures ReleasedOk(w', t) { assert ReleasedOk(w, t); }
    forall c ensures ClientOk(w', c) { assert ClientOk(w, c); }
    forall c, t ensures LinkOk(w', c, t) { assert LinkOk(w, c, t); }
  }

  lemma OwnControlKeeps(w: World, step: ControlStep)
    requires HeardOnce(w.d) && Links(w) && CanMove(w, Own(Control(step)))
    ensures Links(w.(d := ApplyControl(w.d, step)))
  {
    ControlBehind(w.d, step);
    OwnKeeps(w, ApplyControl(w.d, step));
  }

  lemma OwnAcquireKeeps(w: World, k: TaskId, step: AcquireStep)
    requires HeardOnce(w.d) && Links(w) && AcquireEnabled(w.d, k, step)
    ensures Links(w.(d := ApplyAcquire(w.d, k, step)))
  {
    AcquireBehind(w.d, k, step);
    OwnKeeps(w, ApplyAcquire(w.d, k, step));
  }

  lemma OwnFanOutKeeps(w: World, s: SessionId, step: SessionStep)
    requires HeardOnce(w.d) && Links(w) && FanOutEnabled(w.d, s, step)
    ensures Links(w.(d := ApplyFanOut(w.d, s, step)))
  {
    FanOutBehind(w.d, s, step);
    OwnKeeps(w, ApplyFanOut(w.d, s, step));
  }

  lemma OwnDataKeeps(w: World, t: Token, step: DataStep)
    requires HeardOnce(w.d) && Links(w) && CanMove(w, Own(Data(t, step)))
    ensures Links(w.(d := ApplyData(w.d, t, step)))
  {
    DataBehind(w.d, t, step);
    OwnKeeps(w, ApplyData(w.d, t, step));
  }

  lemma OwnStepKeeps(w: World, step: Step)
    requires HeardOnce(w.d) && Links(w) && CanMove(w, Own(step))
    ensures Links(Moved(w, Own(step)))
  {
    match step
    case Control(control) => OwnControlKeeps(w, control);
    case Acquiring(k, acquire) => OwnAcquireKeeps(w, k, acquire);
    case FanOut(s, fanOut) => OwnFanOutKeeps(w, s, fanOut);
    case Data(t, data) => OwnDataKeeps(w, t, data);
  }

  /* The moves of clients */

  // A client changes what it knows of `t` alone, the rest staying.
  lemma OpenKeeps(w: World, c: ConnId)
    requires HeardOnce(w.d) && Links(w) && CanMove(w, Open(c))
    ensures Links(Moved(w, Open(c)))
  {
    var w' := Moved(w, Open(c));
    assert Heard(w'.d, c) == [] && Heard(w.d, c) == [];
    forall b ensures Heard(w'.d, b) == Heard(w.d, b) {}
    forall t ensures ReleasedOk(w', t) { assert ReleasedOk(w, t); }
    forall b ensures ClientOk(w', b) { assert ClientOk(w, b); }
    forall k, t ensures AskOk(w', k, t) { assert AskOk(w, k, t); }
    forall b, t ensures LinkOk(w', b, t) { assert LinkOk(w, b, t); }
  }

  // The connections, streams and requests stay as they are, and the client `c`
  // keeps what it holds.
  lemma SameHoldKeeps(w: World, w': World, c: ConnId)
    requires HeardOnce(w.d) && Links(w) && c in w.clients && c in w'.clients
    requires w'.clients == w.clients[c := w'.clients[c]] && w'.released == w.released
    requires w'.d.conns == w.d.conns && w'.d.streams == w.d.streams
    requires forall k, t :: Asks(w'.d, k, t) ==> Asks(w.d, k, t)
    requires var x, x' := w.clients[c], w'.clients[c];
             && x'.held == x.held && x'.drops.Keys == x.drops.Keys
             && x'.ends.Keys == x.ends.Keys && x'.read.Keys == x.read.Keys
             && (x'.up ==> x.up)
             && (forall id, t :: Waiting(x', id, t) ==> Waiting(x, id, t))
    ensures Links(w')
  {
    forall t ensures ReleasedOk(w', t) { assert ReleasedOk(w, t); }
    forall b ensures ClientOk(w', b) { assert ClientOk(w, b); }
    forall k, t ensures AskOk(w', k, t) { assert AskOk(w, k, t); }
    forall b, t ensures LinkOk(w', b, t) { assert LinkOk(w, b, t); }
  }

  lemma ResumeKeeps(w: World, c: ConnId, id: nat)
    requires HeardOnce(w.d) && Links(w) && CanMove(w, Resume(c, id))
    ensures Links(Moved(w, Resume(c, id)))
  {
    var w' := Moved(w, Resume(c, id));
    var t := w.clients[c].answers[id];
    assert Waiting(w.clients[c], id, t);
    forall i, u ensures Waiting(w'.clients[c], i, u) <==> Waiting(w.clients[c], i, u) && i != id {}
    forall u ensures ReleasedOk(w', u) { assert ReleasedOk(w, u); }
    forall b ensures ClientOk(w', b) { assert ClientOk(w, b); }
    forall k, u ensures AskOk(w', k, u) { assert AskOk(w, k, u); }
    assert HeardOk(w.d, c, t);
    forall b, u ensures LinkOk(w', b, u) { assert LinkOk(w, b, u); }
  }

  // The data connection of a held stream comes up, or the stream is handed out.
  lemma HoldKeeps(w: World, w': World, c: ConnId, t: Token, hold: Hold)
    requires HeardOnce(w.d) && Links(w) && c in w.clients && t in w.clients[c].held && !hold.Registered?
    requires w' == w.(d := w'.d, clients := w.clients[c := w.clients[c].(held := w.clients[c].held[t := hold])])
    requires w'.d.conns == w.d.conns && w'.d.calls == w.d.calls && w'.d.streams.Keys == w.d.streams.Keys
    requires forall u :: u in w.d.streams ==> w'.d.streams[u].conn == w.d.streams[u].conn
    requires forall u :: Attends(w'.d, u) <==> Attends(w.d, u) || u == t
    ensures Links(w')
  {
    forall u ensures ReleasedOk(w', u) { assert ReleasedOk(w, u); }
    forall b ensures ClientOk(w', b) { assert ClientOk(w, b); }
    forall k, u ensures AskOk(w', k, u) { assert AskOk(w, k, u); }
    assert LinkOk(w, c, t);
    assert HeardOk(w.d, c, t);
    assert forall id, u :: Waiting(w'.clients[c], id, u) <==> Waiting(w.clients[c], id, u);
    forall b, u ensures LinkOk(w', b, u) { assert LinkOk(w, b, u); }
  }

  lemma AttachDataKeeps(w: World, c: ConnId, t: Token)
    requires HeardOnce(w.d) && Links(w) && CanMove(w, AttachData(c, t))
    ensures Links(Moved(w, AttachData(c, t)))
  {
    HoldKeeps(w, Moved(w, AttachData(c, t)), c, t, Attached);
  }

  lemma HandOutKeeps(w: World, c: ConnId, t: Token)
    requires HeardOnce(w.d) && Links(w) && CanMove(w, HandOut(c, t))
    ensures Links(Moved(w, HandOut(c, t)))
  {
    assert LinkOk(w, c, t);
    HoldKeeps(w, Moved(w, HandOut(c, t)), c, t, Handed);
  }

  // Asks for a stream the client has been told of, and knows no more.
  lemma AskReleaseKeeps(w: World, c: ConnId, t: Token, k: TaskId)
    requires HeardOnce(w.d) && Links(w) && CanAskRelease(w, c, k) && Hears(w.d, c, t)
    requires t !in w.clients[c].held && !Awaited(w.clients[c], t)
    ensures Links(AskRelease(w, c, t, k))
  {
    var w' := AskRelease(w, c, t, k);
    assert HeardOk(w.d, c, t);
    forall u ensures ReleasedOk(w', u) { assert ReleasedOk(w, u); }
    forall b ensures ClientOk(w', b) { assert ClientOk(w, b); }
    forall j, u ensures AskOk(w', j, u) { assert AskOk(w, j, u); }
    forall b, u ensures LinkOk(w', b, u) { assert LinkOk(w, b, u); assert HeardOk(w.d, b, u); }
  }

  // The client lets go of a held stream.
  lemma LetGoKeeps(w: World, c: ConnId, t: Token)
    requires HeardOnce(w.d) && Links(w) && c in w.clients && t in w.clients[c].held
    ensures var w' := WithClient(w, c, LetGo(w.clients[c], t));
            Links(w') && Hears(w'.d, c, t) && !Awaited(w'.clients[c], t)
  {
    var w' := WithClient(w, c, LetGo(w.clients[c], t));
    assert LinkOk(w, c, t);
    forall i, u ensures Waiting(w'.clients[c], i, u) <==> Waiting(w.clients[c], i, u) {}
    forall u ensures ReleasedOk(w', u) { assert ReleasedOk(w, u); }
    forall b ensures ClientOk(w', b) { assert ClientOk(w, b); }
    forall k, u ensures AskOk(w', k, u) { assert AskOk(w, k, u); }
    forall b, u ensures LinkOk(w', b, u) { assert LinkOk(w, b, u); }
  }

  lemma DropKeeps(w: World, c: ConnId, t: Token, k: TaskId)
    requires HeardOnce(w.d) && Links(w) && CanMove(w, Drop(c, t, k))
    ensures Links(Moved(w, Drop(c, t, k)))
  {
    LetGoKeeps(w, c, t);
    var gone := WithClient(w, c, LetGo(w.clients[c], t));
    if w.clients[c].up {
      assert ClientOk(w, c);
      AskReleaseKeeps(gone, c, t, k);
      var now, then' := Moved(w, Drop(c, t, k)), AskRelease(gone, c, t, k);
      assert now.clients == then'.clients && now.released == then'.released;
      SameAsk(now, then');
    }
  }

  // The id of a request is of no account.
  lemma SameAsk(w: World, w': World)
    requires Links(w') && w.clients == w'.clients && w.released == w'.released
    requires w.d.conns == w'.d.conns && w.d.streams == w'.d.streams
    requires forall k, t :: Asks(w.d, k, t) <==> Asks(w'.d, k, t)
    ensures Links(w)
  {
    forall u ensures ReleasedOk(w, u) { assert ReleasedOk(w', u); }
    forall b ensures ClientOk(w, b) { assert ClientOk(w', b); }
    forall j, u ensures AskOk(w, j, u) { assert AskOk(w', j, u); }
    forall b, u ensures LinkOk(w, b, u) { assert LinkOk(w', b, u); }
  }

  /* The reader task */

  lemma HeardOneMore(d: Daemon, c: ConnId, t: Token)
    requires ControlEnabled(d, Deliver(c)) && HeardOnce(d) && HeardOnce(ApplyControl(d, Deliver(c)))
    ensures var d' := ApplyControl(d, Deliver(c));
            && Heard(d', c) == Heard(d, c) + [Next(d, c)]
            && A.Tellings(Heard(d', c), t) == A.Tellings(Heard(d, c), t) + (if A.Tells(Next(d, c), t) then 1 else 0)
            && A.Tellings(Heard(d', c), t) <= 1
  {
    var d' := ApplyControl(d, Deliver(c));
    assert Heard(d', c) == Heard(d, c) + [Next(d, c)];
    A.TellingsOneMore(Heard(d, c), Next(d, c), t);
    assert HeardOk(d', c, t);
  }

  // The reader on a message, the release it may ask for aside.
  function Read1(w: World, c: ConnId): World
    requires Knows(w, c) && ControlEnabled(w.d, Deliver(c))
  {
    w.(d := ApplyControl(w.d, Deliver(c)), clients := w.clients[c := Took(w.clients[c], Next(w.d, c))])
  }

  // It tells no token.
  lemma ReadPlainKeeps(w: World, c: ConnId)
    requires HeardOnce(w.d) && Links(w) && Knows(w, c) && ControlEnabled(w.d, Deliver(c)) && !Next(w.d, c).Acquired?
    requires HeardOnce(ApplyControl(w.d, Deliver(c)))
    ensures Links(Read1(w, c))
  {
    PlainIsNotHeard(w.d, c);
    TookPlain(w.clients[c], Next(w.d, c));
    SameHearingKeeps(w, Read1(w, c), c);
  }

  lemma TookPlain(x: Inner, m: Message)
    requires !m.Acquired?
    ensures SameHold(x, Took(x, m))
  {
  }

  lemma PlainIsNotHeard(d: Daemon, c: ConnId)
    requires ControlEnabled(d, Deliver(c)) && HeardOnce(d) && HeardOnce(ApplyControl(d, Deliver(c)))
    requires !Next(d, c).Acquired?
    ensures forall b, t :: Hears(ApplyControl(d, Deliver(c)), b, t) == Hears(d, b, t)
  {
    var d' := ApplyControl(d, Deliver(c));
    forall b, t ensures Hears(d', b, t) == Hears(d, b, t) {
      if b == c { HeardOneMore(d, c, t); } else { assert Heard(d', b) == Heard(d, b); }
    }
  }

  // The same tokens are heard, and known.
  lemma SameHearingKeeps(w: World, w': World, c: ConnId)
    requires Links(w) && c in w.clients && c in w'.clients
    requires w'.clients == w.clients[c := w'.clients[c]] && w'.released == w.released
    requires w'.d == w.d.(conns := w'.d.conns) && w'.d.conns.Keys == w.d.conns.Keys
    requires forall b :: b in w.d.conns ==> w'.d.conns[b].owned == w.d.conns[b].owned
    requires forall b, t :: Hears(w'.d, b, t) == Hears(w.d, b, t)
    requires SameHold(w.clients[c], w'.clients[c])
    ensures Links(w')
  {
    assert forall i, u :: Waiting(w'.clients[c], i, u) <==> Waiting(w.clients[c], i, u);
    forall u ensures ReleasedOk(w', u) { assert ReleasedOk(w, u); }
    forall b ensures ClientOk(w', b) { assert ClientOk(w, b); }
    forall j, u ensures AskOk(w', j, u) { assert AskOk(w, j, u); }
    forall b, u ensures LinkOk(w', b, u) { assert LinkOk(w, b, u); }
  }

  predicate SameHold(x: Inner, x': Inner) {
    && x'.held == x.held && x'.drops.Keys == x.drops.Keys && x'.ends.Keys == x.ends.Keys && x'.read.Keys == x.read.Keys
    && x'.up == x.up && x'.answers == x.answers
  }

  // A token told now is known nowhere yet.
  lemma TokenIsNew(w: World, c: ConnId)
    requires HeardOnce(w.d) && Links(w) && Knows(w, c) && ControlEnabled(w.d, Deliver(c)) && Next(w.d, c).Acquired?
    requires HeardOnce(ApplyControl(w.d, Deliver(c)))
    ensures var t := Next(w.d, c).token; var w' := Read1(w, c);
            && Hears(w'.d, c, t) && !Hears(w.d, c, t)
            && t !in w.released && t !in w.clients[c].held && !Awaited(w.clients[c], t)
            && !(Attends(w.d, t) && w.d.streams[t].conn == c)
            && t in w.d.streams && w.d.streams[t].conn == c
  {
    var t := Next(w.d, c).token;
    HeardOneMore(w.d, c, t);
    assert LinkOk(w, c, t);
    assert ReleasedOk(w, t);
    assert HeardOk(ApplyControl(w.d, Deliver(c)), c, t);
  }

  lemma TokenIsHeard(d: Daemon, c: ConnId)
    requires ControlEnabled(d, Deliver(c)) && HeardOnce(d) && HeardOnce(ApplyControl(d, Deliver(c)))
    requires Next(d, c).Acquired? && !Hears(d, c, Next(d, c).token)
    ensures forall b, u ::
              Hears(ApplyControl(d, Deliver(c)), b, u) <==> Hears(d, b, u) || (b == c && u == Next(d, c).token)
  {
    var d', t := ApplyControl(d, Deliver(c)), Next(d, c).token;
    forall b, u ensures Hears(d', b, u) <==> Hears(d, b, u) || (b == c && u == t) {
      if b == c { HeardOneMore(d, c, u); } else { assert Heard(d', b) == Heard(d, b); }
    }
  }

  lemma TookToken(x: Inner, m: Message)
    requires m.Acquired?
    ensures var x' := Took(x, m);
            && x'.held == x.held && x'.read == x.read && x'.up == x.up
            && (forall u :: u != m.token ==> (u in x'.drops <==> u in x.drops) && (u in x'.ends <==> u in x.ends))
            && (m.token !in x.drops ==> x'.drops == x.drops) && (m.token !in x.ends ==> x'.ends == x.ends)
            && (forall i, u :: Waiting(x', i, u) ==> Waiting(x, i, u) || (i == m.id && u == m.token && !Late(x, m)))
  {
    assert m.token !in x.drops ==> x.drops - {m.token} == x.drops;
    assert m.token !in x.ends ==> x.ends - {m.token} == x.ends;
  }

  lemma ReadTokenKeeps(w: World, c: ConnId)
    requires HeardOnce(w.d) && Links(w) && Knows(w, c) && ControlEnabled(w.d, Deliver(c)) && Next(w.d, c).Acquired?
    requires HeardOnce(ApplyControl(w.d, Deliver(c)))
    ensures Links(Read1(w, c))
    ensures Late(w.clients[c], Next(w.d, c)) ==> !Awaited(Read1(w, c).clients[c], Next(w.d, c).token)
    ensures Next(w.d, c).token !in Read1(w, c).clients[c].held
  {
    var w' := Read1(w, c);
    var m := Next(w.d, c);
    var t := m.token;
    TokenIsNew(w, c);
    TokenIsHeard(w.d, c);
    TookToken(w.clients[c], m);
    assert forall id :: !Waiting(w.clients[c], id, t);
    assert LinkOk(w, c, t);
    forall u ensures ReleasedOk(w', u) { assert ReleasedOk(w, u); }
    forall b ensures ClientOk(w', b) { assert ClientOk(w, b); }
    forall j, u ensures AskOk(w', j, u) { assert AskOk(w, j, u); }
    forall b, u ensures LinkOk(w', b, u) { assert LinkOk(w, b, u); }
  }

  lemma ReceiveKeeps(w: World, c: ConnId, k: TaskId)
    requires HeardOnce(w.d) && Links(w) && CanMove(w, Receive(c, k)) && HeardOnce(ApplyControl(w.d, Deliver(c)))
    ensures Links(Moved(w, Receive(c, k)))
  {
    if Late(w.clients[c], Next(w.d, c)) { ReceiveLateKeeps(w, c, k); }
    else if Next(w.d, c).Acquired? { ReadTokenKeeps(w, c); }
    else { ReadPlainKeeps(w, c); }
  }

  lemma ReceiveLateKeeps(w: World, c: ConnId, k: TaskId)
    requires HeardOnce(w.d) && Links(w) && CanMove(w, Receive(c, k)) && HeardOnce(ApplyControl(w.d, Deliver(c)))
    requires Late(w.clients[c], Next(w.d, c))
    ensures Links(Moved(w, Receive(c, k)))
  {
    var w1 := Read1(w, c);
    var t := Next(w.d, c).token;
    ReadTokenKeeps(w, c);
    TokenIsNew(w, c);
    AskReleaseKeeps(w1, c, t, k);
    LateIsAsked(w, c, k);
    SameAsk(Moved(w, Receive(c, k)), AskRelease(w1, c, t, k));
  }

  // The order the reader takes a message and asks in is of no account.
  lemma LateIsAsked(w: World, c: ConnId, k: TaskId)
    requires CanMove(w, Receive(c, k)) && Late(w.clients[c], Next(w.d, c))
    ensures CanAskRelease(Read1(w, c), c, k)
    ensures var w1, w2 := Moved(w, Receive(c, k)), AskRelease(Read1(w, c), c, Next(w.d, c).token, k);
            && w1.clients == w2.clients && w1.released == w2.released
            && w1.d.conns == w2.d.conns && w1.d.streams == w2.d.streams
            && forall j, u :: Asks(w1.d, j, u) <==> Asks(w2.d, j, u)
  {
  }

  lemma MovedKeepsLinks(w: World, move: Move)
    requires Runs.Inv(w.d) && Links(w) && CanMove(w, move)
    ensures Links(Moved(w, move))
  {
    HeardIsTold(w.d);
    if move.Receive? { Runs.ControlKeeps(w.d, Deliver(move.c)); HeardIsTold(ApplyControl(w.d, Deliver(move.c))); }
    MoveKeeps(w, move);
  }

  lemma MoveKeeps(w: World, move: Move)
    requires HeardOnce(w.d) && Links(w) && CanMove(w, move)
    requires move.Receive? ==> HeardOnce(ApplyControl(w.d, Deliver(move.c)))
    ensures Links(Moved(w, move))
  {
    match move
    case Open(c) => OpenKeeps(w, c);
    case Receive(c, k) => ReceiveKeeps(w, c, k);
    case Resume(c, id) => ResumeKeeps(w, c, id);
    case AttachData(c, t) => AttachDataKeeps(w, c, t);
    case HandOut(c, t) => HandOutKeeps(w, c, t);
    case Drop(c, t, k) => DropKeeps(w, c, t, k);
    case Own(step) => OwnStepKeeps(w, step);
    case Call(c, _, _, _) => SameHoldKeeps(w, Moved(w, move), c);
    case GiveUp(c, _) => SameHoldKeeps(w, Moved(w, move), c);
    case DropAnswer(c, _) => SameHoldKeeps(w, Moved(w, move), c);
    case Read(c, _) => SameHoldKeeps(w, Moved(w, move), c);
    case Lose(c) => SameHoldKeeps(w, Moved(w, move), c);
  }
}
