/**
 How tunelithd answers an acquire: the token of a stream is told on the
 connection it was acquired through, at most once, and only once the task that
 acquired it has nothing more to do with it.
 */
module TunelithdAnswers {
  import opened Tunelithd

  predicate Tells(m: Message, t: Token) {
    m.Acquired? && m.token == t
  }

  // How often `ms` tells the token `t`.
  function Tellings(ms: seq<Message>, t: Token): nat {
    if ms == [] then 0 else Tellings(ms[..|ms| - 1], t) + if Tells(ms[|ms| - 1], t) then 1 else 0
  }

  lemma TellingsOneMore(ms: seq<Message>, m: Message, t: Token)
    ensures Tellings(ms + [m], t) == Tellings(ms, t) + if Tells(m, t) then 1 else 0
  {
    assert (ms + [m])[..|ms|] == ms;
  }

  // Events tell no token.
  lemma TellingsOfEvents(ms: seq<Message>, t: Token, sub: Subscriber, end: seq<Message>, u: Token)
    requires end == [] || exists text :: end == [StreamEndEvent(t, text)]
    ensures Tellings(ms + (DropEvents(t, sub) + end), u) == Tellings(ms, u)
  {
    var drops := DropEvents(t, sub);
    assert Tellings(ms + drops, u) == Tellings(ms, u) by {
      if sub.dropped > 0 { TellingsOneMore(ms, drops[0], u); } else { assert ms + drops == ms; }
    }
    if end == [] {
      assert drops + end == drops;
    } else {
      assert ms + (drops + end) == (ms + drops) + [end[0]];
      TellingsOneMore(ms + drops, end[0], u);
    }
  }

  // The task has yet to tell, or to send, the token of its stream.
  predicate HasYetToTell(call: Call, t: Token) {
    || (call.Acquire? && (call.at.Subscribed? || call.at.GivingBack?) && call.at.token == t)
    || (call.Answering? && Tells(call.message, t))
  }

  predicate Untold(d: Daemon, k: TaskId, t: Token) {
    k in d.calls && HasYetToTell(d.calls[k], t)
  }

  function Told(d: Daemon, c: ConnId, t: Token): nat {
    if c in d.conns then Tellings(d.conns[c].sent, t) else 0
  }

  predicate UntoldOk(d: Daemon, k: TaskId, t: Token) {
    Untold(d, k, t) ==>
      && t in d.streams && d.calls[k].conn == d.streams[t].conn
      && Told(d, d.streams[t].conn, t) == 0
  }

  predicate ToldOk(d: Daemon, c: ConnId, t: Token) {
    && Told(d, c, t) <= 1
    && (Told(d, c, t) == 1 ==> t in d.streams && d.streams[t].conn == c)
  }

  ghost predicate OneTask(d: Daemon) {
    forall k, k', t :: Untold(d, k, t) && Untold(d, k', t) ==> k == k'
  }

  ghost predicate Answered(d: Daemon) {
    && OneTask(d)
    && (forall k, t :: UntoldOk(d, k, t))
    && (forall c, t :: ToldOk(d, c, t))
  }

  // No token is told, nor any task given one to tell.
  lemma QuietKeeps(d: Daemon, d': Daemon)
    requires Answered(d)
    requires forall k, t :: Untold(d', k, t) ==> Untold(d, k, t) && d'.calls[k].conn == d.calls[k].conn
    requires forall c, t :: Told(d', c, t) == Told(d, c, t)
    requires d.streams.Keys <= d'.streams.Keys
    requires forall t :: t in d.streams ==> d'.streams[t].conn == d.streams[t].conn
    ensures Answered(d')
  {
    forall k, t ensures UntoldOk(d', k, t) { assert UntoldOk(d, k, t); }
    forall c, t ensures ToldOk(d', c, t) { assert ToldOk(d, c, t); }
  }

  // The same, the connections being the same.
  lemma CallKeeps(d: Daemon, d': Daemon)
    requires Answered(d) && d'.conns == d.conns
    requires forall k, t :: Untold(d', k, t) ==> Untold(d, k, t) && d'.calls[k].conn == d.calls[k].conn
    requires d.streams.Keys <= d'.streams.Keys
    requires forall t :: t in d.streams ==> d'.streams[t].conn == d.streams[t].conn
    ensures Answered(d')
  {
    QuietKeeps(d, d');
  }

  lemma SubscribedKeeps(d: Daemon, d': Daemon, k: TaskId, t: Token)
    requires Answered(d) && k in d.calls && t !in d.streams && d'.conns == d.conns
    requires t in d'.streams && d'.streams[t].conn == d.calls[k].conn && d.streams.Keys <= d'.streams.Keys
    requires forall u :: u in d.streams ==> d'.streams[u].conn == d.streams[u].conn
    requires d.calls[k].Acquire? && d'.calls == d.calls[k := d.calls[k].(at := Subscribed(t))]
    ensures Answered(d')
  {
    forall j ensures !Untold(d, j, t) { assert UntoldOk(d, j, t); }
    forall c ensures Told(d, c, t) == 0 { assert ToldOk(d, c, t); }
    forall j, u ensures Untold(d', j, u) ==> (j == k && u == t) || (j != k && Untold(d, j, u)) {}
    assert Told(d', d.calls[k].conn, t) == Told(d, d.calls[k].conn, t);
    forall j, u ensures UntoldOk(d', j, u) { assert UntoldOk(d, j, u); }
    forall c, u ensures ToldOk(d', c, u) { assert ToldOk(d, c, u); }
  }

  lemma JoinKeeps(d: Daemon, k: TaskId, t: Token)
    requires Answered(d) && AcquireEnabled(d, k, Join(t))
    ensures Answered(ApplyAcquire(d, k, Join(t)))
  {
    SubscribedKeeps(d, ApplyAcquire(d, k, Join(t)), k, t);
  }

  lemma TunedKeeps(d: Daemon, k: TaskId, s: SessionId, t: Token)
    requires Answered(d) && AcquireEnabled(d, k, Tuned(s, t))
    ensures Answered(ApplyAcquire(d, k, Tuned(s, t)))
  {
    SubscribedKeeps(d, ApplyAcquire(d, k, Tuned(s, t)), k, t);
  }

  lemma KeepKeeps(d: Daemon, k: TaskId, step: AcquireStep)
    requires Answered(d) && AcquireEnabled(d, k, step) && (step.Keep? || step.KeepTooLate?)
    ensures Answered(ApplyAcquire(d, k, step))
  {
    QuietKeeps(d, ApplyAcquire(d, k, step));
  }

  lemma AcquireKeeps(d: Daemon, k: TaskId, step: AcquireStep)
    requires Answered(d) && AcquireEnabled(d, k, step)
    ensures Answered(ApplyAcquire(d, k, step))
  {
    match step
    case Join(t) => JoinKeeps(d, k, t);
    case Tuned(s, t) => TunedKeeps(d, k, s, t);
    case Keep => KeepKeeps(d, k, step);
    case KeepTooLate => KeepKeeps(d, k, step);
    case _ => CallKeeps(d, ApplyAcquire(d, k, step));
  }

  lemma AnswerKeeps(d: Daemon, k: TaskId)
    requires Answered(d) && ControlEnabled(d, Answer(k))
    ensures Answered(ApplyControl(d, Answer(k)))
  {
    var d' := ApplyControl(d, Answer(k));
    var m := d.calls[k].message;
    forall c, t
      ensures Told(d', c, t) == Told(d, c, t) + if Tells(m, t) && c == d.calls[k].conn && c in d.conns then 1 else 0
    {
      if c in d.conns { TellingsOneMore(d.conns[c].sent, m, t); }
    }
    forall j, t ensures Untold(d', j, t) ==> Untold(d, j, t) && j != k {}
    forall j, t ensures UntoldOk(d', j, t) {
      assert UntoldOk(d, j, t);
      assert Tells(m, t) ==> Untold(d, k, t);
    }
    forall c, t ensures ToldOk(d', c, t) {
      assert ToldOk(d, c, t);
      assert UntoldOk(d, k, t);
      assert Tells(m, t) ==> Untold(d, k, t);
    }
  }

  lemma ControlKeeps(d: Daemon, step: ControlStep)
    requires Answered(d) && ControlEnabled(d, step)
    ensures Answered(ApplyControl(d, step))
  {
    match step
    case Answer(k) => AnswerKeeps(d, k);
    case _ => QuietKeeps(d, ApplyControl(d, step));
  }

  lemma EventsQuiet(d: Daemon, d': Daemon, t: Token, sub: Subscriber, end: seq<Message>)
    requires Answered(d) && d'.calls == d.calls
    requires end == [] || exists text :: end == [StreamEndEvent(t, text)]
    requires d'.conns == Send(d.conns, sub.conn, DropEvents(t, sub) + end)
    requires d.streams.Keys <= d'.streams.Keys
    requires forall u :: u in d.streams ==> d'.streams[u].conn == d.streams[u].conn
    ensures Answered(d')
  {
    forall c, u ensures Told(d', c, u) == Told(d, c, u) {
      if c == sub.conn && c in d.conns { TellingsOfEvents(d.conns[c].sent, t, sub, end, u); }
    }
    QuietKeeps(d, d');
  }

  lemma OfferKeeps(d: Daemon, s: SessionId, t: Token)
    requires Answered(d) && FanOutEnabled(d, s, Offer(t))
    ensures Answered(ApplyFanOut(d, s, Offer(t)))
  {
    var sub := d.sess[s].subs[t];
    if TrySend(d.streams[t]).Taken? {
      assert DropEvents(t, sub) + [] == DropEvents(t, sub);
      EventsQuiet(d, OfferTo(d, s, t), t, sub, []);
    } else {
      assert DropEvents(t, sub.(dropped := 0)) + [] == [];
      EventsQuiet(d, OfferTo(d, s, t), t, sub.(dropped := 0), []);
    }
  }

  lemma EndOneKeeps(d: Daemon, s: SessionId, t: Token)
    requires Answered(d) && FanOutEnabled(d, s, EndOne(t))
    ensures Answered(ApplyFanOut(d, s, EndOne(t)))
  {
    EventsQuiet(d, Farewell(d, s, t), t, d.sess[s].subs[t], [StreamEndEvent(t, d.sess[s].phase.why.Text())]);
  }

  lemma FanOutKeeps(d: Daemon, s: SessionId, step: SessionStep)
    requires Answered(d) && FanOutEnabled(d, s, step)
    ensures Answered(ApplyFanOut(d, s, step))
  {
    match step
    case Offer(t) => OfferKeeps(d, s, t);
    case EndOne(t) => EndOneKeeps(d, s, t);
    case _ => CallKeeps(d, ApplyFanOut(d, s, step));
  }

  lemma DataKeeps(d: Daemon, t: Token, step: DataStep)
    requires Answered(d) && DataEnabled(d, t, step)
    ensures Answered(ApplyData(d, t, step))
  {
    CallKeeps(d, ApplyData(d, t, step));
  }
}
