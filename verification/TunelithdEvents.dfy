/**
 What tunelithd tells a client of its streams: the events sent on a control
 connection are exactly the drops of each stream acquired through it, in
 order, then how it ended.
 */
module TunelithdEvents {
  import opened Options
  import opened Tunelithd

  predicate About(m: Message, t: Token) {
    (m.DropEvent? || m.StreamEndEvent?) && m.token == t
  }

  // The events of `t` among `ms`, in order.
  function Events(ms: seq<Message>, t: Token): seq<Message> {
    if ms == [] then []
    else
      var last := ms[|ms| - 1];
      Events(ms[..|ms| - 1], t) + if About(last, t) then [last] else []
  }

  lemma {:induction false} EventsAppend(ms: seq<Message>, more: seq<Message>, t: Token)
    ensures Events(ms + more, t) == Events(ms, t) + Events(more, t)
    decreases |more|
  {
    if more == [] {
      assert ms + more == ms;
    } else {
      var rest := more[..|more| - 1];
      assert (ms + more)[..|ms + more| - 1] == ms + rest;
      EventsAppend(ms, rest, t);
    }
  }

  function DropsOf(t: Token, drops: seq<nat>): seq<Message> {
    if drops == [] then [] else DropsOf(t, drops[..|drops| - 1]) + [DropEvent(t, drops[|drops| - 1])]
  }

  // The events the history of a stream amounts to.
  function Reports(t: Token, x: Stream): seq<Message> {
    DropsOf(t, x.drops) + if x.ended.Some? then [StreamEndEvent(t, x.ended.value)] else []
  }

  lemma DropsOfFlushed(t: Token, drops: seq<nat>, sub: Subscriber)
    ensures DropsOf(t, drops + Flushed(sub)) == DropsOf(t, drops) + DropEvents(t, sub)
  {
    if sub.dropped > 0 { assert (drops + [sub.dropped])[..|drops|] == drops; }
    else { assert drops + [] == drops; }
  }

  // What the control connection `c` is to have been told of `t`.
  function Owed(d: Daemon, c: ConnId, t: Token): seq<Message> {
    if t in d.streams && d.streams[t].conn == c then Reports(t, d.streams[t]) else []
  }

  predicate ToldOf(d: Daemon, c: ConnId, t: Token) {
    c in d.conns ==> Events(d.conns[c].sent, t) == Owed(d, c, t)
  }

  ghost predicate Told(d: Daemon) {
    forall c, t :: ToldOf(d, c, t)
  }

  ghost predicate ConnsKnown(d: Daemon) {
    && (forall t :: t in d.streams ==> d.streams[t].conn in d.conns)
    && (forall k :: k in d.calls ==> d.calls[k].conn in d.conns)
    && (forall c :: c in d.conns ==> d.conns[c].received <= |d.conns[c].sent|)
  }

  ghost predicate Messages(d: Daemon) {
    ConnsKnown(d) && Told(d)
  }

  /* Steps that send no event */

  ghost predicate SameSent(d: Daemon, d': Daemon) {
    && d'.conns.Keys == d.conns.Keys
    && (forall c :: c in d.conns ==> d'.conns[c].sent == d.conns[c].sent && d'.conns[c].received <= |d.conns[c].sent|)
  }

  // Whether the same has been told of every stream.
  ghost predicate SameTold(d: Daemon, d': Daemon) {
    && d'.streams.Keys == d.streams.Keys
    && (forall t :: t in d.streams ==>
          && d'.streams[t].conn == d.streams[t].conn
          && d'.streams[t].drops == d.streams[t].drops && d'.streams[t].ended == d.streams[t].ended)
  }

  ghost predicate CallsKnown(d: Daemon) {
    forall k :: k in d.calls ==> d.calls[k].conn in d.conns
  }

  lemma SilentKeeps(d: Daemon, d': Daemon)
    requires Messages(d) && SameSent(d, d') && SameTold(d, d') && CallsKnown(d')
    ensures Messages(d')
  {
    forall c, t ensures ToldOf(d', c, t) { assert ToldOf(d, c, t); }
  }

  lemma ReleaseSilent(d: Daemon, t: Token)
    requires CanRelease(d, t)
    ensures var d' := Release(d, t); SameTold(d, d') && d'.conns == d.conns && d'.calls == d.calls
  {
  }

  lemma SubscribeKeeps(d: Daemon, s: SessionId, c: ConnId, t: Token)
    requires Messages(d) && Fresh(d, t) && s in d.sess && c in d.conns
    ensures Messages(Subscribe(d, s, c, t))
  {
    var d' := Subscribe(d, s, c, t);
    forall b, u ensures ToldOf(d', b, u) {
      assert ToldOf(d, b, u);
    }
  }

  lemma CallChangeKeeps(d: Daemon, d': Daemon)
    requires Messages(d) && d'.conns == d.conns && d'.streams == d.streams && CallsKnown(d')
    ensures Messages(d')
  {
    SilentKeeps(d, d');
  }

  lemma JoinKeeps(d: Daemon, k: TaskId, t: Token)
    requires Messages(d) && AcquireEnabled(d, k, Join(t))
    ensures Messages(ApplyAcquire(d, k, Join(t)))
  {
    var s := SharedFor(d, k).value;
    SubscribeKeeps(d, s, d.calls[k].conn, t);
    CallChangeKeeps(Subscribe(d, s, d.calls[k].conn, t), ApplyAcquire(d, k, Join(t)));
  }

  lemma TunedKeeps(d: Daemon, k: TaskId, s: SessionId, t: Token)
    requires Messages(d) && AcquireEnabled(d, k, Tuned(s, t))
    ensures Messages(ApplyAcquire(d, k, Tuned(s, t)))
  {
    var d1 := Started(d, k, s);
    CallChangeKeeps(d, d1);
    SubscribeKeeps(d1, s, d.calls[k].conn, t);
    CallChangeKeeps(Subscribe(d1, s, d.calls[k].conn, t), ApplyAcquire(d, k, Tuned(s, t)));
  }

  lemma GiveBackKeeps(d: Daemon, k: TaskId)
    requires Messages(d) && AcquireEnabled(d, k, GiveBack)
    ensures Messages(ApplyAcquire(d, k, GiveBack))
  {
    ReleaseSilent(d, d.calls[k].at.token);
    SilentKeeps(d, ApplyAcquire(d, k, GiveBack));
  }

  lemma KeepKeeps(d: Daemon, k: TaskId)
    requires Messages(d) && AcquireEnabled(d, k, Keep)
    ensures Messages(ApplyAcquire(d, k, Keep))
  {
    SilentKeeps(d, ApplyAcquire(d, k, Keep));
  }

  lemma TunedNoTokenKeeps(d: Daemon, k: TaskId, s: SessionId)
    requires Messages(d) && AcquireEnabled(d, k, TunedNoToken(s))
    ensures Messages(ApplyAcquire(d, k, TunedNoToken(s)))
  {
    CallChangeKeeps(d, ApplyAcquire(d, k, TunedNoToken(s)));
  }

  lemma OtherAcquireKeeps(d: Daemon, k: TaskId, step: AcquireStep)
    requires Messages(d) && AcquireEnabled(d, k, step)
    requires !step.Join? && !step.Tuned? && !step.GiveBack? && !step.Keep? && !step.TunedNoToken?
    ensures Messages(ApplyAcquire(d, k, step))
  {
    CallChangeKeeps(d, ApplyAcquire(d, k, step));
  }

  lemma AcquireKeeps(d: Daemon, k: TaskId, step: AcquireStep)
    requires Messages(d) && AcquireEnabled(d, k, step)
    ensures Messages(ApplyAcquire(d, k, step))
  {
    match step
    case Join(t) => JoinKeeps(d, k, t);
    case Tuned(s, t) => TunedKeeps(d, k, s, t);
    case GiveBack => GiveBackKeeps(d, k);
    case Keep => KeepKeeps(d, k);
    case TunedNoToken(s) => TunedNoTokenKeeps(d, k, s);
    case _ => OtherAcquireKeeps(d, k, step);
  }

  /* Sending */

  lemma ConnectKeeps(d: Daemon, c: ConnId)
    requires Messages(d) && ControlEnabled(d, Connect(c))
    ensures Messages(ApplyControl(d, Connect(c)))
  {
    var d' := ApplyControl(d, Connect(c));
    forall b, u ensures ToldOf(d', b, u) {
      assert ToldOf(d, b, u);
    }
  }

  lemma AnswerKeeps(d: Daemon, k: TaskId)
    requires Messages(d) && ControlEnabled(d, Answer(k))
    requires !d.calls[k].message.DropEvent? && !d.calls[k].message.StreamEndEvent?
    ensures Messages(ApplyControl(d, Answer(k)))
  {
    var d' := ApplyControl(d, Answer(k));
    forall b, u ensures ToldOf(d', b, u) {
      assert ToldOf(d, b, u);
      if b in d.conns { EventsAppend(d.conns[b].sent, [d.calls[k].message], u); }
    }
  }

  // What the tasks answer with is no event.
  ghost predicate Answers(d: Daemon) {
    forall k :: k in d.calls && d.calls[k].Answering? ==>
      !d.calls[k].message.DropEvent? && !d.calls[k].message.StreamEndEvent?
  }

  lemma ControlKeeps(d: Daemon, step: ControlStep)
    requires Messages(d) && Answers(d) && ControlEnabled(d, step)
    ensures Messages(ApplyControl(d, step))
  {
    match step
    case Connect(c) => ConnectKeeps(d, c);
    case Answer(k) => AnswerKeeps(d, k);
    case ReleaseAsked(_) => ReleasingKeeps(d, step);
    case ReleaseLeft(_, _) => ReleasingKeeps(d, step);
    case RequestAcquire(_, _, _, _, _) => RequestKeeps(d, step);
    case RequestRelease(_, _, _, _) => RequestKeeps(d, step);
    case _ => OtherControlKeeps(d, step);
  }

  lemma ReleasingKeeps(d: Daemon, step: ControlStep)
    requires Messages(d) && ControlEnabled(d, step) && (step.ReleaseAsked? || step.ReleaseLeft?)
    ensures Messages(ApplyControl(d, step))
  {
    ReleaseSilent(d, if step.ReleaseAsked? then d.calls[step.k].token else step.t);
    SilentKeeps(d, ApplyControl(d, step));
  }

  lemma RequestKeeps(d: Daemon, step: ControlStep)
    requires Messages(d) && ControlEnabled(d, step) && (step.RequestAcquire? || step.RequestRelease?)
    ensures Messages(ApplyControl(d, step))
  {
    CallChangeKeeps(d, ApplyControl(d, step));
  }

  lemma OtherControlKeeps(d: Daemon, step: ControlStep)
    requires Messages(d) && ControlEnabled(d, step)
    requires step.Disown? || step.Deliver? || step.Leave? || step.Unpark?
    ensures Messages(ApplyControl(d, step))
  {
    var d' := ApplyControl(d, step);
    assert step.Unpark? || d'.streams == d.streams;
    SilentKeeps(d, d');
  }

  // Sends `ms`, events of `t` all, and records what they tell.
  lemma SendKeeps(d: Daemon, d': Daemon, t: Token, ms: seq<Message>)
    requires Messages(d) && t in d.streams && t in d'.streams && d'.calls == d.calls
    requires d'.streams == d.streams[t := d'.streams[t]] && d'.streams[t].conn == d.streams[t].conn
    requires d'.conns == Send(d.conns, d.streams[t].conn, ms)
    requires Reports(t, d'.streams[t]) == Reports(t, d.streams[t]) + ms
    requires forall u :: Events(ms, u) == if u == t then ms else []
    ensures Messages(d')
  {
    forall b, u ensures ToldOf(d', b, u) { SendTells(d, d', t, ms, b, u); }
  }

  lemma SendTells(d: Daemon, d': Daemon, t: Token, ms: seq<Message>, c: ConnId, u: Token)
    requires ToldOf(d, c, u) && t in d.streams && t in d'.streams
    requires d'.streams == d.streams[t := d'.streams[t]] && d'.streams[t].conn == d.streams[t].conn
    requires d'.conns == Send(d.conns, d.streams[t].conn, ms)
    requires Reports(t, d'.streams[t]) == Reports(t, d.streams[t]) + ms
    requires Events(ms, u) == if u == t then ms else []
    ensures ToldOf(d', c, u)
  {
    if c in d.conns && c == d.streams[t].conn {
      EventsAppend(d.conns[c].sent, ms, u);
      assert u != t ==> Owed(d', c, u) == Owed(d, c, u);
      assert Events(d.conns[c].sent, u) + [] == Events(d.conns[c].sent, u);
    } else if c in d.conns {
      assert Owed(d', c, u) == Owed(d, c, u);
    }
  }

  // What one try_send has the client told.
  lemma OfferTells(t: Token, x: Stream, sub: Subscriber, chunk: Chunk)
    requires x.ended.None?
    ensures var ms := if TrySend(x).Taken? then DropEvents(t, sub) else [];
            && Reports(t, StreamAfter(x, sub, TrySend(x), chunk)) == Reports(t, x) + ms
            && forall u :: Events(ms, u) == if u == t then ms else []
  {
    DropsOfFlushed(t, x.drops, sub);
    EventsOfDrops(t, sub);
    assert Reports(t, x) == DropsOf(t, x.drops);
    assert DropsOf(t, x.drops) + [] == DropsOf(t, x.drops);
  }

  lemma EventsOfDrops(t: Token, sub: Subscriber)
    ensures forall u :: Events([], u) == []
    ensures forall u :: Events(DropEvents(t, sub), u) == if u == t then DropEvents(t, sub) else []
  {
    if sub.dropped > 0 { assert DropEvents(t, sub)[..0] == []; }
  }

  lemma OfferKeeps(d: Daemon, s: SessionId, t: Token)
    requires Messages(d) && FanOutEnabled(d, s, Offer(t))
    requires d.sess[s].subs[t].conn == d.streams[t].conn && d.streams[t].ended.None?
    ensures Messages(ApplyFanOut(d, s, Offer(t)))
  {
    var sub := d.sess[s].subs[t];
    var ms := if TrySend(d.streams[t]).Taken? then DropEvents(t, sub) else [];
    OfferTells(t, d.streams[t], sub, d.sess[s].phase.chunk);
    SendKeeps(d, OfferTo(d, s, t), t, ms);
  }

  lemma FarewellTells(t: Token, x: Stream, sub: Subscriber, text: string)
    requires x.ended.None?
    ensures var ms := DropEvents(t, sub) + [StreamEndEvent(t, text)];
            && Reports(t, x.(drops := x.drops + Flushed(sub), ended := Some(text))) == Reports(t, x) + ms
            && forall u :: Events(ms, u) == if u == t then ms else []
  {
    var drops, end := DropEvents(t, sub), StreamEndEvent(t, text);
    DropsOfFlushed(t, x.drops, sub);
    forall u ensures Events(drops + [end], u) == if u == t then drops + [end] else [] {
      EventsAppend(drops, [end], u);
    }
    assert (DropsOf(t, x.drops) + drops) + [end] == Reports(t, x) + (drops + [end]);
  }

  lemma EndOneKeeps(d: Daemon, s: SessionId, t: Token)
    requires Messages(d) && FanOutEnabled(d, s, EndOne(t))
    requires d.sess[s].subs[t].conn == d.streams[t].conn && d.streams[t].ended.None?
    ensures Messages(ApplyFanOut(d, s, EndOne(t)))
  {
    var sub := d.sess[s].subs[t];
    var drops := DropEvents(t, sub);
    var end := StreamEndEvent(t, d.sess[s].phase.why.Text());
    FarewellTells(t, d.streams[t], sub, d.sess[s].phase.why.Text());
    SendKeeps(d, Farewell(d, s, t), t, drops + [end]);
  }

  lemma FanOutKeeps(d: Daemon, s: SessionId, step: SessionStep)
    requires Messages(d) && FanOutEnabled(d, s, step)
    requires (step.Offer? || step.EndOne?) ==>
               d.sess[s].subs[step.t].conn == d.streams[step.t].conn && d.streams[step.t].ended.None?
    ensures Messages(ApplyFanOut(d, s, step))
  {
    match step
    case Offer(t) => OfferKeeps(d, s, t);
    case EndOne(t) => EndOneKeeps(d, s, t);
    case EndBegin => SilentKeeps(d, ApplyFanOut(d, s, step));
    case _ => CallChangeKeeps(d, ApplyFanOut(d, s, step));
  }

  lemma DataKeeps(d: Daemon, t: Token, step: DataStep)
    requires Messages(d) && DataEnabled(d, t, step)
    ensures Messages(ApplyData(d, t, step))
  {
    if step.ReleaseData? { ReleaseSilent(d, t); }
    SilentKeeps(d, ApplyData(d, t, step));
  }
}
