/**
 What a client knows of its streams is what it has heard of them since they
 began: it registers a token before a data connection can come up, and until
 one does tunelithd has nothing to report.
 */
module EndToEndReports {
  import opened Tunelithd
  import opened TunelithClient
  import opened EndToEnd
  import opened EndToEndLinks
  import E = TunelithdEvents
  import X = TunelithdStreams
  import Runs = TunelithdRuns

  // The bytes `events` report lost.
  function DropTotal(events: seq<Message>): nat {
    if events == [] then 0
    else
      var last := events[|events| - 1];
      DropTotal(events[..|events| - 1]) + if last.DropEvent? then last.bytes else 0
  }

  // How the stream ended, as far as `events` tell.
  function EndOf(events: seq<Message>): End {
    if events == [] then Pending
    else
      var last := events[|events| - 1];
      if last.StreamEndEvent? then EndFor(last.error) else EndOf(events[..|events| - 1])
  }

  predicate KnowsOf(x: Inner, t: Token, events: seq<Message>) {
    && t in x.drops && x.drops[t] == DropTotal(events)
    && t in x.ends && x.ends[t] == EndOf(events)
  }

  function HeardOf(d: Daemon, c: ConnId, t: Token): seq<Message> {
    E.Events(Heard(d, c), t)
  }

  // Whether the client `c` has `t` registered, and nothing was reported before.
  predicate Minds(w: World, c: ConnId, t: Token) {
    && c in w.clients && w.clients[c].up && t in w.clients[c].held
    && (w.clients[c].held[t].Registered? ==> t in w.d.unattached)
  }

  ghost predicate Reported(w: World) {
    forall c, t :: Minds(w, c, t) ==> KnowsOf(w.clients[c], t, HeardOf(w.d, c, t))
  }

  predicate SameKnown(w: World, w': World, c: ConnId, t: Token) {
    && Minds(w, c, t) && c in w'.clients
    && (KnowsOf(w.clients[c], t, HeardOf(w.d, c, t)) ==> KnowsOf(w'.clients[c], t, HeardOf(w'.d, c, t)))
  }

  lemma SameReportsKeep(w: World, w': World)
    requires Reported(w) && forall c, t :: Minds(w', c, t) ==> SameKnown(w, w', c, t)
    ensures Reported(w')
  {
    forall c, t | Minds(w', c, t) ensures KnowsOf(w'.clients[c], t, HeardOf(w'.d, c, t)) {
      assert SameKnown(w, w', c, t);
    }
  }

  /* The daemon's steps */

  lemma OwnReports(w: World, d': Daemon)
    requires HeardOnce(w.d) && Links(w) && Reported(w) && Behind(w.d, d')
    ensures Reported(w.(d := d'))
  {
    var w' := w.(d := d');
    forall c, t | Minds(w', c, t) ensures SameKnown(w, w', c, t) {
      assert LinkOk(w, c, t) && HeardOk(w.d, c, t);
      BehindHeard(w.d, d', c);
    }
    SameReportsKeep(w, w');
  }

  lemma OwnStepReports(w: World, step: Step)
    requires HeardOnce(w.d) && Links(w) && Reported(w) && CanMove(w, Own(step))
    ensures Reported(Moved(w, Own(step)))
  {
    match step
    case Control(control) => ControlBehind(w.d, control); OwnReports(w, ApplyControl(w.d, control));
    case Acquiring(k, acquire) => AcquireBehind(w.d, k, acquire); OwnReports(w, ApplyAcquire(w.d, k, acquire));
    case FanOut(s, fanOut) => FanOutBehind(w.d, s, fanOut); OwnReports(w, ApplyFanOut(w.d, s, fanOut));
    case Data(t, data) => DataBehind(w.d, t, data); OwnReports(w, ApplyData(w.d, t, data));
  }

  /* Before its data connection, nothing is reported of a stream */

  lemma NothingYet(d: Daemon, c: ConnId, t: Token)
    requires X.Streams(d) && E.Messages(d) && t in d.unattached
    ensures E.Events(Heard(d, c), t) == []
    ensures c in d.conns ==> E.Events(d.conns[c].sent, t) == []
  {
    assert X.TokenOk(d, t);
    assert X.StreamOk(d.streams[t], t in d.unattached, X.Served(d, t));
    assert E.ToldOf(d, c, t);
    if c in d.conns {
      var ms, n := d.conns[c].sent, d.conns[c].received;
      assert ms == ms[..n] + ms[n..];
      E.EventsAppend(ms[..n], ms[n..], t);
    }
  }

  lemma ResumeReports(w: World, c: ConnId, id: nat)
    requires X.Streams(w.d) && E.Messages(w.d) && Links(w) && Reported(w) && CanMove(w, Resume(c, id))
    ensures Reported(Moved(w, Resume(c, id)))
  {
    var w' := Moved(w, Resume(c, id));
    var u := w.clients[c].answers[id];
    forall b, t | Minds(w', b, t) ensures KnowsOf(w'.clients[b], t, HeardOf(w'.d, b, t)) {
      if b == c && t == u { NothingYet(w.d, b, t); } else { assert Minds(w, b, t); }
    }
  }

  /* The reader task */

  lemma KnowsMore(x: Inner, m: Message, t: Token, events: seq<Message>)
    requires KnowsOf(x, t, events) && !Tells(x, m, t)
    ensures KnowsOf(Took(x, m), t, events + if E.About(m, t) then [m] else [])
  {
    if E.About(m, t) {
      assert (events + [m])[..|events|] == events;
    } else {
      assert events + [] == events;
    }
  }

  predicate Tells(x: Inner, m: Message, t: Token) {
    Late(x, m) && m.token == t
  }

  lemma HearsMore(d: Daemon, c: ConnId, t: Token)
    requires ControlEnabled(d, Deliver(c))
    ensures HeardOf(ApplyControl(d, Deliver(c)), c, t)
              == HeardOf(d, c, t) + if E.About(Next(d, c), t) then [Next(d, c)] else []
  {
    var d' := ApplyControl(d, Deliver(c));
    assert Heard(d', c) == Heard(d, c) + [Next(d, c)];
    assert Heard(d', c)[..|Heard(d, c)|] == Heard(d, c);
  }

  // What an acquire given up on is told, no stream was registered for.
  lemma ReadReports(w: World, c: ConnId, t: Token)
    requires HeardOnce(w.d) && Links(w) && Reported(w)
    requires Knows(w, c) && ControlEnabled(w.d, Deliver(c)) && Minds(w, c, t)
    requires HeardOnce(ApplyControl(w.d, Deliver(c)))
    ensures KnowsOf(Took(w.clients[c], Next(w.d, c)), t, HeardOf(ApplyControl(w.d, Deliver(c)), c, t))
  {
    var m := Next(w.d, c);
    if m.Acquired? { TokenIsNew(w, c); }
    KnowsMore(w.clients[c], m, t, HeardOf(w.d, c, t));
    HearsMore(w.d, c, t);
  }

  // What the clients know, and hear, once one was given a message.
  lemma GivenMessage(w: World, c: ConnId, k: TaskId, b: ConnId)
    requires CanMove(w, Receive(c, k)) && b in w.clients
    ensures var w' := Moved(w, Receive(c, k));
            && w'.clients[b] == (if b == c then Took(w.clients[c], Next(w.d, c)) else w.clients[b])
            && Heard(w'.d, b) == Heard(ApplyControl(w.d, Deliver(c)), b)
            && (b != c ==> Heard(w'.d, b) == Heard(w.d, b))
            && w'.d.unattached == w.d.unattached
  {
  }

  lemma HoldsNoMore(x: Inner, m: Message)
    ensures Took(x, m).held == x.held && Took(x, m).up == x.up
  {
  }

  lemma ReceiveReports(w: World, c: ConnId, k: TaskId)
    requires HeardOnce(w.d) && Links(w) && Reported(w)
    requires CanMove(w, Receive(c, k)) && HeardOnce(ApplyControl(w.d, Deliver(c)))
    ensures Reported(Moved(w, Receive(c, k)))
  {
    var w' := Moved(w, Receive(c, k));
    HoldsNoMore(w.clients[c], Next(w.d, c));
    forall b, t | Minds(w', b, t) ensures KnowsOf(w'.clients[b], t, HeardOf(w'.d, b, t)) {
      GivenMessage(w, c, k, b);
      assert Minds(w, b, t);
      if b == c { ReadReports(w, c, t); }
    }
  }

  /* The other moves */

  lemma AttachReports(w: World, c: ConnId, t: Token)
    requires Reported(w) && CanMove(w, AttachData(c, t))
    ensures Reported(Moved(w, AttachData(c, t)))
  {
    SameReportsKeep(w, Moved(w, AttachData(c, t)));
  }

  lemma QuietReports(w: World, move: Move)
    requires Reported(w) && CanMove(w, move)
    requires !move.Own? && !move.Receive? && !move.Resume? && !move.AttachData?
    ensures Reported(Moved(w, move))
  {
    var w' := Moved(w, move);
    forall c, t | Minds(w', c, t) ensures SameKnown(w, w', c, t) {
      assert Minds(w, c, t);
      assert Heard(w'.d, c) == Heard(w.d, c);
    }
    SameReportsKeep(w, w');
  }

  lemma MoveReports(w: World, move: Move)
    requires X.Streams(w.d) && E.Messages(w.d) && HeardOnce(w.d) && Links(w) && Reported(w) && CanMove(w, move)
    requires move.Receive? ==> HeardOnce(ApplyControl(w.d, Deliver(move.c)))
    ensures Reported(Moved(w, move))
  {
    match move
    case Own(step) => OwnStepReports(w, step);
    case Receive(c, k) => ReceiveReports(w, c, k);
    case Resume(c, id) => ResumeReports(w, c, id);
    case AttachData(c, t) => AttachReports(w, c, t);
    case _ => QuietReports(w, move);
  }

  lemma MovedKeepsReported(w: World, move: Move)
    requires Runs.Inv(w.d) && Links(w) && Reported(w) && CanMove(w, move)
    ensures Reported(Moved(w, move))
  {
    HeardIsTold(w.d);
    if move.Receive? { Runs.ControlKeeps(w.d, Deliver(move.c)); HeardIsTold(ApplyControl(w.d, Deliver(move.c))); }
    MoveReports(w, move);
  }
}
