/**
 A stream its client reads stays subscribed until it has ended, and its data
 connection stays up until the daemon has nothing more to write.
 */
module EndToEndWatch {
  import opened Options
  import opened Tunelithd
  import opened TunelithClient
  import opened EndToEnd
  import opened EndToEndLinks
  import A = TunelithdAnswers
  import E = TunelithdEvents
  import O = TunelithdOwners
  import P = TunelithdPresent
  import X = TunelithdStreams
  import Runs = TunelithdRuns

  predicate Subscribed(d: Daemon, t: Token) {
    t in d.streams && d.streams[t].session in d.sess && t in d.sess[d.streams[t].session].subs
  }

  predicate Ended(d: Daemon, t: Token) {
    t in d.streams && d.streams[t].ended.Some?
  }

  predicate WatchedOk(d: Daemon, t: Token) {
    && t in d.streams
    && (Subscribed(d, t) || Ended(d, t))
    && (X.Served(d, t) || (d.streams[t].queue == [] && Ended(d, t)))
  }

  // Whether the client of `t` has a data connection up, and its control
  // connection.
  predicate Watches(w: World, c: ConnId, t: Token) {
    && c in w.clients && w.clients[c].up
    && t in w.clients[c].held && !w.clients[c].held[t].Registered?
  }

  ghost predicate Watched(w: World) {
    forall c, t :: Watches(w, c, t) ==> WatchedOk(w.d, t)
  }

  /* The daemon's steps, on a stream no one releases */

  // Nothing of `t` changes.
  lemma SameStays(d: Daemon, d': Daemon, t: Token)
    requires WatchedOk(d, t) && t in d'.streams && d'.streams[t] == d.streams[t]
    requires Subscribed(d, t) ==> Subscribed(d', t)
    requires X.Served(d, t) ==> X.Served(d', t)
    ensures WatchedOk(d', t)
  {
  }

  lemma ReleaseStays(d: Daemon, u: Token, t: Token)
    requires WatchedOk(d, t) && CanRelease(d, u) && t !in d.unattached
    requires u == t ==> Ended(d, t) && d.streams[t].queue == []
    ensures WatchedOk(Release(d, u), t)
  {
  }

  lemma AcquireStays(d: Daemon, k: TaskId, step: AcquireStep, t: Token)
    requires AcquireEnabled(d, k, step) && WatchedOk(d, t) && t !in d.unattached
    requires step.GiveBack? ==> d.calls[k].at.token != t
    ensures WatchedOk(ApplyAcquire(d, k, step), t)
  {
    match step
    case GiveBack => ReleaseStays(d, d.calls[k].at.token, t);
    case _ => SameStays(d, ApplyAcquire(d, k, step), t);
  }

  lemma ControlStays(d: Daemon, step: ControlStep, t: Token)
    requires ControlEnabled(d, step) && WatchedOk(d, t) && t !in d.unattached
    requires step.ReleaseAsked? ==> d.calls[step.k].token != t
    requires step.ReleaseLeft? ==> step.t != t
    ensures WatchedOk(ApplyControl(d, step), t)
  {
    match step
    case ReleaseAsked(k) => ReleaseStays(d, d.calls[k].token, t);
    case ReleaseLeft(c, u) => ReleaseStays(d, u, t);
    case _ => SameStays(d, ApplyControl(d, step), t);
  }

  // A subscriber served is not pruned.
  lemma OfferStays(d: Daemon, s: SessionId, u: Token, t: Token)
    requires FanOutEnabled(d, s, Offer(u)) && WatchedOk(d, t)
    requires u == t ==> d.streams[t].open && d.streams[t].session == s && d.streams[t].ended.None?
    ensures WatchedOk(ApplyFanOut(d, s, Offer(u)), t)
  {
  }

  lemma EndOneStays(d: Daemon, s: SessionId, u: Token, t: Token)
    requires FanOutEnabled(d, s, EndOne(u)) && WatchedOk(d, t)
    ensures WatchedOk(ApplyFanOut(d, s, EndOne(u)), t)
  {
  }

  lemma FanOutStays(d: Daemon, s: SessionId, step: SessionStep, t: Token)
    requires FanOutEnabled(d, s, step) && WatchedOk(d, t) && t !in d.unattached
    requires step.Offer? && step.t == t ==>
               d.streams[t].open && d.streams[t].session == s && d.streams[t].ended.None?
    ensures WatchedOk(ApplyFanOut(d, s, step), t)
  {
    match step
    case Offer(u) => OfferStays(d, s, u, t);
    case EndOne(u) => EndOneStays(d, s, u, t);
    case _ => SameStays(d, ApplyFanOut(d, s, step), t);
  }

  lemma DataStays(d: Daemon, u: Token, step: DataStep, t: Token)
    requires DataEnabled(d, u, step) && WatchedOk(d, t) && t !in d.unattached
    requires step.HangUp? && u == t ==> Ended(d, t) && d.streams[t].queue == []
    requires step.ReleaseData? && u == t ==> Ended(d, t) && d.streams[t].queue == []
    ensures WatchedOk(ApplyData(d, u, step), t)
  {
    match step
    case Attach => SameStays(d, ApplyData(d, u, step), t);
    case HandOver =>
    case HangUp =>
    case ReleaseData => ReleaseStays(d, u, t);
  }

  /* No one releases it */

  // What the steps need of a stream its client reads.
  ghost predicate Safe(w: World, c: ConnId, t: Token) {
    && c in w.d.conns && w.d.conns[c].owned.Some? && w.d.conns[c].todo == {}
    && t in w.d.streams && w.d.streams[t].conn == c && w.d.streams[t].attached
    && t !in w.released && Hears(w.d, c, t) && t !in w.d.unattached
  }

  lemma WatchedSafe(w: World, c: ConnId, t: Token)
    requires Runs.Inv(w.d) && Links(w) && Watches(w, c, t)
    ensures Safe(w, c, t)
  {
    assert ClientOk(w, c);
    assert LinkOk(w, c, t);
    HeardIsTold(w.d);
    assert HeardOk(w.d, c, t);
    assert X.StreamOk(w.d.streams[t], t in w.d.unattached, X.Served(w.d, t));
  }

  lemma NotGivenBack(d: Daemon, k: TaskId, c: ConnId, t: Token)
    requires A.Answered(d) && E.ConnsKnown(d) && AcquireEnabled(d, k, GiveBack)
    requires t in d.streams && d.streams[t].conn == c && Hears(d, c, t)
    ensures d.calls[k].at.token != t
  {
    HeardIsTold(d);
    var u := d.calls[k].at.token;
    assert A.Untold(d, k, u) && A.UntoldOk(d, k, u);
    if u == t {
      var ms, n := d.conns[c].sent, d.conns[c].received;
      assert ms == ms[..n] + ms[n..];
      TellingsMore(ms[..n], ms[n..], t);
    }
  }

  lemma NotLeft(d: Daemon, c: ConnId, b: ConnId, u: Token, t: Token)
    requires O.OwnOnly(d) && ControlEnabled(d, ReleaseLeft(b, u))
    requires t in d.streams && d.streams[t].conn == c && c in d.conns && d.conns[c].todo == {}
    ensures u != t
  {
    assert O.OwnKept(d, b, u);
  }

  lemma OfferedIsOpen(d: Daemon, s: SessionId, t: Token)
    requires X.Streams(d) && FanOutEnabled(d, s, Offer(t)) && WatchedOk(d, t)
    ensures d.streams[t].open && d.streams[t].session == s && d.streams[t].ended.None?
  {
    assert X.SubOk(d, s, t);
    assert X.StreamOk(d.streams[t], t in d.unattached, X.Served(d, t));
  }

  // A data task done, but for a client that let go of it, has seen the end.
  lemma DrainedHasEnded(d: Daemon, t: Token)
    requires WatchedOk(d, t) && Drained(d, t)
    ensures Ended(d, t) && d.streams[t].queue == []
  {
  }

  lemma FinishingHasEnded(d: Daemon, t: Token)
    requires WatchedOk(d, t) && DataEnabled(d, t, ReleaseData)
    ensures Ended(d, t) && d.streams[t].queue == []
  {
  }

  lemma OwnStays(w: World, step: Step, c: ConnId, t: Token)
    requires Enabled(w.d, step) && Allowed(w, step) && Watches(w, c, t) && WatchedOk(w.d, t)
    requires Runs.Inv(w.d) && Links(w)
    ensures WatchedOk(Apply(w.d, step), t)
  {
    WatchedSafe(w, c, t);
    match step
    case Control(control) => OwnControlStays(w, control, c, t);
    case Acquiring(k, acquire) => OwnAcquireStays(w, k, acquire, c, t);
    case FanOut(s, fanOut) => OwnFanOutStays(w, s, fanOut, c, t);
    case Data(u, data) => OwnDataStays(w, u, data, c, t);
  }

  lemma OwnAcquireStays(w: World, k: TaskId, step: AcquireStep, c: ConnId, t: Token)
    requires A.Answered(w.d) && E.ConnsKnown(w.d) && AcquireEnabled(w.d, k, step) && Safe(w, c, t) && WatchedOk(w.d, t)
    ensures WatchedOk(ApplyAcquire(w.d, k, step), t)
  {
    if step.GiveBack? { NotGivenBack(w.d, k, c, t); }
    AcquireStays(w.d, k, step, t);
  }

  lemma OwnFanOutStays(w: World, s: SessionId, step: SessionStep, c: ConnId, t: Token)
    requires X.Streams(w.d) && FanOutEnabled(w.d, s, step) && Safe(w, c, t) && WatchedOk(w.d, t)
    ensures WatchedOk(ApplyFanOut(w.d, s, step), t)
  {
    if step == Offer(t) { OfferedIsOpen(w.d, s, t); }
    FanOutStays(w.d, s, step, t);
  }

  lemma OwnDataStays(w: World, u: Token, step: DataStep, c: ConnId, t: Token)
    requires CanMove(w, Own(Data(u, step))) && Safe(w, c, t) && WatchedOk(w.d, t) && Watches(w, c, t)
    ensures WatchedOk(ApplyData(w.d, u, step), t)
  {
    if step.HangUp? && u == t { DrainedHasEnded(w.d, t); }
    if step.ReleaseData? && u == t { FinishingHasEnded(w.d, t); }
    DataStays(w.d, u, step, t);
  }

  lemma OwnControlStays(w: World, step: ControlStep, c: ConnId, t: Token)
    requires O.OwnOnly(w.d) && Links(w) && CanMove(w, Own(Control(step))) && Safe(w, c, t) && WatchedOk(w.d, t)
    ensures WatchedOk(ApplyControl(w.d, step), t)
  {
    match step
    case ReleaseAsked(k) =>
      assert Asks(w.d, k, w.d.calls[k].token);
      assert AskOk(w, k, w.d.calls[k].token);
      ControlStays(w.d, step, t);
    case ReleaseLeft(b, u) =>
      NotLeft(w.d, c, b, u, t);
      ControlStays(w.d, step, t);
    case Disown(_) => ControlStays(w.d, step, t);
    case Answer(_) => ControlStays(w.d, step, t);
    case Leave(_) => ControlStays(w.d, step, t);
    case Unpark(_) => ControlStays(w.d, step, t);
  }

  /* The clients' moves */

  // A stream waiting for its data connection is subscribed, and open.
  lemma AttachedIsWatched(d: Daemon, t: Token)
    requires X.Streams(d) && P.Present(d) && DataEnabled(d, t, Attach)
    ensures WatchedOk(ApplyData(d, t, Attach), t)
  {
    assert X.TokenOk(d, t);
    assert X.StreamOk(d.streams[t], t in d.unattached, X.Served(d, t));
    assert P.PresentOk(d, t);
  }

  lemma AttachStays(d: Daemon, u: Token, t: Token)
    requires X.Streams(d) && P.Present(d) && DataEnabled(d, u, Attach) && WatchedOk(d, t)
    ensures WatchedOk(ApplyData(d, u, Attach), t)
  {
    if u == t { AttachedIsWatched(d, t); } else { SameStays(d, ApplyData(d, u, Attach), t); }
  }

  lemma MovedKeepsWatched(w: World, move: Move)
    requires Runs.Inv(w.d) && Links(w) && Watched(w) && CanMove(w, move)
    ensures Watched(Moved(w, move))
  {
    match move
    case Own(step) => OwnKeepsWatched(w, step);
    case AttachData(c, t) => AttachKeepsWatched(w, c, t);
    case _ => QuietKeepsWatched(w, move);
  }

  lemma OwnKeepsWatched(w: World, step: Step)
    requires Runs.Inv(w.d) && Links(w) && Watched(w) && CanMove(w, Own(step))
    ensures Watched(w.(d := Apply(w.d, step)))
  {
    var w' := w.(d := Apply(w.d, step));
    forall c, t | Watches(w', c, t) ensures WatchedOk(w'.d, t) {
      assert Watches(w, c, t);
      OwnStays(w, step, c, t);
    }
  }

  lemma AttachKeepsWatched(w: World, b: ConnId, u: Token)
    requires X.Streams(w.d) && P.Present(w.d) && Watched(w) && CanMove(w, AttachData(b, u))
    ensures Watched(Moved(w, AttachData(b, u)))
  {
    var w' := Moved(w, AttachData(b, u));
    AttachedIsWatched(w.d, u);
    forall c, t | Watches(w', c, t) ensures WatchedOk(w'.d, t) {
      if t != u {
        assert Watches(w, c, t);
        AttachStays(w.d, u, t);
      }
    }
  }

  // The daemon only hears of a request, or has a message taken.
  lemma QuietStays(w: World, move: Move, t: Token)
    requires CanMove(w, move) && !move.Own? && !move.AttachData? && WatchedOk(w.d, t)
    ensures WatchedOk(Moved(w, move).d, t)
  {
    SameStays(w.d, Moved(w, move).d, t);
  }

  // No client comes to watch a stream it did not.
  lemma QuietWatchesNoMore(w: World, move: Move, c: ConnId, t: Token)
    requires CanMove(w, move) && !move.Own? && !move.AttachData? && Watches(Moved(w, move), c, t)
    ensures Watches(w, c, t)
  {
  }

  lemma QuietKeepsWatched(w: World, move: Move)
    requires Watched(w) && CanMove(w, move) && !move.Own? && !move.AttachData?
    ensures Watched(Moved(w, move))
  {
    var w' := Moved(w, move);
    forall c, t | Watches(w', c, t) ensures WatchedOk(w'.d, t) {
      QuietWatchesNoMore(w, move, c, t);
      QuietStays(w, move, t);
    }
  }
}
