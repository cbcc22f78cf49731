/**
 What holds in every state tunelithd reaches, and what it comes to once its
 clients have gone.
 */
module TunelithdRuns {
  import opened Options
  import opened Tunelithd
  import T = TunelithdTuners
  import S = TunelithdSessions
  import X = TunelithdStreams
  import E = TunelithdEvents
  import O = TunelithdOwners
  import R = TunelithdRounds
  import A = TunelithdAnswers
  import P = TunelithdPresent

  // What is left to release is so only once the client has gone.
  ghost predicate TodoLater(d: Daemon) {
    forall c :: c in d.conns && d.conns[c].owned.Some? ==> d.conns[c].todo == {}
  }

  ghost predicate Inv(d: Daemon) {
    && T.Tuners(d) && S.Sessions(d) && X.Streams(d)
    && E.Messages(d) && E.Answers(d) && O.Owners(d) && R.Rounds(d) && TodoLater(d)
    && A.Answered(d) && O.OwnOnly(d) && P.Present(d)
  }

  lemma TokensJoinable(d: Daemon)
    requires X.Streams(d)
    ensures forall t :: t in d.tokens ==> d.tokens[t] in d.sess && d.sess[d.tokens[t]].phase.Joinable()
  {
    forall t | t in d.tokens ensures d.tokens[t] in d.sess && d.sess[d.tokens[t]].phase.Joinable() {
      assert X.TokenOk(d, t);
    }
  }

  lemma ControlAnswers(d: Daemon, step: ControlStep)
    requires E.Answers(d) && TodoLater(d) && ControlEnabled(d, step)
    ensures E.Answers(ApplyControl(d, step)) && TodoLater(ApplyControl(d, step))
  {
  }

  lemma AcquireAnswers(d: Daemon, k: TaskId, step: AcquireStep)
    requires E.Answers(d) && TodoLater(d) && AcquireEnabled(d, k, step)
    ensures E.Answers(ApplyAcquire(d, k, step)) && TodoLater(ApplyAcquire(d, k, step))
  {
  }

  lemma FanOutAnswers(d: Daemon, s: SessionId, step: SessionStep)
    requires E.Answers(d) && TodoLater(d) && FanOutEnabled(d, s, step)
    ensures E.Answers(ApplyFanOut(d, s, step)) && TodoLater(ApplyFanOut(d, s, step))
  {
  }

  lemma ControlKeeps(d: Daemon, step: ControlStep)
    requires Inv(d) && ControlEnabled(d, step)
    ensures Inv(ApplyControl(d, step))
  {
    TokensJoinable(d);
    T.ControlKeeps(d, step);
    S.ControlKeeps(d, step);
    X.ControlKeeps(d, step);
    E.ControlKeeps(d, step);
    O.ControlKeeps(d, step);
    R.ControlKeeps(d, step);
    A.ControlKeeps(d, step);
    P.ControlKeeps(d, step);
    O.ControlOwn(d, step);
    ControlAnswers(d, step);
  }

  lemma AcquireKeeps(d: Daemon, k: TaskId, step: AcquireStep)
    requires Inv(d) && AcquireEnabled(d, k, step)
    ensures Inv(ApplyAcquire(d, k, step))
  {
    TokensJoinable(d);
    T.AcquireKeeps(d, k, step);
    S.AcquireKeeps(d, k, step);
    X.AcquireKeeps(d, k, step);
    E.AcquireKeeps(d, k, step);
    O.AcquireKeeps(d, k, step);
    R.AcquireKeeps(d, k, step);
    A.AcquireKeeps(d, k, step);
    P.AcquireKeeps(d, k, step);
    if step.Keep? || step.KeepTooLate? { assert A.UntoldOk(d, k, d.calls[k].at.token); }
    O.AcquireOwn(d, k, step);
    AcquireAnswers(d, k, step);
  }

  lemma FanOutKeeps(d: Daemon, s: SessionId, step: SessionStep)
    requires Inv(d) && FanOutEnabled(d, s, step)
    ensures Inv(ApplyFanOut(d, s, step))
  {
    T.FanOutKeeps(d, s, step);
    S.FanOutKeeps(d, s, step);
    X.FanOutKeeps(d, s, step);
    if step.Offer? || step.EndOne? { assert X.SubOk(d, s, step.t); }
    E.FanOutKeeps(d, s, step);
    O.FanOutKeeps(d, s, step);
    R.FanOutKeeps(d, s, step);
    A.FanOutKeeps(d, s, step);
    P.FanOutKeeps(d, s, step);
    O.FanOutOwn(d, s, step);
    FanOutAnswers(d, s, step);
  }

  lemma DataKeeps(d: Daemon, t: Token, step: DataStep)
    requires Inv(d) && DataEnabled(d, t, step)
    ensures Inv(ApplyData(d, t, step))
  {
    TokensJoinable(d);
    T.DataKeeps(d, t, step);
    S.DataKeeps(d, t, step);
    X.DataKeeps(d, t, step);
    E.DataKeeps(d, t, step);
    O.DataKeeps(d, t, step);
    R.DataKeeps(d, t, step);
    A.DataKeeps(d, t, step);
    P.DataKeeps(d, t, step);
    O.DataOwn(d, t, step);
  }

  lemma StepKeeps(d: Daemon, step: Step)
    requires Inv(d) && Enabled(d, step)
    ensures Inv(Apply(d, step))
  {
    match step
    case Control(control) => ControlKeeps(d, control);
    case Acquiring(k, acquire) => AcquireKeeps(d, k, acquire);
    case FanOut(s, fanOut) => FanOutKeeps(d, s, fanOut);
    case Data(t, data) => DataKeeps(d, t, data);
  }

  lemma {:induction false} RunKeeps(d: Daemon, steps: seq<Step>)
    requires Inv(d) && After(d, steps).Some?
    ensures Inv(After(d, steps).value)
    decreases |steps|
  {
    if steps == [] {
    } else {
      StepKeeps(d, steps[0]);
      RunKeeps(Apply(d, steps[0]), steps[1..]);
    }
  }

  lemma ReachableInv(d: Daemon)
    requires Reachable(d)
    ensures Inv(d)
  {
    var steps :| After(INITIAL, steps) == Some(d);
    RunKeeps(INITIAL, steps);
  }

  /* Where the bytes go */

  function Size(chunks: seq<Chunk>): nat {
    if chunks == [] then 0 else Size(chunks[..|chunks| - 1]) + |chunks[|chunks| - 1]|
  }

  lemma {:induction false} SizeAppend(a: seq<Chunk>, b: seq<Chunk>)
    ensures Size(a + b) == Size(a) + Size(b)
    decreases |b|
  {
    if b == [] {
      assert a + b == a;
    } else {
      assert (a + b)[..|a + b| - 1] == a + b[..|b| - 1];
      SizeAppend(a, b[..|b| - 1]);
    }
  }

  // An offer is either taken or lost.
  lemma {:induction false} OffersAddUp(offers: seq<Offered>)
    ensures Size(R.Chunks(offers)) == Size(X.Taken(offers)) + X.Lost(offers)
    decreases |offers|
  {
    if offers == [] {
    } else {
      var init, last := offers[..|offers| - 1], offers[|offers| - 1];
      OffersAddUp(init);
      SizeAppend(R.Chunks(init), [last.chunk]);
      SizeAppend(X.Taken(init), [last.chunk]);
      assert Size([last.chunk]) == |last.chunk| by { assert [last.chunk][..0] == []; }
      assert X.Taken(init) + [] == X.Taken(init);
    }
  }

  // What the tuner gave a client since it joined, as far as the round under
  // way has come to it, went to its data connection, is queued for it in
  // order, was reported lost, or is lost and yet to be reported; and the drops
  // it was told of are those.
  lemma BytesAccountedFor(d: Daemon, s: SessionId, t: Token)
    requires Reachable(d) && s in d.sess && t in d.sess[s].subs
    ensures t in d.streams && d.streams[t].conn in d.conns
    ensures var x, y := d.sess[s], d.streams[t];
            && y.since <= R.Reached(x, t)
            && X.Taken(y.offers) == y.handed + y.queue
            && Size(x.took[y.since..R.Reached(x, t)])
                 == Size(y.handed) + Size(y.queue) + X.Sum(y.drops) + x.subs[t].dropped
            && E.Events(d.conns[y.conn].sent, t) == E.DropsOf(t, y.drops)
  {
    ReachableInv(d);
    assert X.SubOk(d, s, t);
    var y := d.streams[t];
    assert R.StreamRound(d, t);
    OffersAddUp(y.offers);
    SizeAppend(y.handed, y.queue);
    assert X.StreamOk(y, t in d.unattached, X.Served(d, t));
    assert E.ToldOf(d, y.conn, t);
    assert E.DropsOf(t, y.drops) + [] == E.DropsOf(t, y.drops);
  }

  // Every byte the tuner gave since `t` joined went to its data connection, is
  // queued for it or was reported lost, and the client was told of the drops
  // and, after the last, once of the end.
  predicate AllTold(d: Daemon, t: Token) {
    && t in d.streams && d.streams[t].ended.Some?
    && d.streams[t].session in d.sess && d.streams[t].conn in d.conns
    && var y := d.streams[t]; var x := d.sess[y.session];
       && !x.phase.Joinable() && y.since <= |x.took|
       && X.Taken(y.offers) == y.handed + y.queue
       && Size(x.took[y.since..]) == Size(y.handed) + Size(y.queue) + X.Sum(y.drops)
       && E.Events(d.conns[y.conn].sent, t) == E.DropsOf(t, y.drops) + [StreamEndEvent(t, y.ended.value)]
  }

  lemma EndedIsTold(d: Daemon, t: Token)
    requires Inv(d) && t in d.streams && d.streams[t].ended.Some?
    ensures AllTold(d, t)
  {
    var y := d.streams[t];
    assert R.StreamRound(d, t);
    OffersAddUp(y.offers);
    SizeAppend(y.handed, y.queue);
    assert X.StreamOk(y, t in d.unattached, X.Served(d, t));
    assert E.ToldOf(d, y.conn, t);
    assert d.sess[y.session].took[y.since..] == d.sess[y.session].took[y.since..|d.sess[y.session].took|];
  }

  // Once its stream has ended nothing is left to report, and exactly one
  // StreamEndEvent follows the last DropEvent.
  lemma EndTellsAll(d: Daemon, t: Token)
    requires Reachable(d) && t in d.streams && d.streams[t].ended.Some?
    ensures AllTold(d, t)
  {
    ReachableInv(d);
    EndedIsTold(d, t);
  }

  /* Whose the tokens are */

  // Every parked receiver has its token, and every token its session; a
  // subscriber's token maps to the session it is of, until that is drained.
  lemma TokensMatch(d: Daemon)
    requires Reachable(d)
    ensures d.unattached <= d.tokens.Keys
    ensures forall t :: t in d.tokens ==> d.tokens[t] in d.sess && d.sess[d.tokens[t]].phase.Joinable()
    ensures forall s, t :: s in d.sess && t in d.sess[s].subs ==>
              ((t in d.tokens && d.tokens[t] == s) <==> !d.sess[s].phase.Draining?)
              && (t in d.tokens ==> d.tokens[t] == s)
  {
    ReachableInv(d);
    TokensJoinable(d);
    forall s, t | s in d.sess && t in d.sess[s].subs
      ensures (t in d.tokens && d.tokens[t] == s) <==> !d.sess[s].phase.Draining?
      ensures t in d.tokens ==> d.tokens[t] == s
    {
      assert X.SubOk(d, s, t);
      assert t in d.tokens ==> X.TokenOk(d, t);
    }
  }

  // A client gone, with its tasks done and its streams released, leaves
  // nothing behind, whatever the order they ran in.
  lemma TeardownLeavesNothing(d: Daemon, c: ConnId)
    requires Reachable(d) && c in d.conns && d.conns[c].owned.None? && d.conns[c].todo == {}
    requires forall k :: k in d.calls ==> d.calls[k].conn != c
    ensures forall t :: t in d.streams && d.streams[t].conn == c ==> t !in d.tokens && t !in d.unattached
  {
    ReachableInv(d);
    forall t | t in d.streams && d.streams[t].conn == c ensures t !in d.tokens {
      assert t in d.tokens ==> O.OwnedOk(d, t);
    }
  }

  /* A session told to stop */

  // Out of the running ones with no client.
  predicate Out(d: Daemon, s: SessionId) {
    s in d.sess && s !in d.sessions && d.sess[s].subs == map[]
  }

  lemma AcquireOutStays(d: Daemon, k: TaskId, step: AcquireStep, s: SessionId)
    requires AcquireEnabled(d, k, step) && Out(d, s)
    ensures Out(ApplyAcquire(d, k, step), s)
  {
  }

  lemma FanOutOutStays(d: Daemon, r: SessionId, step: SessionStep, s: SessionId)
    requires FanOutEnabled(d, r, step) && Out(d, s)
    ensures Out(ApplyFanOut(d, r, step), s)
  {
  }

  lemma ControlOutStays(d: Daemon, step: ControlStep, s: SessionId)
    requires ControlEnabled(d, step) && Out(d, s)
    ensures Out(ApplyControl(d, step), s)
  {
  }

  lemma DataOutStays(d: Daemon, t: Token, step: DataStep, s: SessionId)
    requires DataEnabled(d, t, step) && Out(d, s)
    ensures Out(ApplyData(d, t, step), s)
  {
  }

  lemma OutStays(d: Daemon, step: Step, s: SessionId)
    requires Enabled(d, step) && Out(d, s)
    ensures Out(Apply(d, step), s)
  {
    match step
    case Acquiring(k, acquire) => AcquireOutStays(d, k, acquire, s);
    case FanOut(r, fanOut) => FanOutOutStays(d, r, fanOut, s);
    case Control(control) => ControlOutStays(d, control, s);
    case Data(t, data) => DataOutStays(d, t, data, s);
  }

  lemma {:induction false} OutForGood(d: Daemon, steps: seq<Step>, s: SessionId)
    requires Inv(d) && After(d, steps).Some? && Out(d, s)
    ensures Out(After(d, steps).value, s)
    decreases |steps|
  {
    if steps == [] {
    } else {
      OutStays(d, steps[0], s);
      StepKeeps(d, steps[0]);
      OutForGood(Apply(d, steps[0]), steps[1..], s);
    }
  }

  // A stop permit, or a fan-out that left for want of clients, cuts no one:
  // the session has no client then and gets none later, so its drain has no
  // stream to end.
  lemma StopCutsNoClient(d: Daemon, steps: seq<Step>, s: SessionId)
    requires Reachable(d) && s in d.sess && (d.sess[s].stop || S.LeftForWant(d.sess[s].phase))
    requires After(d, steps).Some?
    ensures Out(d, s) && Out(After(d, steps).value, s)
    ensures forall t :: !FanOutEnabled(After(d, steps).value, s, EndOne(t))
    ensures var d' := After(d, steps).value;
            forall k, t :: AcquireEnabled(d', k, Join(t)) ==> SharedFor(d', k) != Some(s)
  {
    ReachableInv(d);
    OutForGood(d, steps, s);
  }

  /* Once nothing is left to do */

  // The steps tunelithd takes by itself, whatever its clients and tuners do.
  predicate Internal(step: Step) {
    match step
    case Control(control) =>
      control.Disown? || control.ReleaseAsked? || control.Answer? || control.ReleaseLeft? || control.Unpark?
    case Acquiring(_, _) => true
    case FanOut(_, fanOut) => !fanOut.TakeChunk? && !fanOut.SourceEnds?
    case Data(_, data) => data.ReleaseData?
  }

  ghost predicate Progress(d: Daemon) {
    exists step :: Internal(step) && Enabled(d, step)
  }

  ghost predicate AllLeft(d: Daemon) {
    forall c :: c in d.conns ==> d.conns[c].owned.None?
  }

  // A session no client ever joined, its first having got no token.
  predicate Orphan(x: Session) {
    x.phase.Running? && !x.joined && x.subs == map[] && !x.stop
  }

  lemma Goes(d: Daemon, step: Step)
    requires Internal(step) && Enabled(d, step)
    ensures Progress(d)
  {
  }

  // A drain that holds the state goes on.
  lemma LockProgress(d: Daemon)
    requires Inv(d) && d.lock.Some?
    ensures Progress(d)
  {
    var s := d.lock.value;
    assert S.SessionOk(d.sess[s], s in d.sessions, true);
    if d.sess[s].subs == map[] {
      Goes(d, FanOut(s, EndUnlock));
    } else {
      var t :| t in d.sess[s].subs;
      assert X.SubOk(d, s, t);
      Goes(d, FanOut(s, EndOne(t)));
    }
  }

  lemma SendingProgress(d: Daemon, s: SessionId)
    requires Inv(d) && s in d.sess && d.sess[s].phase.Sending?
    ensures Progress(d)
  {
    assert S.SessionOk(d.sess[s], s in d.sessions, d.lock == Some(s));
    if d.sess[s].phase.rest == {} {
      Goes(d, FanOut(s, AllOffered));
    } else {
      var t :| t in d.sess[s].phase.rest;
      assert X.SubOk(d, s, t);
      Goes(d, FanOut(s, Offer(t)));
    }
  }

  // A fan-out that is neither waiting for a chunk nor done goes on.
  lemma SessionProgress(d: Daemon, s: SessionId)
    requires Inv(d) && s in d.sess && !d.sess[s].phase.Done? && (!d.sess[s].phase.Running? || d.sess[s].stop)
    ensures Progress(d)
  {
    assert S.SessionOk(d.sess[s], s in d.sessions, d.lock == Some(s));
    if d.lock.Some? { LockProgress(d); }
    else {
      match d.sess[s].phase
      case Running => Goes(d, FanOut(s, Stop));
      case Sending(_, _) => SendingProgress(d, s);
      case MaybeIdle => Goes(d, FanOut(s, CloseIfIdle));
      case Ending(_) => Goes(d, FanOut(s, EndBegin));
      case Closing => Goes(d, FanOut(s, CloseTuner));
      case Closed => Goes(d, FanOut(s, EndFinish));
    }
  }

  // Something else goes on, or `t` may be released.
  lemma ReleaseProgress(d: Daemon, t: Token)
    requires Inv(d)
    ensures Progress(d) || CanRelease(d, t)
  {
    if d.lock.Some? { LockProgress(d); }
    else if t in d.tokens {
      assert X.TokenOk(d, t);
      if d.sess[d.tokens[t]].phase.Sending? { SendingProgress(d, d.tokens[t]); }
    }
  }

  lemma LookProgress(d: Daemon, k: TaskId)
    requires Inv(d) && d.lock.None? && InAcquire(d, k) && d.calls[k].at.Looking?
    ensures Progress(d)
  {
    var shared := SharedFor(d, k);
    if shared.None? { Goes(d, Acquiring(k, NothingShared)); }
    else if d.sess[shared.value].phase.Sending? { SendingProgress(d, shared.value); }
    else { Goes(d, Acquiring(k, NoToken)); }
  }

  // A task that acquires a stream goes on, whatever the tuner does.
  lemma AcquireProgress(d: Daemon, k: TaskId)
    requires Inv(d) && InAcquire(d, k)
    ensures Progress(d)
  {
    assert d.calls[k].conn in d.conns;
    if d.lock.Some? { LockProgress(d); }
    else {
      match d.calls[k].at
      case Looking => LookProgress(d, k);
      case Choosing => Goes(d, Acquiring(k, NoneFree));
      case Reserved(_) => Goes(d, Acquiring(k, OpenFailed(false)));
      case Opened(_) => Goes(d, Acquiring(k, TuneFailed(false)));
      case ClosingFailed(_, _) => Goes(d, Acquiring(k, CloseFailed));
      case Unmarking(_, _) => Goes(d, Acquiring(k, Unmark));
      case Subscribed(_) =>
        if d.conns[d.calls[k].conn].owned.Some? { Goes(d, Acquiring(k, Keep)); }
        else { Goes(d, Acquiring(k, KeepTooLate)); }
      case GivingBack(t) =>
        ReleaseProgress(d, t);
        if CanRelease(d, t) { Goes(d, Acquiring(k, GiveBack)); }
    }
  }

  lemma CallProgress(d: Daemon, k: TaskId)
    requires Inv(d) && k in d.calls
    ensures Progress(d)
  {
    assert d.calls[k].conn in d.conns;
    match d.calls[k]
    case Acquire(_, _, _, _, _) => AcquireProgress(d, k);
    case Disowning(_, _, _) => Goes(d, Control(Disown(k)));
    case Releasing(_, _, t) =>
      ReleaseProgress(d, t);
      if CanRelease(d, t) { Goes(d, Control(ReleaseAsked(k))); }
    case Answering(_, _) => Goes(d, Control(Answer(k)));
  }

  // With its client gone, a token left is released.
  lemma TokenProgress(d: Daemon, t: Token)
    requires Inv(d) && AllLeft(d) && t in d.tokens
    ensures Progress(d)
  {
    assert O.OwnedOk(d, t);
    var c := d.streams[t].conn;
    if k :| O.Carried(d, k, c, t) { CallProgress(d, k); }
    else {
      ReleaseProgress(d, t);
      if CanRelease(d, t) { Goes(d, Control(ReleaseLeft(c, t))); }
    }
  }

  // With its clients gone, a session not done is done with, or an orphan.
  lemma LastProgress(d: Daemon, s: SessionId)
    requires Inv(d) && AllLeft(d) && s in d.sess && !d.sess[s].phase.Done?
    ensures Progress(d) || Orphan(d.sess[s])
  {
    var x := d.sess[s];
    assert S.SessionOk(x, s in d.sessions, d.lock == Some(s));
    if !x.phase.Running? || x.stop { SessionProgress(d, s); }
    else if x.subs != map[] {
      var t :| t in x.subs;
      assert X.SubOk(d, s, t);
      TokenProgress(d, t);
    }
  }

  // Once every client has gone and nothing is left for tunelithd to do by
  // itself, nothing is held but by sessions no client ever joined.
  lemma NothingIsLeft(d: Daemon)
    requires Reachable(d) && !Progress(d) && AllLeft(d)
    ensures d.calls == map[] && d.tokens == map[] && d.unattached == {} && d.closing == {} && d.lock.None?
    ensures forall s :: s in d.sess ==> d.sess[s].phase.Done? || Orphan(d.sess[s])
    ensures forall x :: x in d.busy <==> OrphanHolds(d, x)
    ensures (forall s :: s in d.sess ==> d.sess[s].joined) ==> d.busy == {} && d.sessions == []
  {
    ReachableInv(d);
    if d.lock.Some? { LockProgress(d); }
    if k :| k in d.calls { CallProgress(d, k); }
    if t :| t in d.tokens { TokenProgress(d, t); }
    forall s | s in d.sess ensures d.sess[s].phase.Done? || Orphan(d.sess[s]) {
      if !d.sess[s].phase.Done? { LastProgress(d, s); }
    }
    OnlyOrphans(d);
  }

  ghost predicate OrphanHolds(d: Daemon, x: TunerId) {
    exists s :: s in d.sess && Orphan(d.sess[s]) && d.sess[s].tuner == x
  }

  lemma OnlyOrphans(d: Daemon)
    requires Inv(d) && d.calls == map[] && forall s :: s in d.sess ==> d.sess[s].phase.Done? || Orphan(d.sess[s])
    ensures d.closing == {}
    ensures forall x :: x in d.busy <==> OrphanHolds(d, x)
    ensures (forall s :: s in d.sess ==> d.sess[s].joined) ==> d.busy == {} && d.sessions == []
  {
    assert d.closing == {};
    forall x ensures x in d.busy <==> OrphanHolds(d, x) {
      if x in d.busy {
        var s :| T.SessionHolds(d, s, x);
        assert Orphan(d.sess[s]);
      }
      if s :| s in d.sess && Orphan(d.sess[s]) && d.sess[s].tuner == x { assert T.SessionHolds(d, s, x); }
    }
    assert d.sessions != [] ==> d.sessions[0] in d.sessions;
  }

  // A session started for a client that gets no token.
  predicate StartsForNoOne(step: Step) {
    step.Acquiring? && step.acquire.TunedNoToken?
  }

  predicate AllJoined(d: Daemon) {
    forall s :: s in d.sess ==> d.sess[s].joined
  }

  lemma AcquireJoins(d: Daemon, k: TaskId, step: AcquireStep)
    requires AllJoined(d) && AcquireEnabled(d, k, step) && !step.TunedNoToken?
    ensures AllJoined(ApplyAcquire(d, k, step))
  {
  }

  lemma FanOutJoins(d: Daemon, s: SessionId, step: SessionStep)
    requires AllJoined(d) && FanOutEnabled(d, s, step)
    ensures AllJoined(ApplyFanOut(d, s, step))
  {
  }

  lemma ControlJoins(d: Daemon, step: ControlStep)
    requires AllJoined(d) && ControlEnabled(d, step)
    ensures AllJoined(ApplyControl(d, step))
  {
  }

  lemma DataJoins(d: Daemon, t: Token, step: DataStep)
    requires AllJoined(d) && DataEnabled(d, t, step)
    ensures AllJoined(ApplyData(d, t, step))
  {
  }

  lemma StepJoins(d: Daemon, step: Step)
    requires AllJoined(d) && Enabled(d, step) && !StartsForNoOne(step)
    ensures AllJoined(Apply(d, step))
  {
    match step
    case Acquiring(k, acquire) => AcquireJoins(d, k, acquire);
    case FanOut(s, fanOut) => FanOutJoins(d, s, fanOut);
    case Control(control) => ControlJoins(d, control);
    case Data(t, data) => DataJoins(d, t, data);
  }

  lemma {:induction false} RunJoins(d: Daemon, steps: seq<Step>)
    requires AllJoined(d) && After(d, steps).Some?
    requires forall i :: 0 <= i < |steps| ==> !StartsForNoOne(steps[i])
    ensures AllJoined(After(d, steps).value)
    decreases |steps|
  {
    if steps == [] {
    } else {
      StepJoins(d, steps[0]);
      RunJoins(Apply(d, steps[0]), steps[1..]);
    }
  }

  // On a run where no session is started for a client that gets no token,
  // nothing at all is left once every client has gone and nothing is left to do.
  lemma NothingIsLeftAtAll(steps: seq<Step>)
    requires After(INITIAL, steps).Some? && forall i :: 0 <= i < |steps| ==> !StartsForNoOne(steps[i])
    requires var d := After(INITIAL, steps).value; !Progress(d) && AllLeft(d)
    ensures var d := After(INITIAL, steps).value;
            && d.busy == {} && d.closing == {} && d.sessions == [] && d.tokens == map[] && d.unattached == {}
            && d.calls == map[]
  {
    var d := After(INITIAL, steps).value;
    assert Reachable(d);
    RunJoins(INITIAL, steps);
    NothingIsLeft(d);
  }

  /* A tuner held with no client: the one way NothingIsLeft leaves */

  lemma {:induction false} AfterOneMore(d: Daemon, steps: seq<Step>, step: Step)
    requires After(d, steps).Some? && Enabled(After(d, steps).value, step)
    ensures After(d, steps + [step]) == Some(Apply(After(d, steps).value, step))
    decreases |steps|
  {
    if steps == [] {
      assert steps + [step] == [step];
    } else {
      assert (steps + [step])[1..] == steps[1..] + [step];
      AfterOneMore(Apply(d, steps[0]), steps[1..], step);
    }
  }

  lemma ReachableNext(d: Daemon, step: Step)
    requires Reachable(d) && Enabled(d, step)
    ensures Reachable(Apply(d, step))
  {
    var steps :| After(INITIAL, steps) == Some(d);
    AfterOneMore(INITIAL, steps, step);
  }

  const NEWCOMER := Client(Some({}), {}, [], 0)
  const ASKED := INITIAL.(conns := map[0 := NEWCOMER], calls := map[0 := Acquire(0, 0, None, 1, Choosing)])
  const OPENED := ASKED.(busy := {7}, slots := {7}, calls := map[0 := Acquire(0, 0, None, 1, Opened(7))])
  const STARTED := OPENED.(calls := map[0 := Answering(0, Failed(0))], sessions := [0],
                           sess := map[0 := Session(1, 7, Running, map[], false, false, [])])
  const DESERTED := STARTED.(calls := map[], conns := map[0 := Client(None, {}, [Failed(0)], 0)])

  lemma AskedReachable()
    ensures Reachable(ASKED)
  {
    assert After(INITIAL, []) == Some(INITIAL);
    assert INITIAL.conns[0 := NEWCOMER] == map[0 := NEWCOMER];
    ReachableNext(INITIAL, Control(Connect(0)));
    var d := INITIAL.(conns := map[0 := NEWCOMER]);
    ReachableNext(d, Control(RequestAcquire(0, 0, 0, None, 1)));
    var e := d.(calls := map[0 := Acquire(0, 0, None, 1, Looking)]);
    assert Apply(d, Control(RequestAcquire(0, 0, 0, None, 1))) == e;
    ReachableNext(e, Acquiring(0, NothingShared));
    assert Apply(e, Acquiring(0, NothingShared)) == ASKED;
  }

  lemma OpenedReachable()
    ensures Reachable(OPENED)
  {
    AskedReachable();
    ReachableNext(ASKED, Acquiring(0, Reserve(7)));
    var d := ASKED.(busy := {7}, calls := map[0 := Acquire(0, 0, None, 1, Reserved(7))]);
    assert Apply(ASKED, Acquiring(0, Reserve(7))) == d;
    ReachableNext(d, Acquiring(0, OpenTuner));
    assert Apply(d, Acquiring(0, OpenTuner)) == OPENED;
  }

  lemma DesertedReachable()
    ensures Reachable(DESERTED)
  {
    OpenedReachable();
    ReachableNext(OPENED, Acquiring(0, TunedNoToken(0)));
    assert Apply(OPENED, Acquiring(0, TunedNoToken(0))) == STARTED;
    ReachableNext(STARTED, Control(Answer(0)));
    var d := STARTED.(calls := map[], conns := map[0 := Client(Some({}), {}, [Failed(0)], 0)]);
    assert Send(STARTED.conns, 0, [Failed(0)]) == d.conns by { assert NEWCOMER.sent + [Failed(0)] == [Failed(0)]; }
    assert STARTED.calls - {0} == map[];
    assert Apply(STARTED, Control(Answer(0))) == d;
    ReachableNext(d, Control(Leave(0)));
    assert Apply(d, Control(Leave(0))) == DESERTED;
  }

  // A subscribe that gets no token leaves its session running: with its client
  // gone and a source that gives no chunk, the tuner stays busy.
  lemma OrphanKeepsItsTuner()
    ensures Reachable(DESERTED) && AllLeft(DESERTED) && !Progress(DESERTED) && DESERTED.busy == {7}
  {
    DesertedReachable();
  }
}
