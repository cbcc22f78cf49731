/** What an acquire gets is what it asks for. */
module TunelithdWishes {
  import opened Options
  import opened Tunelithd

  // The session of `t` is tuned as asked, on the tuner named if one is.
  predicate Suits(d: Daemon, t: Token, wish: Wish) {
    && t in d.streams && d.streams[t].session in d.sess
    && d.sess[d.streams[t].session].params == wish.params
    && (wish.wanted.Some? ==> d.sess[d.streams[t].session].tuner == wish.wanted.value)
  }

  function WishOf(call: Call): Wish
    requires call.Acquire?
  {
    Wish(call.wanted, call.params)
  }

  predicate CallSuits(d: Daemon, k: TaskId) {
    InAcquire(d, k) ==>
      var call := d.calls[k];
      && (call.wanted.Some? && call.Holds().Some? ==> call.Holds().value == call.wanted.value)
      && (call.Carries().Some? ==> Suits(d, call.Carries().value, WishOf(call)))
  }

  ghost predicate Wishes(d: Daemon) {
    forall k :: CallSuits(d, k)
  }

  // Streams keep their sessions, and sessions what they are tuned to.
  ghost predicate Firm(d: Daemon, d': Daemon) {
    && (forall t :: t in d.streams ==> t in d'.streams && d'.streams[t].session == d.streams[t].session)
    && (forall s :: s in d.sess ==>
          s in d'.sess && d'.sess[s].params == d.sess[s].params && d'.sess[s].tuner == d.sess[s].tuner)
  }

  lemma SuitsStill(d: Daemon, d': Daemon, t: Token, wish: Wish)
    requires Firm(d, d') && Suits(d, t, wish)
    ensures Suits(d', t, wish)
  {
  }

  lemma SubscribeFirm(d: Daemon, s: SessionId, c: ConnId, t: Token)
    requires s in d.sess && Fresh(d, t)
    ensures Firm(d, Subscribe(d, s, c, t))
  {
  }

  lemma ReleaseFirm(d: Daemon, t: Token)
    requires CanRelease(d, t)
    ensures Firm(d, Release(d, t))
  {
  }

  lemma AcquireFirm(d: Daemon, k: TaskId, step: AcquireStep)
    requires AcquireEnabled(d, k, step)
    ensures Firm(d, ApplyAcquire(d, k, step))
  {
    match step
    case Join(t) => SubscribeFirm(d, SharedFor(d, k).value, d.calls[k].conn, t);
    case Tuned(s, t) => SubscribeFirm(Started(d, k, s), s, d.calls[k].conn, t);
    case GiveBack => ReleaseFirm(d, d.calls[k].at.token);
    case _ =>
  }

  lemma ControlFirm(d: Daemon, step: ControlStep)
    requires ControlEnabled(d, step)
    ensures Firm(d, ApplyControl(d, step))
  {
    match step
    case ReleaseAsked(k) => ReleaseFirm(d, d.calls[k].token);
    case ReleaseLeft(_, t) => ReleaseFirm(d, t);
    case _ =>
  }

  lemma FanOutFirm(d: Daemon, s: SessionId, step: SessionStep)
    requires FanOutEnabled(d, s, step)
    ensures Firm(d, ApplyFanOut(d, s, step))
  {
  }

  lemma DataFirm(d: Daemon, t: Token, step: DataStep)
    requires DataEnabled(d, t, step)
    ensures Firm(d, ApplyData(d, t, step))
  {
    if step.ReleaseData? { ReleaseFirm(d, t); }
  }

  lemma StepFirm(d: Daemon, step: Step)
    requires Enabled(d, step)
    ensures Firm(d, Apply(d, step))
  {
    match step
    case Control(control) => ControlFirm(d, control);
    case Acquiring(k, acquire) => AcquireFirm(d, k, acquire);
    case FanOut(s, fanOut) => FanOutFirm(d, s, fanOut);
    case Data(t, data) => DataFirm(d, t, data);
  }

  // The tasks that acquire, but maybe for `k`, stay where they are.
  lemma OthersKeep(d: Daemon, d': Daemon, k: TaskId)
    requires Wishes(d) && Firm(d, d') && CallSuits(d', k)
    requires forall j :: InAcquire(d', j) && j != k ==> j in d.calls && d'.calls[j] == d.calls[j]
    ensures Wishes(d')
  {
    forall j ensures CallSuits(d', j) { assert CallSuits(d, j); }
  }

  // A session found to share is one tuned as asked.
  lemma JoinSuits(d: Daemon, k: TaskId, t: Token)
    requires Wishes(d) && AcquireEnabled(d, k, Join(t))
    ensures CallSuits(ApplyAcquire(d, k, Join(t)), k)
  {
    assert Shares(d, SharedFor(d, k).value, d.calls[k].params, d.calls[k].wanted);
  }

  // A session started is tuned as asked.
  lemma TunedSuits(d: Daemon, k: TaskId, s: SessionId, t: Token)
    requires Wishes(d) && AcquireEnabled(d, k, Tuned(s, t))
    ensures CallSuits(ApplyAcquire(d, k, Tuned(s, t)), k)
  {
    assert CallSuits(d, k);
  }

  lemma OtherSuits(d: Daemon, k: TaskId, step: AcquireStep)
    requires Wishes(d) && AcquireEnabled(d, k, step) && !step.Join? && !step.Tuned?
    ensures CallSuits(ApplyAcquire(d, k, step), k)
  {
    AcquireFirm(d, k, step);
    assert CallSuits(d, k);
  }

  lemma AcquireKeeps(d: Daemon, k: TaskId, step: AcquireStep)
    requires Wishes(d) && AcquireEnabled(d, k, step)
    ensures Wishes(ApplyAcquire(d, k, step))
  {
    AcquireFirm(d, k, step);
    match step {
      case Join(t) => JoinSuits(d, k, t);
      case Tuned(s, t) => TunedSuits(d, k, s, t);
      case _ => OtherSuits(d, k, step);
    }
    OthersKeep(d, ApplyAcquire(d, k, step), k);
  }

  lemma ControlKeeps(d: Daemon, step: ControlStep)
    requires Wishes(d) && ControlEnabled(d, step)
    ensures Wishes(ApplyControl(d, step))
  {
    ControlFirm(d, step);
    var d' := ApplyControl(d, step);
    forall j ensures CallSuits(d', j) { assert CallSuits(d, j); }
  }

  lemma FanOutKeeps(d: Daemon, s: SessionId, step: SessionStep)
    requires Wishes(d) && FanOutEnabled(d, s, step)
    ensures Wishes(ApplyFanOut(d, s, step))
  {
    FanOutFirm(d, s, step);
    forall j ensures CallSuits(ApplyFanOut(d, s, step), j) { assert CallSuits(d, j); }
  }

  lemma DataKeeps(d: Daemon, t: Token, step: DataStep)
    requires Wishes(d) && DataEnabled(d, t, step)
    ensures Wishes(ApplyData(d, t, step))
  {
    DataFirm(d, t, step);
    forall j ensures CallSuits(ApplyData(d, t, step), j) { assert CallSuits(d, j); }
  }

  lemma StepKeeps(d: Daemon, step: Step)
    requires Wishes(d) && Enabled(d, step)
    ensures Wishes(Apply(d, step))
  {
    match step
    case Control(control) => ControlKeeps(d, control);
    case Acquiring(k, acquire) => AcquireKeeps(d, k, acquire);
    case FanOut(s, fanOut) => FanOutKeeps(d, s, fanOut);
    case Data(t, data) => DataKeeps(d, t, data);
  }

  lemma {:induction false} RunKeeps(d: Daemon, steps: seq<Step>)
    requires Wishes(d) && After(d, steps).Some?
    ensures Wishes(After(d, steps).value)
    decreases |steps|
  {
    if steps == [] {
    } else {
      StepKeeps(d, steps[0]);
      RunKeeps(Apply(d, steps[0]), steps[1..]);
    }
  }

  // Whatever it joined or started, the stream an acquire has is of a session
  // with the parameters it asked for, on the tuner it named if it named one; and
  // a tuner it holds meanwhile is that one.
  lemma GetsWhatItAsksFor(d: Daemon, k: TaskId)
    requires Reachable(d) && k in d.calls && d.calls[k].Acquire?
    ensures var call := d.calls[k];
            call.at.Subscribed? ==>
              && call.at.token in d.streams && d.streams[call.at.token].session in d.sess
              && var x := d.sess[d.streams[call.at.token].session];
                 x.params == call.params && (call.wanted.Some? ==> x.tuner == call.wanted.value)
    ensures var call := d.calls[k];
            (call.at.Reserved? || call.at.Opened?) && call.wanted.Some? ==> call.at.tuner == call.wanted.value
  {
    var steps :| After(INITIAL, steps) == Some(d);
    RunKeeps(INITIAL, steps);
    assert CallSuits(d, k);
  }

  // Whether a running session has what `call` asks for.
  predicate SomeSessionSuits(d: Daemon, call: Call)
    requires call.Acquire?
  {
    exists s :: s in d.sessions && s in d.sess && d.sess[s].params == call.params
                && (call.wanted.Some? ==> d.sess[s].tuner == call.wanted.value)
  }

  // An acquire goes on to choose a tuner exactly if no running session suits it.
  lemma ChoosesWhenNoneSuits(d: Daemon, k: TaskId)
    requires CanLook(d, k)
    ensures AcquireEnabled(d, k, NothingShared) <==> !SomeSessionSuits(d, d.calls[k])
  {
    var call := d.calls[k];
    forall s | s in d.sessions
      ensures Shares(d, s, call.params, call.wanted) <==>
                s in d.sess && d.sess[s].params == call.params
                && (call.wanted.Some? ==> d.sess[s].tuner == call.wanted.value)
    {
    }
  }
}
