/**
 Who holds the tuners of tunelithd: `busy` is exactly the set of tuners held,
 each by one holder, and `open_tuner` never meets a tuner still open.
 */
module TunelithdTuners {
  import opened Options
  import opened Tunelithd

  predicate CallHolds(d: Daemon, k: TaskId, tuner: TunerId) {
    k in d.calls && d.calls[k].Holds() == Some(tuner)
  }

  predicate SessionHolds(d: Daemon, s: SessionId, tuner: TunerId) {
    s in d.sess && !d.sess[s].phase.Done? && d.sess[s].tuner == tuner
  }

  // Past the first section of end, and not yet free.
  predicate BeingClosed(phase: Phase) {
    phase.Draining? || phase.Closing? || phase.Closed?
  }

  ghost predicate HeldAreBusy(d: Daemon) {
    && (forall k, x :: CallHolds(d, k, x) ==> x in d.busy)
    && (forall s, x :: SessionHolds(d, s, x) ==> x in d.busy)
  }

  ghost predicate BusyAreHeld(d: Daemon) {
    forall x :: x in d.busy ==> (exists k :: CallHolds(d, k, x)) || (exists s :: SessionHolds(d, s, x))
  }

  ghost predicate OneHolder(d: Daemon) {
    && (forall k, k', x :: CallHolds(d, k, x) && CallHolds(d, k', x) ==> k == k')
    && (forall s, s', x :: SessionHolds(d, s, x) && SessionHolds(d, s', x) ==> s == s')
    && (forall k, s, x :: CallHolds(d, k, x) ==> !SessionHolds(d, s, x))
  }

  // `closing` marks the tuners of the sessions being closed.
  ghost predicate ClosingAreClosed(d: Daemon) {
    && (forall x :: x in d.closing ==> exists s :: SessionHolds(d, s, x) && BeingClosed(d.sess[s].phase))
    && (forall s, x :: SessionHolds(d, s, x) && BeingClosed(d.sess[s].phase) ==> x in d.closing)
  }

  // The tuners open are those a holder has opened and not yet closed.
  ghost predicate SlotsFollow(d: Daemon) {
    && d.slots <= d.busy
    && (forall k, x :: CallHolds(d, k, x) ==> (x in d.slots <==> d.calls[k].HasOpen()))
    && (forall s, x :: SessionHolds(d, s, x) ==> (x in d.slots <==> !d.sess[s].phase.Closed?))
  }

  ghost predicate Tuners(d: Daemon) {
    HeldAreBusy(d) && BusyAreHeld(d) && OneHolder(d) && ClosingAreClosed(d) && SlotsFollow(d)
  }

  /* Steps that leave every holder as it is */

  // Whether both hold the same tuner, and have it open or not alike.
  predicate AlikeCalls(c: Call, c': Call) {
    c'.Holds() == c.Holds() && c'.HasOpen() == c.HasOpen()
  }

  predicate AlikeSessions(x: Session, x': Session) {
    && x'.tuner == x.tuner
    && x'.phase.Done? == x.phase.Done?
    && BeingClosed(x'.phase) == BeingClosed(x.phase)
    && x'.phase.Closed? == x.phase.Closed?
  }

  predicate SameTuners(d: Daemon, d': Daemon) {
    d'.busy == d.busy && d'.closing == d.closing && d'.slots == d.slots
  }

  ghost predicate SameCalls(d: Daemon, d': Daemon) {
    && (forall k :: k in d'.calls && d'.calls[k].Holds().Some? ==> k in d.calls && AlikeCalls(d.calls[k], d'.calls[k]))
    && (forall k :: k in d.calls && d.calls[k].Holds().Some? ==> k in d'.calls && AlikeCalls(d.calls[k], d'.calls[k]))
  }

  ghost predicate SameSessions(d: Daemon, d': Daemon) {
    && d'.sess.Keys == d.sess.Keys
    && (forall s :: s in d.sess ==> AlikeSessions(d.sess[s], d'.sess[s]))
  }

  ghost predicate SameHolders(d: Daemon, d': Daemon) {
    SameTuners(d, d') && SameCalls(d, d') && SameSessions(d, d')
  }

  lemma SameHoldersKeep(d: Daemon, d': Daemon)
    requires Tuners(d) && SameHolders(d, d')
    ensures Tuners(d')
  {
    assert forall k, x :: CallHolds(d', k, x) <==> CallHolds(d, k, x);
    assert forall s, x :: SessionHolds(d', s, x) <==> SessionHolds(d, s, x);
    forall x | x in d'.busy
      ensures (exists k :: CallHolds(d', k, x)) || (exists s :: SessionHolds(d', s, x))
    {
      assert x in d.busy;
      if k :| CallHolds(d, k, x) { assert CallHolds(d', k, x); }
      else { var s :| SessionHolds(d, s, x); assert SessionHolds(d', s, x); }
    }
    forall x | x in d'.closing
      ensures exists s :: SessionHolds(d', s, x) && BeingClosed(d'.sess[s].phase)
    {
      var s :| SessionHolds(d, s, x) && BeingClosed(d.sess[s].phase);
      assert SessionHolds(d', s, x);
    }
  }

  /* The tasks */

  lemma ReserveKeeps(d: Daemon, k: TaskId, tuner: TunerId)
    requires Tuners(d) && AcquireEnabled(d, k, Reserve(tuner))
    ensures Tuners(ApplyAcquire(d, k, Reserve(tuner)))
  {
    var d' := ApplyAcquire(d, k, Reserve(tuner));
    assert forall j, x :: CallHolds(d', j, x) <==> CallHolds(d, j, x) || (j == k && x == tuner);
    assert forall s, x :: SessionHolds(d', s, x) <==> SessionHolds(d, s, x);
    BusyGrows(d, d', k, tuner);
  }

  lemma BusyGrows(d: Daemon, d': Daemon, k: TaskId, tuner: TunerId)
    requires BusyAreHeld(d) && d'.busy == d.busy + {tuner} && CallHolds(d', k, tuner)
    requires forall j, x :: CallHolds(d, j, x) ==> CallHolds(d', j, x)
    requires forall s, x :: SessionHolds(d, s, x) ==> SessionHolds(d', s, x)
    ensures BusyAreHeld(d')
  {
  }

  lemma OpenTunerKeeps(d: Daemon, k: TaskId)
    requires Tuners(d) && AcquireEnabled(d, k, OpenTuner)
    ensures Tuners(ApplyAcquire(d, k, OpenTuner))
  {
    var d' := ApplyAcquire(d, k, OpenTuner);
    assert CallHolds(d, k, d.calls[k].at.tuner);
    assert forall j, x :: CallHolds(d', j, x) <==> CallHolds(d, j, x);
    assert forall s, x :: SessionHolds(d', s, x) <==> SessionHolds(d, s, x);
  }

  lemma CloseFailedKeeps(d: Daemon, k: TaskId)
    requires Tuners(d) && AcquireEnabled(d, k, CloseFailed)
    ensures Tuners(ApplyAcquire(d, k, CloseFailed))
  {
    var d' := ApplyAcquire(d, k, CloseFailed);
    assert CallHolds(d, k, d.calls[k].at.tuner);
    assert forall j, x :: CallHolds(d', j, x) <==> CallHolds(d, j, x);
    assert forall s, x :: SessionHolds(d', s, x) <==> SessionHolds(d, s, x);
  }

  lemma OpenFailedKeeps(d: Daemon, k: TaskId, busy: bool)
    requires Tuners(d) && AcquireEnabled(d, k, OpenFailed(busy))
    ensures Tuners(ApplyAcquire(d, k, OpenFailed(busy)))
  {
    assert SameHolders(d, ApplyAcquire(d, k, OpenFailed(busy)));
    SameHoldersKeep(d, ApplyAcquire(d, k, OpenFailed(busy)));
  }

  lemma UnmarkKeeps(d: Daemon, k: TaskId)
    requires Tuners(d) && AcquireEnabled(d, k, Unmark)
    ensures Tuners(ApplyAcquire(d, k, Unmark))
  {
    var d' := ApplyAcquire(d, k, Unmark);
    assert CallHolds(d, k, d.calls[k].at.tuner);
    assert forall j, x :: CallHolds(d', j, x) <==> CallHolds(d, j, x) && j != k;
    assert forall s, x :: SessionHolds(d', s, x) <==> SessionHolds(d, s, x);
  }

  // The tuner goes from the acquire to the session it starts.
  lemma TunedKeeps(d: Daemon, d': Daemon, k: TaskId, s: SessionId)
    requires Tuners(d) && CanStart(d, k, s) && SameTuners(d, d')
    requires k in d'.calls && d'.calls == d.calls[k := d'.calls[k]] && d'.calls[k].Holds().None?
    requires s in d'.sess && d'.sess == d.sess[s := d'.sess[s]]
    requires d'.sess[s].phase.Running? && d'.sess[s].tuner == d.calls[k].at.tuner
    ensures Tuners(d')
  {
    var tuner := d.calls[k].at.tuner;
    assert CallHolds(d, k, tuner);
    assert forall j, x :: CallHolds(d', j, x) <==> CallHolds(d, j, x) && j != k;
    assert forall r, x :: SessionHolds(d', r, x) <==> SessionHolds(d, r, x) || (r == s && x == tuner);
    assert SessionHolds(d', s, tuner);
  }

  lemma ReleaseSameSessions(d: Daemon, t: Token)
    requires CanRelease(d, t)
    ensures SameSessions(d, Release(d, t)) && SameTuners(d, Release(d, t)) && Release(d, t).calls == d.calls
  {
  }

  lemma WaitingSameHolders(d: Daemon, k: TaskId, step: AcquireStep)
    requires AcquireEnabled(d, k, step)
    requires step.NothingShared? || step.NoToken? || step.NoneFree? || step.TuneFailed?
    ensures SameHolders(d, ApplyAcquire(d, k, step))
  {
  }

  lemma KeepingSameHolders(d: Daemon, k: TaskId, step: AcquireStep)
    requires AcquireEnabled(d, k, step) && (step.Keep? || step.KeepTooLate?)
    ensures SameHolders(d, ApplyAcquire(d, k, step))
  {
  }

  lemma JoinSameHolders(d: Daemon, k: TaskId, t: Token)
    requires AcquireEnabled(d, k, Join(t))
    ensures SameHolders(d, ApplyAcquire(d, k, Join(t)))
  {
  }

  lemma AcquireKeeps(d: Daemon, k: TaskId, step: AcquireStep)
    requires Tuners(d) && AcquireEnabled(d, k, step)
    ensures Tuners(ApplyAcquire(d, k, step))
  {
    match step
    case Reserve(tuner) => ReserveKeeps(d, k, tuner);
    case OpenTuner => OpenTunerKeeps(d, k);
    case OpenFailed(busy) => OpenFailedKeeps(d, k, busy);
    case CloseFailed => CloseFailedKeeps(d, k);
    case Unmark => UnmarkKeeps(d, k);
    case Tuned(s, t) => TunedKeeps(d, ApplyAcquire(d, k, step), k, s);
    case TunedNoToken(s) => TunedKeeps(d, ApplyAcquire(d, k, step), k, s);
    case _ => OtherAcquireKeeps(d, k, step);
  }

  lemma OtherAcquireKeeps(d: Daemon, k: TaskId, step: AcquireStep)
    requires Tuners(d) && AcquireEnabled(d, k, step)
    requires step.NothingShared? || step.NoToken? || step.NoneFree? || step.TuneFailed? || step.Keep?
          || step.KeepTooLate? || step.Join? || step.GiveBack?
    ensures Tuners(ApplyAcquire(d, k, step))
  {
    if step.Join? { JoinSameHolders(d, k, step.t); }
    else if step.GiveBack? { ReleaseSameSessions(d, d.calls[k].at.token); }
    else if step.Keep? || step.KeepTooLate? { KeepingSameHolders(d, k, step); }
    else { WaitingSameHolders(d, k, step); }
    SameHoldersKeep(d, ApplyAcquire(d, k, step));
  }

  lemma ClientSameHolders(d: Daemon, step: ControlStep)
    requires ControlEnabled(d, step)
    requires
      step.Connect? || step.RequestAcquire? || step.RequestRelease? || step.Deliver? || step.Leave? || step.Unpark?
    ensures SameHolders(d, ApplyControl(d, step))
  {
  }

  lemma EndingSameHolders(d: Daemon, step: ControlStep)
    requires ControlEnabled(d, step)
    requires step.Disown? || step.Answer? || step.ReleaseAsked? || step.ReleaseLeft?
    ensures SameHolders(d, ApplyControl(d, step))
  {
    if step.ReleaseAsked? { ReleaseSameSessions(d, d.calls[step.k].token); }
    else if step.ReleaseLeft? { ReleaseSameSessions(d, step.t); }
  }

  lemma ControlKeeps(d: Daemon, step: ControlStep)
    requires Tuners(d) && ControlEnabled(d, step)
    ensures Tuners(ApplyControl(d, step))
  {
    if step.Disown? || step.Answer? || step.ReleaseAsked? || step.ReleaseLeft? { EndingSameHolders(d, step); }
    else { ClientSameHolders(d, step); }
    SameHoldersKeep(d, ApplyControl(d, step));
  }

  /* The fan-outs */

  lemma EndBeginKeeps(d: Daemon, s: SessionId)
    requires Tuners(d) && FanOutEnabled(d, s, EndBegin)
    ensures Tuners(ApplyFanOut(d, s, EndBegin))
  {
    var d' := ApplyFanOut(d, s, EndBegin);
    assert SessionHolds(d, s, d.sess[s].tuner);
    assert forall k, x :: CallHolds(d', k, x) <==> CallHolds(d, k, x);
    assert forall r, x :: SessionHolds(d', r, x) <==> SessionHolds(d, r, x);
  }

  lemma CloseTunerKeeps(d: Daemon, s: SessionId)
    requires Tuners(d) && FanOutEnabled(d, s, CloseTuner)
    ensures Tuners(ApplyFanOut(d, s, CloseTuner))
  {
    var d' := ApplyFanOut(d, s, CloseTuner);
    assert SessionHolds(d, s, d.sess[s].tuner);
    assert forall k, x :: CallHolds(d', k, x) <==> CallHolds(d, k, x);
    assert forall r, x :: SessionHolds(d', r, x) <==> SessionHolds(d, r, x);
  }

  lemma EndFinishKeeps(d: Daemon, s: SessionId)
    requires Tuners(d) && FanOutEnabled(d, s, EndFinish)
    ensures Tuners(ApplyFanOut(d, s, EndFinish))
  {
    var d' := ApplyFanOut(d, s, EndFinish);
    assert SessionHolds(d, s, d.sess[s].tuner);
    assert forall k, x :: CallHolds(d', k, x) <==> CallHolds(d, k, x);
    assert forall r, x :: SessionHolds(d', r, x) <==> SessionHolds(d, r, x) && r != s;
  }

  lemma LoopSameHolders(d: Daemon, s: SessionId, step: SessionStep)
    requires FanOutEnabled(d, s, step) && (step.TakeChunk? || step.AllOffered? || step.SourceEnds?)
    ensures SameHolders(d, ApplyFanOut(d, s, step))
  {
  }

  lemma LeaveSameHolders(d: Daemon, s: SessionId, step: SessionStep)
    requires FanOutEnabled(d, s, step) && (step.Stop? || step.CloseIfIdle? || step.EndUnlock?)
    ensures SameHolders(d, ApplyFanOut(d, s, step))
  {
  }

  lemma SubscriberSameHolders(d: Daemon, s: SessionId, step: SessionStep)
    requires FanOutEnabled(d, s, step) && (step.Offer? || step.EndOne?)
    ensures SameHolders(d, ApplyFanOut(d, s, step))
  {
  }

  lemma FanOutKeeps(d: Daemon, s: SessionId, step: SessionStep)
    requires Tuners(d) && FanOutEnabled(d, s, step)
    ensures Tuners(ApplyFanOut(d, s, step))
  {
    match step
    case EndBegin => EndBeginKeeps(d, s);
    case CloseTuner => CloseTunerKeeps(d, s);
    case EndFinish => EndFinishKeeps(d, s);
    case _ =>
      if step.Offer? || step.EndOne? { SubscriberSameHolders(d, s, step); }
      else if step.Stop? || step.CloseIfIdle? || step.EndUnlock? { LeaveSameHolders(d, s, step); }
      else { LoopSameHolders(d, s, step); }
      SameHoldersKeep(d, ApplyFanOut(d, s, step));
  }

  lemma DataKeeps(d: Daemon, t: Token, step: DataStep)
    requires Tuners(d) && DataEnabled(d, t, step)
    ensures Tuners(ApplyData(d, t, step))
  {
    if step.ReleaseData? { ReleaseSameSessions(d, t); }
    SameHoldersKeep(d, ApplyData(d, t, step));
  }

  lemma StepKeeps(d: Daemon, step: Step)
    requires Tuners(d) && Enabled(d, step)
    ensures Tuners(Apply(d, step))
  {
    match step
    case Control(control) => ControlKeeps(d, control);
    case Acquiring(k, acquire) => AcquireKeeps(d, k, acquire);
    case FanOut(s, fanOut) => FanOutKeeps(d, s, fanOut);
    case Data(t, data) => DataKeeps(d, t, data);
  }

  lemma {:induction false} RunKeeps(d: Daemon, steps: seq<Step>)
    requires Tuners(d) && After(d, steps).Some?
    ensures Tuners(After(d, steps).value)
    decreases |steps|
  {
    if steps == [] {
    } else {
      StepKeeps(d, steps[0]);
      RunKeeps(Apply(d, steps[0]), steps[1..]);
    }
  }

  // A tuner is busy exactly while someone holds it, and it has one holder.
  lemma BusyIsHeld(d: Daemon)
    requires Reachable(d)
    ensures forall x :: x in d.busy <==>
              (exists k :: CallHolds(d, k, x)) || (exists s :: SessionHolds(d, s, x))
    ensures OneHolder(d)
    ensures d.closing <= d.busy
  {
    var steps :| After(INITIAL, steps) == Some(d);
    RunKeeps(INITIAL, steps);
    forall x | x in d.closing ensures x in d.busy {
      var s :| SessionHolds(d, s, x) && BeingClosed(d.sess[s].phase);
    }
  }

  // open_tuner is called only once the holder before has closed the tuner, so
  // it never fails for the tuner being open already.
  lemma OpenMeetsAClosedTuner(d: Daemon, k: TaskId)
    requires Reachable(d)
    requires InAcquire(d, k) && d.calls[k].at.Reserved?
    ensures d.calls[k].at.tuner !in d.slots
    ensures AcquireEnabled(d, k, OpenTuner)
  {
    var steps :| After(INITIAL, steps) == Some(d);
    RunKeeps(INITIAL, steps);
    assert CallHolds(d, k, d.calls[k].at.tuner);
  }
}
