/**
 The sessions of tunelithd: who may join one, when it is told to stop, and
 that stopping it cuts no client.
 */
module TunelithdSessions {
  import opened Options
  import opened Tunelithd

  predicate PastDrain(phase: Phase) {
    phase.Closing? || phase.Closed? || phase.Done?
  }

  // Out of the loop for want of clients rather than for its source.
  predicate LeftForWant(phase: Phase) {
    (phase.Ending? || phase.Draining?) && !phase.why.SourceEnded?
  }

  // `listed` says whether the session is a running one, `locked` whether its
  // drain holds the state.
  predicate SessionOk(x: Session, listed: bool, locked: bool) {
    && (listed ==> x.phase.Joinable())
    && (x.phase.Draining? <==> locked)
    && (x.phase.Sending? ==> x.phase.rest <= x.subs.Keys)
    && (PastDrain(x.phase) ==> x.subs == map[])
    && (x.stop || LeftForWant(x.phase) ==> !listed && x.subs == map[])
    && (x.phase.Running? && x.subs == map[] ==> x.stop || !x.joined)
  }

  ghost predicate Sessions(d: Daemon) {
    && (forall s :: s in d.sessions ==> s in d.sess)
    && (d.lock.Some? ==> d.lock.value in d.sess)
    && (forall s :: s in d.sess ==> SessionOk(d.sess[s], s in d.sessions, d.lock == Some(s)))
  }

  lemma SameSessionsKeep(d: Daemon, d': Daemon)
    requires Sessions(d) && d'.sess == d.sess && d'.sessions == d.sessions && d'.lock == d.lock
    ensures Sessions(d')
  {
  }

  // Only the session `s` changes, and who is listed but for it.
  lemma OneSessionKeeps(d: Daemon, d': Daemon, s: SessionId)
    requires Sessions(d) && d'.lock == d.lock && s in d'.sess
    requires d'.sess == d.sess[s := d'.sess[s]]
    requires forall r :: r != s ==> (r in d'.sessions <==> r in d.sessions)
    requires SessionOk(d'.sess[s], s in d'.sessions, d'.lock == Some(s))
    ensures Sessions(d')
  {
  }

  lemma ReleaseKeeps(d: Daemon, t: Token)
    requires Sessions(d) && CanRelease(d, t)
    requires t in d.tokens ==> d.tokens[t] in d.sess && d.sess[d.tokens[t]].phase.Joinable()
    ensures Sessions(Release(d, t))
  {
    var d' := Release(d, t);
    if t in d.tokens { OneSessionKeeps(d, d', d.tokens[t]); }
    else { SameSessionsKeep(d, d'); }
  }

  lemma JoinKeeps(d: Daemon, k: TaskId, t: Token)
    requires Sessions(d) && AcquireEnabled(d, k, Join(t))
    ensures Sessions(ApplyAcquire(d, k, Join(t)))
  {
    var s := SharedFor(d, k).value;
    var d' := ApplyAcquire(d, k, Join(t));
    assert t in d'.sess[s].subs;
    OneSessionKeeps(d, d', s);
  }

  lemma StartedKeeps(d: Daemon, d': Daemon, k: TaskId, s: SessionId)
    requires Sessions(d) && CanStart(d, k, s) && d'.lock == d.lock && d'.sessions == d.sessions + [s]
    requires s in d'.sess && d'.sess == d.sess[s := d'.sess[s]] && d'.sess[s].phase.Running? && !d'.sess[s].stop
    requires d'.sess[s].joined ==> d'.sess[s].subs != map[]
    ensures Sessions(d')
  {
    OneSessionKeeps(d, d', s);
  }

  lemma AcquireKeeps(d: Daemon, k: TaskId, step: AcquireStep)
    requires Sessions(d) && AcquireEnabled(d, k, step)
    requires step.GiveBack? ==> var t := d.calls[k].at.token;
               t in d.tokens ==> d.tokens[t] in d.sess && d.sess[d.tokens[t]].phase.Joinable()
    ensures Sessions(ApplyAcquire(d, k, step))
  {
    var d' := ApplyAcquire(d, k, step);
    match step
    case Join(t) => JoinKeeps(d, k, t);
    case Tuned(s, t) =>
      assert t in d'.sess[s].subs;
      StartedKeeps(d, d', k, s);
    case TunedNoToken(s) => StartedKeeps(d, d', k, s);
    case GiveBack => ReleaseKeeps(d, d.calls[k].at.token); SameSessionsKeep(Release(d, d.calls[k].at.token), d');
    case _ => SameSessionsKeep(d, d');
  }

  lemma LoopKeeps(d: Daemon, s: SessionId, step: SessionStep)
    requires Sessions(d) && FanOutEnabled(d, s, step)
    requires step.TakeChunk? || step.AllOffered? || step.SourceEnds? || step.Stop?
    ensures Sessions(ApplyFanOut(d, s, step))
  {
    OneSessionKeeps(d, ApplyFanOut(d, s, step), s);
  }

  lemma OfferKeeps(d: Daemon, s: SessionId, t: Token)
    requires Sessions(d) && FanOutEnabled(d, s, Offer(t))
    ensures Sessions(ApplyFanOut(d, s, Offer(t)))
  {
    OneSessionKeeps(d, ApplyFanOut(d, s, Offer(t)), s);
  }

  lemma CloseIfIdleKeeps(d: Daemon, s: SessionId)
    requires Sessions(d) && FanOutEnabled(d, s, CloseIfIdle)
    ensures Sessions(ApplyFanOut(d, s, CloseIfIdle))
  {
    OneSessionKeeps(d, ApplyFanOut(d, s, CloseIfIdle), s);
  }

  lemma EndKeeps(d: Daemon, s: SessionId, step: SessionStep)
    requires Sessions(d) && FanOutEnabled(d, s, step)
    requires step.EndOne? || step.CloseTuner? || step.EndFinish?
    ensures Sessions(ApplyFanOut(d, s, step))
  {
    OneSessionKeeps(d, ApplyFanOut(d, s, step), s);
  }

  lemma EndLocksKeep(d: Daemon, s: SessionId, step: SessionStep)
    requires Sessions(d) && FanOutEnabled(d, s, step) && (step.EndBegin? || step.EndUnlock?)
    ensures Sessions(ApplyFanOut(d, s, step))
  {
  }

  lemma FanOutKeeps(d: Daemon, s: SessionId, step: SessionStep)
    requires Sessions(d) && FanOutEnabled(d, s, step)
    ensures Sessions(ApplyFanOut(d, s, step))
  {
    match step
    case Offer(t) => OfferKeeps(d, s, t);
    case CloseIfIdle => CloseIfIdleKeeps(d, s);
    case EndBegin => EndLocksKeep(d, s, step);
    case EndUnlock => EndLocksKeep(d, s, step);
    case EndOne(t) => EndKeeps(d, s, step);
    case CloseTuner => EndKeeps(d, s, step);
    case EndFinish => EndKeeps(d, s, step);
    case _ => LoopKeeps(d, s, step);
  }

  lemma ControlKeeps(d: Daemon, step: ControlStep)
    requires Sessions(d) && ControlEnabled(d, step)
    requires forall t :: t in d.tokens ==> d.tokens[t] in d.sess && d.sess[d.tokens[t]].phase.Joinable()
    ensures Sessions(ApplyControl(d, step))
  {
    var d' := ApplyControl(d, step);
    match step
    case ReleaseAsked(k) => ReleaseKeeps(d, d.calls[k].token); SameSessionsKeep(Release(d, d.calls[k].token), d');
    case ReleaseLeft(c, t) => ReleaseKeeps(d, t); SameSessionsKeep(Release(d, t), d');
    case _ => SameSessionsKeep(d, d');
  }

  lemma DataKeeps(d: Daemon, t: Token, step: DataStep)
    requires Sessions(d) && DataEnabled(d, t, step)
    requires t in d.tokens ==> d.tokens[t] in d.sess && d.sess[d.tokens[t]].phase.Joinable()
    ensures Sessions(ApplyData(d, t, step))
  {
    if step.ReleaseData? {
      ReleaseKeeps(d, t);
      SameSessionsKeep(Release(d, t), ApplyData(d, t, step));
    } else {
      SameSessionsKeep(d, ApplyData(d, t, step));
    }
  }
}
