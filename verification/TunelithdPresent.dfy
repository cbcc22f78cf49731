/**
 A stream with a receiver is subscribed as long as its token is left: fan-outs
 prune a subscriber only once its receiver is gone.
 */
module TunelithdPresent {
  import opened Tunelithd
  import X = TunelithdStreams

  predicate PresentOk(d: Daemon, t: Token) {
    t in d.tokens && t in d.streams && d.streams[t].open ==>
      d.tokens[t] in d.sess && t in d.sess[d.tokens[t]].subs
  }

  ghost predicate Present(d: Daemon) {
    forall t :: PresentOk(d, t)
  }

  // No subscriber with a receiver is lost, and no token or receiver comes up.
  lemma FewerKeep(d: Daemon, d': Daemon)
    requires Present(d)
    requires forall t :: t in d'.tokens ==> t in d.tokens && d'.tokens[t] == d.tokens[t]
    requires forall t :: t in d'.tokens && t in d'.streams && d'.streams[t].open ==> t in d.streams && d.streams[t].open
    requires forall s, t ::
               (t in d'.tokens && d'.tokens[t] == s && t in d'.streams && d'.streams[t].open
                && s in d.sess && t in d.sess[s].subs) ==> s in d'.sess && t in d'.sess[s].subs
    ensures Present(d')
  {
    forall t ensures PresentOk(d', t) { assert PresentOk(d, t); }
  }

  lemma SubscribeKeeps(d: Daemon, s: SessionId, c: ConnId, t: Token)
    requires Present(d) && Fresh(d, t) && s in d.sess
    ensures Present(Subscribe(d, s, c, t))
  {
    var d' := Subscribe(d, s, c, t);
    forall u ensures PresentOk(d', u) { assert PresentOk(d, u); }
  }

  lemma ReleaseKeeps(d: Daemon, t: Token)
    requires Present(d) && CanRelease(d, t)
    ensures Present(Release(d, t))
  {
    FewerKeep(d, Release(d, t));
  }

  lemma StartedKeeps(d: Daemon, k: TaskId, s: SessionId)
    requires Present(d) && CanStart(d, k, s)
    ensures Present(Started(d, k, s))
  {
    FewerKeep(d, Started(d, k, s));
  }

  lemma AcquireKeeps(d: Daemon, k: TaskId, step: AcquireStep)
    requires Present(d) && AcquireEnabled(d, k, step)
    ensures Present(ApplyAcquire(d, k, step))
  {
    var d' := ApplyAcquire(d, k, step);
    match step
    case Join(t) =>
      var s := SharedFor(d, k).value;
      SubscribeKeeps(d, s, d.calls[k].conn, t);
      FewerKeep(Subscribe(d, s, d.calls[k].conn, t), d');
    case Tuned(s, t) =>
      StartedKeeps(d, k, s);
      SubscribeKeeps(Started(d, k, s), s, d.calls[k].conn, t);
      FewerKeep(Subscribe(Started(d, k, s), s, d.calls[k].conn, t), d');
    case TunedNoToken(s) =>
      StartedKeeps(d, k, s);
      FewerKeep(Started(d, k, s), d');
    case GiveBack =>
      ReleaseKeeps(d, d.calls[k].at.token);
      FewerKeep(Release(d, d.calls[k].at.token), d');
    case _ => FewerKeep(d, d');
  }

  lemma ControlKeeps(d: Daemon, step: ControlStep)
    requires Present(d) && ControlEnabled(d, step)
    ensures Present(ApplyControl(d, step))
  {
    var d' := ApplyControl(d, step);
    match step
    case ReleaseAsked(k) =>
      ReleaseKeeps(d, d.calls[k].token);
      FewerKeep(Release(d, d.calls[k].token), d');
    case ReleaseLeft(c, t) =>
      ReleaseKeeps(d, t);
      FewerKeep(Release(d, t), d');
    case _ => FewerKeep(d, d');
  }

  // A subscriber is pruned for want of a receiver.
  lemma OfferKeeps(d: Daemon, s: SessionId, t: Token)
    requires Present(d) && FanOutEnabled(d, s, Offer(t))
    ensures Present(ApplyFanOut(d, s, Offer(t)))
  {
    FewerKeep(d, OfferTo(d, s, t));
  }

  // The streams drained have no token left.
  lemma EndOneKeeps(d: Daemon, s: SessionId, t: Token)
    requires Present(d) && FanOutEnabled(d, s, EndOne(t)) && (t in d.tokens ==> X.TokenOk(d, t)) && X.SubOk(d, s, t)
    ensures Present(ApplyFanOut(d, s, EndOne(t)))
  {
    FewerKeep(d, Farewell(d, s, t));
  }

  lemma FanOutKeeps(d: Daemon, s: SessionId, step: SessionStep)
    requires Present(d) && FanOutEnabled(d, s, step)
    requires step.EndOne? ==> (step.t in d.tokens ==> X.TokenOk(d, step.t)) && X.SubOk(d, s, step.t)
    ensures Present(ApplyFanOut(d, s, step))
  {
    match step
    case Offer(t) => OfferKeeps(d, s, t);
    case EndOne(t) => EndOneKeeps(d, s, t);
    case _ => FewerKeep(d, ApplyFanOut(d, s, step));
  }

  lemma DataKeeps(d: Daemon, t: Token, step: DataStep)
    requires Present(d) && DataEnabled(d, t, step)
    ensures Present(ApplyData(d, t, step))
  {
    if step.ReleaseData? { ReleaseKeeps(d, t); FewerKeep(Release(d, t), ApplyData(d, t, step)); }
    else { FewerKeep(d, ApplyData(d, t, step)); }
  }
}
