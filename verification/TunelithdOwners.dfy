/**
 Who is to release each stream of tunelithd: until its token is gone, the
 connection it was acquired through has it owned, left to release, or in the
 hands of one of its tasks.
 */
module TunelithdOwners {
  import opened Options
  import opened Tunelithd

  predicate Carried(d: Daemon, k: TaskId, c: ConnId, t: Token) {
    k in d.calls && d.calls[k].conn == c && d.calls[k].Carries() == Some(t)
  }

  predicate Kept(d: Daemon, c: ConnId, t: Token) {
    && c in d.conns
    && ((d.conns[c].owned.Some? && t in d.conns[c].owned.value) || t in d.conns[c].todo)
  }

  ghost predicate Answerable(d: Daemon, c: ConnId, t: Token) {
    Kept(d, c, t) || exists k :: Carried(d, k, c, t)
  }

  ghost predicate OwnedOk(d: Daemon, t: Token) {
    t in d.streams && Answerable(d, d.streams[t].conn, t)
  }

  ghost predicate Owners(d: Daemon) {
    forall t :: t in d.tokens ==> OwnedOk(d, t)
  }

  // Every token left keeps who is to release it.
  lemma StillOwned(d: Daemon, d': Daemon)
    requires Owners(d) && d'.tokens.Keys <= d.tokens.Keys && d.streams.Keys <= d'.streams.Keys
    requires forall t :: t in d.streams ==> d'.streams[t].conn == d.streams[t].conn
    requires forall c, t :: t in d'.tokens && Kept(d, c, t) ==> Answerable(d', c, t)
    requires forall k, c, t :: t in d'.tokens && Carried(d, k, c, t) ==> Answerable(d', c, t)
    ensures Owners(d')
  {
    forall t | t in d'.tokens ensures OwnedOk(d', t) {
      assert OwnedOk(d, t);
      var c := d.streams[t].conn;
      if !Kept(d, c, t) { var k :| Carried(d, k, c, t); }
    }
  }

  // Neither the tokens nor who is to release them change.
  lemma SameOwnersKeep(d: Daemon, d': Daemon)
    requires Owners(d) && d'.tokens.Keys <= d.tokens.Keys && d'.calls == d.calls && d.streams.Keys <= d'.streams.Keys
    requires forall t :: t in d.streams ==> d'.streams[t].conn == d.streams[t].conn
    requires d.conns.Keys <= d'.conns.Keys
    requires forall c :: c in d.conns ==> d'.conns[c].owned == d.conns[c].owned && d'.conns[c].todo == d.conns[c].todo
    ensures Owners(d')
  {
    forall k, c, t | t in d'.tokens && Carried(d, k, c, t) ensures Answerable(d', c, t) { assert Carried(d', k, c, t); }
    StillOwned(d, d');
  }

  // A task that carries no stream goes on to another thing.
  lemma CallKeeps(d: Daemon, d': Daemon, k: TaskId)
    requires Owners(d) && d'.tokens.Keys <= d.tokens.Keys && d'.conns == d.conns && d.streams.Keys <= d'.streams.Keys
    requires forall t :: t in d.streams ==> d'.streams[t].conn == d.streams[t].conn
    requires forall j :: j in d.calls && j != k ==> j in d'.calls && d'.calls[j] == d.calls[j]
    requires k in d.calls && d.calls[k].Carries().Some? ==>
               || d.calls[k].Carries().value !in d'.tokens
               || (k in d'.calls && d'.calls[k].conn == d.calls[k].conn
                   && d'.calls[k].Carries() == d.calls[k].Carries())
    ensures Owners(d')
  {
    forall j, c, t | t in d'.tokens && Carried(d, j, c, t) ensures Answerable(d', c, t) { assert Carried(d', j, c, t); }
    StillOwned(d, d');
  }

  /* The tasks */

  // The acquire `k` has subscribed `t`.
  lemma SubscribedKeeps(d: Daemon, d': Daemon, k: TaskId, t: Token)
    requires Owners(d) && InAcquire(d, k) && d.calls[k].Carries().None? && t !in d.streams
    requires d'.tokens.Keys == d.tokens.Keys + {t} && d'.streams.Keys == d.streams.Keys + {t}
    requires forall u :: u in d.streams ==> d'.streams[u].conn == d.streams[u].conn
    requires d'.streams[t].conn == d.calls[k].conn && d'.conns == d.conns
    requires d'.calls == d.calls[k := d.calls[k].(at := Subscribed(t))]
    ensures Owners(d')
  {
    forall u | u in d'.tokens ensures OwnedOk(d', u) {
      if u == t {
        assert Carried(d', k, d.calls[k].conn, t);
      } else {
        assert OwnedOk(d, u);
        var c := d.streams[u].conn;
        if !Kept(d, c, u) {
          var j :| Carried(d, j, c, u);
          assert Carried(d', j, c, u);
        }
      }
    }
  }

  lemma KeepKeeps(d: Daemon, k: TaskId)
    requires Owners(d) && AcquireEnabled(d, k, Keep)
    ensures Owners(ApplyAcquire(d, k, Keep))
  {
    var d' := ApplyAcquire(d, k, Keep);
    forall j, c, t | t in d'.tokens && Carried(d, j, c, t) ensures Answerable(d', c, t) {
      if j == k { assert Kept(d', c, t); } else { assert Carried(d', j, c, t); }
    }
    forall c, t | t in d'.tokens && Kept(d, c, t) ensures Answerable(d', c, t) { assert Kept(d', c, t); }
    StillOwned(d, d');
  }

  lemma JoinKeeps(d: Daemon, k: TaskId, t: Token)
    requires Owners(d) && AcquireEnabled(d, k, Join(t))
    ensures Owners(ApplyAcquire(d, k, Join(t)))
  {
    SubscribedKeeps(d, ApplyAcquire(d, k, Join(t)), k, t);
  }

  lemma TunedKeeps(d: Daemon, k: TaskId, s: SessionId, t: Token)
    requires Owners(d) && AcquireEnabled(d, k, Tuned(s, t))
    ensures Owners(ApplyAcquire(d, k, Tuned(s, t)))
  {
    SubscribedKeeps(d, ApplyAcquire(d, k, Tuned(s, t)), k, t);
  }

  lemma TunedNoTokenKeeps(d: Daemon, k: TaskId, s: SessionId)
    requires Owners(d) && AcquireEnabled(d, k, TunedNoToken(s))
    ensures Owners(ApplyAcquire(d, k, TunedNoToken(s)))
  {
    CallKeeps(d, ApplyAcquire(d, k, TunedNoToken(s)), k);
  }

  lemma GiveBackKeeps(d: Daemon, k: TaskId)
    requires Owners(d) && AcquireEnabled(d, k, GiveBack)
    ensures Owners(ApplyAcquire(d, k, GiveBack))
  {
    CallKeeps(d, ApplyAcquire(d, k, GiveBack), k);
  }

  lemma OtherAcquireKeeps(d: Daemon, k: TaskId, step: AcquireStep)
    requires Owners(d) && AcquireEnabled(d, k, step)
    requires !step.Join? && !step.Tuned? && !step.GiveBack? && !step.Keep? && !step.TunedNoToken?
    ensures Owners(ApplyAcquire(d, k, step))
  {
    CallKeeps(d, ApplyAcquire(d, k, step), k);
  }

  lemma AcquireKeeps(d: Daemon, k: TaskId, step: AcquireStep)
    requires Owners(d) && AcquireEnabled(d, k, step)
    ensures Owners(ApplyAcquire(d, k, step))
  {
    match step
    case Join(t) => JoinKeeps(d, k, t);
    case Tuned(s, t) => TunedKeeps(d, k, s, t);
    case Keep => KeepKeeps(d, k);
    case TunedNoToken(s) => TunedNoTokenKeeps(d, k, s);
    case GiveBack => GiveBackKeeps(d, k);
    case _ => OtherAcquireKeeps(d, k, step);
  }

  lemma DisownKeeps(d: Daemon, k: TaskId)
    requires Owners(d) && ControlEnabled(d, Disown(k))
    ensures Owners(ApplyControl(d, Disown(k)))
  {
    var d' := ApplyControl(d, Disown(k));
    var call := d.calls[k];
    forall j, c, t | t in d'.tokens && Carried(d, j, c, t) ensures Answerable(d', c, t) { assert Carried(d', j, c, t); }
    forall c, t | t in d'.tokens && Kept(d, c, t) ensures Answerable(d', c, t) {
      if c == call.conn && t == call.token { assert Carried(d', k, c, t); } else { assert Kept(d', c, t); }
    }
    StillOwned(d, d');
  }

  lemma LeaveKeeps(d: Daemon, c: ConnId)
    requires Owners(d) && ControlEnabled(d, Leave(c))
    requires d.conns[c].todo == {}
    ensures Owners(ApplyControl(d, Leave(c)))
  {
    var d' := ApplyControl(d, Leave(c));
    forall j, b, t | t in d'.tokens && Carried(d, j, b, t) ensures Answerable(d', b, t) { assert Carried(d', j, b, t); }
    forall b, t | t in d'.tokens && Kept(d, b, t) ensures Answerable(d', b, t) { assert Kept(d', b, t); }
    StillOwned(d, d');
  }

  lemma ReleaseLeftKeeps(d: Daemon, c: ConnId, t: Token)
    requires Owners(d) && ControlEnabled(d, ReleaseLeft(c, t))
    ensures Owners(ApplyControl(d, ReleaseLeft(c, t)))
  {
    var d' := ApplyControl(d, ReleaseLeft(c, t));
    forall j, b, u | u in d'.tokens && Carried(d, j, b, u) ensures Answerable(d', b, u) { assert Carried(d', j, b, u); }
    forall b, u | u in d'.tokens && Kept(d, b, u) ensures Answerable(d', b, u) { assert Kept(d', b, u); }
    StillOwned(d, d');
  }

  lemma ControlKeeps(d: Daemon, step: ControlStep)
    requires Owners(d) && ControlEnabled(d, step)
    requires step.Leave? ==> d.conns[step.c].todo == {}
    ensures Owners(ApplyControl(d, step))
  {
    match step
    case Disown(k) => DisownKeeps(d, k);
    case Leave(c) => LeaveKeeps(d, c);
    case ReleaseLeft(c, t) => ReleaseLeftKeeps(d, c, t);
    case _ => PlainControlKeeps(d, step);
  }

  lemma PlainControlKeeps(d: Daemon, step: ControlStep)
    requires Owners(d) && ControlEnabled(d, step) && !(step.Disown? || step.Leave? || step.ReleaseLeft?)
    ensures Owners(ApplyControl(d, step))
  {
    match step
    case Connect(_) => SameOwnersKeep(d, ApplyControl(d, step));
    case Unpark(_) => SameOwnersKeep(d, ApplyControl(d, step));
    case Deliver(_) => SameOwnersKeep(d, ApplyControl(d, step));
    case Answer(k) =>
      SameOwnersKeep(d, d.(conns := ApplyControl(d, step).conns));
      CallKeeps(d.(conns := ApplyControl(d, step).conns), ApplyControl(d, step), k);
    case RequestAcquire(k, _, _, _, _) => CallKeeps(d, ApplyControl(d, step), k);
    case RequestRelease(k, _, _, _) => CallKeeps(d, ApplyControl(d, step), k);
    case ReleaseAsked(k) => CallKeeps(d, ApplyControl(d, step), k);
  }

  lemma FanOutKeeps(d: Daemon, s: SessionId, step: SessionStep)
    requires Owners(d) && FanOutEnabled(d, s, step)
    ensures Owners(ApplyFanOut(d, s, step))
  {
    SameOwnersKeep(d, ApplyFanOut(d, s, step));
  }

  lemma DataKeeps(d: Daemon, t: Token, step: DataStep)
    requires Owners(d) && DataEnabled(d, t, step)
    ensures Owners(ApplyData(d, t, step))
  {
    SameOwnersKeep(d, ApplyData(d, t, step));
  }

  /* The converse: what a connection has to release is its own */

  predicate OwnKept(d: Daemon, c: ConnId, t: Token) {
    Kept(d, c, t) ==> t in d.streams && d.streams[t].conn == c
  }

  // A task gives a stream back only with its client gone.
  predicate LateGivingBack(d: Daemon, k: TaskId) {
    InAcquire(d, k) && d.calls[k].at.GivingBack? ==>
      d.calls[k].conn in d.conns && d.conns[d.calls[k].conn].owned.None?
  }

  ghost predicate OwnOnly(d: Daemon) {
    && (forall c, t :: OwnKept(d, c, t))
    && (forall k :: LateGivingBack(d, k))
  }

  // Nothing is kept anew, and no client gone comes back.
  lemma OwnOnlyKeeps(d: Daemon, d': Daemon)
    requires OwnOnly(d) && d.conns.Keys <= d'.conns.Keys && d.streams.Keys <= d'.streams.Keys
    requires forall t :: t in d.streams ==> d'.streams[t].conn == d.streams[t].conn
    requires forall c, t :: Kept(d', c, t) ==> Kept(d, c, t)
    requires forall c :: c in d.conns && d.conns[c].owned.None? ==> d'.conns[c].owned.None?
    requires forall k :: InAcquire(d', k) && d'.calls[k].at.GivingBack? ==> k in d.calls && d'.calls[k] == d.calls[k]
    ensures OwnOnly(d')
  {
    forall c, t ensures OwnKept(d', c, t) { assert OwnKept(d, c, t); }
    forall k ensures LateGivingBack(d', k) { assert LateGivingBack(d, k); }
  }

  lemma KeepingOwn(d: Daemon, k: TaskId, step: AcquireStep)
    requires OwnOnly(d) && AcquireEnabled(d, k, step) && (step.Keep? || step.KeepTooLate?)
    requires d.calls[k].at.token in d.streams && d.streams[d.calls[k].at.token].conn == d.calls[k].conn
    ensures OwnOnly(ApplyAcquire(d, k, step))
  {
    var d' := ApplyAcquire(d, k, step);
    forall c, t ensures OwnKept(d', c, t) { assert OwnKept(d, c, t); }
    forall j ensures LateGivingBack(d', j) { assert LateGivingBack(d, j); }
  }

  lemma SubscribingOwn(d: Daemon, k: TaskId, step: AcquireStep)
    requires OwnOnly(d) && AcquireEnabled(d, k, step) && (step.Join? || step.Tuned?)
    ensures OwnOnly(ApplyAcquire(d, k, step))
  {
    OwnOnlyKeeps(d, ApplyAcquire(d, k, step));
  }

  lemma AcquireOwn(d: Daemon, k: TaskId, step: AcquireStep)
    requires OwnOnly(d) && AcquireEnabled(d, k, step)
    requires step.Keep? || step.KeepTooLate? ==>
               d.calls[k].at.token in d.streams && d.streams[d.calls[k].at.token].conn == d.calls[k].conn
    ensures OwnOnly(ApplyAcquire(d, k, step))
  {
    match step
    case Keep => KeepingOwn(d, k, step);
    case KeepTooLate => KeepingOwn(d, k, step);
    case Join(_) => SubscribingOwn(d, k, step);
    case Tuned(_, _) => SubscribingOwn(d, k, step);
    case GiveBack => OwnOnlyKeeps(d, ApplyAcquire(d, k, step));
    case _ => OwnOnlyKeeps(d, ApplyAcquire(d, k, step));
  }

  lemma ControlOwn(d: Daemon, step: ControlStep)
    requires OwnOnly(d) && ControlEnabled(d, step)
    ensures OwnOnly(ApplyControl(d, step))
  {
    OwnOnlyKeeps(d, ApplyControl(d, step));
  }

  lemma FanOutOwn(d: Daemon, s: SessionId, step: SessionStep)
    requires OwnOnly(d) && FanOutEnabled(d, s, step)
    ensures OwnOnly(ApplyFanOut(d, s, step))
  {
    OwnOnlyKeeps(d, ApplyFanOut(d, s, step));
  }

  lemma DataOwn(d: Daemon, t: Token, step: DataStep)
    requires OwnOnly(d) && DataEnabled(d, t, step)
    ensures OwnOnly(ApplyData(d, t, step))
  {
    OwnOnlyKeeps(d, ApplyData(d, t, step));
  }
}
