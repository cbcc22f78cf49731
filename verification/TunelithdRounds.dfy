/**
 The rounds of a fan-out: a client is offered every chunk the tuner gives from
 when it joins until its stream ends, once each and in order.
 */
module TunelithdRounds {
  import opened Options
  import opened Tunelithd
  import opened TunelithdStreams

  function Chunks(offers: seq<Offered>): seq<Chunk> {
    if offers == [] then [] else Chunks(offers[..|offers| - 1]) + [offers[|offers| - 1].chunk]
  }

  lemma ChunksOneMore(offers: seq<Offered>, o: Offered)
    ensures Chunks(offers + [o]) == Chunks(offers) + [o.chunk]
  {
    assert (offers + [o])[..|offers|] == offers;
  }

  predicate RoundOk(x: Session) {
    x.phase.Sending? ==> x.took != [] && x.took[|x.took| - 1] == x.phase.chunk
  }

  // How far a subscriber of `x` has been offered what the tuner gave: one
  // short while the round under way has yet to come to it.
  function Reached(x: Session, t: Token): nat {
    if x.phase.Sending? && t in x.phase.rest && x.took != [] then |x.took| - 1 else |x.took|
  }

  predicate OfferedSoFar(x: Session, t: Token, y: Stream) {
    y.since <= Reached(x, t) && Chunks(y.offers) == x.took[y.since..Reached(x, t)]
  }

  predicate StreamRound(d: Daemon, t: Token) {
    && t in d.streams && d.streams[t].session in d.sess
    && var x := d.sess[d.streams[t].session];
       && (t in x.subs ==> OfferedSoFar(x, t, d.streams[t]))
       && (d.streams[t].ended.Some? ==> !x.phase.Joinable() && OfferedSoFar(x, t, d.streams[t]))
  }

  ghost predicate Rounds(d: Daemon) {
    && (forall s :: s in d.sess ==> RoundOk(d.sess[s]))
    && (forall t :: t in d.streams ==> StreamRound(d, t))
  }

  // The session goes on without taking a chunk or offering one.
  predicate SameRound(x: Session, x': Session) {
    && x'.took == x.took && x'.subs.Keys <= x.subs.Keys
    && (x.phase == x'.phase || (!x'.phase.Sending? && (x.phase.Sending? ==> x.phase.rest == {})))
    && (!x.phase.Joinable() ==> !x'.phase.Joinable())
  }

  predicate SameOffers(y: Stream, y': Stream) {
    y'.session == y.session && y'.since == y.since && y'.offers == y.offers && y'.ended == y.ended
  }

  lemma SameRoundsKeep(d: Daemon, d': Daemon)
    requires Rounds(d)
    requires d.sess.Keys <= d'.sess.Keys && d'.streams.Keys == d.streams.Keys
    requires forall s :: s in d'.sess ==>
               if s in d.sess then SameRound(d.sess[s], d'.sess[s]) else !d'.sess[s].phase.Sending?
    requires forall t :: t in d.streams ==> SameOffers(d.streams[t], d'.streams[t])
    ensures Rounds(d')
  {
    forall t | t in d'.streams ensures StreamRound(d', t) { assert StreamRound(d, t); }
    forall s | s in d'.sess ensures RoundOk(d'.sess[s]) { assert s in d.sess ==> RoundOk(d.sess[s]); }
  }

  lemma SubscribeKeeps(d: Daemon, s: SessionId, c: ConnId, t: Token)
    requires Rounds(d) && Fresh(d, t) && s in d.sess && !d.sess[s].phase.Sending?
    ensures Rounds(Subscribe(d, s, c, t))
  {
    var d' := Subscribe(d, s, c, t);
    forall u | u in d'.streams ensures StreamRound(d', u) { assert u != t ==> StreamRound(d, u); }
    forall r | r in d'.sess ensures RoundOk(d'.sess[r]) { assert RoundOk(d.sess[r]); }
  }

  lemma ReleaseKeeps(d: Daemon, t: Token)
    requires Rounds(d) && CanRelease(d, t)
    ensures Rounds(Release(d, t))
  {
    SameRoundsKeep(d, Release(d, t));
  }

  lemma JoinKeeps(d: Daemon, k: TaskId, t: Token)
    requires Rounds(d) && AcquireEnabled(d, k, Join(t))
    ensures Rounds(ApplyAcquire(d, k, Join(t)))
  {
    var d1 := Subscribe(d, SharedFor(d, k).value, d.calls[k].conn, t);
    SubscribeKeeps(d, SharedFor(d, k).value, d.calls[k].conn, t);
    SameRoundsKeep(d1, ApplyAcquire(d, k, Join(t)));
  }

  lemma StartedKeeps(d: Daemon, k: TaskId, s: SessionId)
    requires Rounds(d) && CanStart(d, k, s)
    ensures Rounds(Started(d, k, s))
  {
    SameRoundsKeep(d, Started(d, k, s));
  }

  lemma TunedKeeps(d: Daemon, k: TaskId, s: SessionId, t: Token)
    requires Rounds(d) && AcquireEnabled(d, k, Tuned(s, t))
    ensures Rounds(ApplyAcquire(d, k, Tuned(s, t)))
  {
    StartedKeeps(d, k, s);
    SubscribeKeeps(Started(d, k, s), s, d.calls[k].conn, t);
    SameRoundsKeep(Subscribe(Started(d, k, s), s, d.calls[k].conn, t), ApplyAcquire(d, k, Tuned(s, t)));
  }

  lemma OtherAcquireKeeps(d: Daemon, k: TaskId, step: AcquireStep)
    requires Rounds(d) && AcquireEnabled(d, k, step)
    requires !step.Join? && !step.Tuned? && !step.TunedNoToken? && !step.GiveBack?
    ensures Rounds(ApplyAcquire(d, k, step))
  {
    assert ApplyAcquire(d, k, step).sess == d.sess && ApplyAcquire(d, k, step).streams == d.streams;
    SameRoundsKeep(d, ApplyAcquire(d, k, step));
  }

  lemma TunedNoTokenKeeps(d: Daemon, k: TaskId, s: SessionId)
    requires Rounds(d) && AcquireEnabled(d, k, TunedNoToken(s))
    ensures Rounds(ApplyAcquire(d, k, TunedNoToken(s)))
  {
    StartedKeeps(d, k, s);
    SameRoundsKeep(Started(d, k, s), ApplyAcquire(d, k, TunedNoToken(s)));
  }

  lemma GiveBackKeeps(d: Daemon, k: TaskId)
    requires Rounds(d) && AcquireEnabled(d, k, GiveBack)
    ensures Rounds(ApplyAcquire(d, k, GiveBack))
  {
    ReleaseKeeps(d, d.calls[k].at.token);
    SameRoundsKeep(Release(d, d.calls[k].at.token), ApplyAcquire(d, k, GiveBack));
  }

  lemma AcquireKeeps(d: Daemon, k: TaskId, step: AcquireStep)
    requires Rounds(d) && AcquireEnabled(d, k, step)
    ensures Rounds(ApplyAcquire(d, k, step))
  {
    match step
    case Join(t) => JoinKeeps(d, k, t);
    case Tuned(s, t) => TunedKeeps(d, k, s, t);
    case TunedNoToken(s) => TunedNoTokenKeeps(d, k, s);
    case GiveBack => GiveBackKeeps(d, k);
    case _ => OtherAcquireKeeps(d, k, step);
  }

  lemma ReleasingKeeps(d: Daemon, step: ControlStep, t: Token)
    requires Rounds(d) && ControlEnabled(d, step)
    requires (step.ReleaseAsked? && t == d.calls[step.k].token) || (step.ReleaseLeft? && t == step.t)
    ensures Rounds(ApplyControl(d, step))
  {
    ReleaseKeeps(d, t);
    SameRoundsKeep(Release(d, t), ApplyControl(d, step));
  }

  lemma OtherControlKeeps(d: Daemon, step: ControlStep)
    requires Rounds(d) && ControlEnabled(d, step) && !step.ReleaseAsked? && !step.ReleaseLeft?
    ensures Rounds(ApplyControl(d, step))
  {
    SameRoundsKeep(d, ApplyControl(d, step));
  }

  lemma ControlKeeps(d: Daemon, step: ControlStep)
    requires Rounds(d) && ControlEnabled(d, step)
    ensures Rounds(ApplyControl(d, step))
  {
    match step
    case ReleaseAsked(k) => ReleasingKeeps(d, step, d.calls[k].token);
    case ReleaseLeft(_, t) => ReleasingKeeps(d, step, t);
    case _ => OtherControlKeeps(d, step);
  }

  lemma TakeChunkKeeps(d: Daemon, s: SessionId, chunk: Chunk)
    requires Rounds(d) && FanOutEnabled(d, s, TakeChunk(chunk))
    ensures Rounds(ApplyFanOut(d, s, TakeChunk(chunk)))
  {
    var d' := ApplyFanOut(d, s, TakeChunk(chunk));
    forall t | t in d'.streams ensures StreamRound(d', t) {
      assert StreamRound(d, t);
      var y := d.streams[t];
      if y.session == s && t in d.sess[s].subs {
        assert d'.sess[s].took[y.since..|d.sess[s].took|] == d.sess[s].took[y.since..];
      }
    }
    forall r | r in d'.sess ensures RoundOk(d'.sess[r]) { assert RoundOk(d.sess[r]); }
  }

  // The round has come to `t`, which is kept.
  lemma OfferKeepsRound(x: Session, t: Token, y: Stream, o: Offered)
    requires RoundOk(x) && OfferedSoFar(x, t, y) && x.phase.Sending? && t in x.phase.rest && o.chunk == x.phase.chunk
    ensures Chunks(y.offers + [o]) == x.took[y.since..]
  {
    ChunksOneMore(y.offers, o);
    assert x.took[y.since..] == x.took[y.since..|x.took| - 1] + [x.took[|x.took| - 1]];
  }

  // The session `s` comes to its subscriber `t`, and to no other.
  lemma OneStreamKeeps(d: Daemon, d': Daemon, s: SessionId, t: Token)
    requires Rounds(d) && s in d.sess && s in d'.sess && t in d.streams && t in d'.streams
    requires d'.sess == d.sess[s := d'.sess[s]] && d'.streams == d.streams[t := d'.streams[t]]
    requires d'.sess[s].took == d.sess[s].took && RoundOk(d'.sess[s])
    requires d'.sess[s].phase.Joinable() == d.sess[s].phase.Joinable()
    requires forall u :: u != t ==>
               (u in d'.sess[s].subs ==> u in d.sess[s].subs) && Reached(d'.sess[s], u) == Reached(d.sess[s], u)
    requires StreamRound(d', t)
    ensures Rounds(d')
  {
    forall u | u in d'.streams ensures StreamRound(d', u) { assert u != t ==> StreamRound(d, u); }
    forall r | r in d'.sess ensures RoundOk(d'.sess[r]) { assert RoundOk(d.sess[r]); }
  }

  // The session and the stream, once the round has come to `t`.
  lemma Comes(x: Session, t: Token, y: Stream, x': Session, y': Stream, outcome: Outcome)
    requires RoundOk(x) && x.phase.Sending? && t in x.phase.rest && t in x.subs && OfferedSoFar(x, t, y)
    requires x'.took == x.took && x'.phase == Sending(x.phase.chunk, x.phase.rest - {t})
    requires x'.subs == AfterTrySend(x.subs, t, outcome, x.phase.chunk)
    requires y' == StreamAfter(y, x.subs[t], outcome, x.phase.chunk)
    ensures RoundOk(x') && (t in x'.subs ==> OfferedSoFar(x', t, y'))
    ensures forall u :: u != t ==> (u in x'.subs ==> u in x.subs) && Reached(x', u) == Reached(x, u)
    ensures y'.session == y.session && y'.ended == y.ended
  {
    var o := Offered(x.phase.chunk, outcome.Taken?);
    OfferKeepsRound(x, t, y, o);
    assert x.took[y.since..] == x.took[y.since..|x.took|];
  }

  lemma OfferKeeps(d: Daemon, s: SessionId, t: Token)
    requires Rounds(d) && FanOutEnabled(d, s, Offer(t)) && d.streams[t].session == s && d.streams[t].ended.None?
    ensures Rounds(ApplyFanOut(d, s, Offer(t)))
  {
    var d' := OfferTo(d, s, t);
    assert StreamRound(d, t);
    Comes(d.sess[s], t, d.streams[t], d'.sess[s], d'.streams[t], TrySend(d.streams[t]));
    OneStreamKeeps(d, d', s, t);
  }

  lemma EndOneKeeps(d: Daemon, s: SessionId, t: Token)
    requires Rounds(d) && FanOutEnabled(d, s, EndOne(t)) && d.streams[t].session == s
    ensures Rounds(ApplyFanOut(d, s, EndOne(t)))
  {
    assert StreamRound(d, t);
    OneStreamKeeps(d, Farewell(d, s, t), s, t);
  }

  lemma PhaseKeeps(d: Daemon, s: SessionId, step: SessionStep)
    requires Rounds(d) && FanOutEnabled(d, s, step)
    requires !step.TakeChunk? && !step.Offer? && !step.EndOne? && !step.EndBegin?
    ensures Rounds(ApplyFanOut(d, s, step))
  {
    assert ApplyFanOut(d, s, step).streams == d.streams;
    SameRoundsKeep(d, ApplyFanOut(d, s, step));
  }

  lemma FanOutKeeps(d: Daemon, s: SessionId, step: SessionStep)
    requires Rounds(d) && FanOutEnabled(d, s, step)
    requires step.Offer? || step.EndOne? ==> d.streams[step.t].session == s && d.streams[step.t].ended.None?
    ensures Rounds(ApplyFanOut(d, s, step))
  {
    match step
    case TakeChunk(chunk) => TakeChunkKeeps(d, s, chunk);
    case Offer(t) => OfferKeeps(d, s, t);
    case EndOne(t) => EndOneKeeps(d, s, t);
    case EndBegin => SameRoundsKeep(d, ApplyFanOut(d, s, step));
    case _ => PhaseKeeps(d, s, step);
  }

  lemma DataKeeps(d: Daemon, t: Token, step: DataStep)
    requires Rounds(d) && DataEnabled(d, t, step)
    ensures Rounds(ApplyData(d, t, step))
  {
    if step.ReleaseData? { ReleaseKeeps(d, t); SameRoundsKeep(Release(d, t), ApplyData(d, t, step)); }
    else { SameRoundsKeep(d, ApplyData(d, t, step)); }
  }
}
