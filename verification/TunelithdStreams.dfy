/**
 The streams of tunelithd: whose each token is, and where every byte a fan-out
 offered to a client went.
 */
module TunelithdStreams {
  import opened Options
  import opened Tunelithd

  /* What a history of offers adds up to */

  // The chunks taken, in order.
  function Taken(offers: seq<Offered>): seq<Chunk> {
    if offers == [] then []
    else
      var last := offers[|offers| - 1];
      Taken(offers[..|offers| - 1]) + if last.taken then [last.chunk] else []
  }

  // The bytes of the chunks that found the channel full.
  function Lost(offers: seq<Offered>): nat {
    if offers == [] then 0
    else
      var last := offers[|offers| - 1];
      Lost(offers[..|offers| - 1]) + if last.taken then 0 else |last.chunk|
  }

  function Sum(xs: seq<nat>): nat {
    if xs == [] then 0 else Sum(xs[..|xs| - 1]) + xs[|xs| - 1]
  }

  lemma TakenOneMore(offers: seq<Offered>, o: Offered)
    ensures Taken(offers + [o]) == Taken(offers) + if o.taken then [o.chunk] else []
    ensures Lost(offers + [o]) == Lost(offers) + if o.taken then 0 else |o.chunk|
  {
    assert (offers + [o])[..|offers|] == offers;
  }

  lemma SumFlushed(xs: seq<nat>, sub: Subscriber)
    ensures Sum(xs + Flushed(sub)) == Sum(xs) + sub.dropped
  {
    if sub.dropped > 0 {
      assert (xs + [sub.dropped])[..|xs|] == xs;
    } else {
      assert xs + [] == xs;
    }
  }

  /* The invariant */

  // `parked` waits for a data connection, `served` by one.
  predicate StreamOk(x: Stream, parked: bool, served: bool) {
    && (x.open <==> parked || served)
    && !(parked && served)
    && |x.queue| <= BACKLOG
    && Taken(x.offers) == x.handed + x.queue
    && Sum(x.drops) <= Lost(x.offers)
    && (x.ended.Some? ==> Sum(x.drops) == Lost(x.offers) && !parked)
    && (parked ==> !x.attached && x.handed == [] && x.drops == [])
    && (served ==> x.attached)
  }

  // A client with drops yet to be told of has a full channel until it reads.
  predicate Accounted(x: Stream, sub: Subscriber) {
    && Lost(x.offers) == Sum(x.drops) + sub.dropped
    && (sub.dropped > 0 && x.handed == [] ==> |x.queue| == BACKLOG)
    && x.ended.None?
  }

  predicate TokenOk(d: Daemon, t: Token) {
    && t in d.tokens
    && d.tokens[t] in d.sess && d.sess[d.tokens[t]].phase.Joinable()
    && t in d.streams && d.streams[t].session == d.tokens[t] && d.streams[t].ended.None?
  }

  predicate SubOk(d: Daemon, s: SessionId, t: Token) {
    && s in d.sess && t in d.sess[s].subs
    && t in d.streams && d.streams[t].session == s && d.streams[t].conn == d.sess[s].subs[t].conn
    && (t in d.tokens || d.sess[s].phase.Draining?)
    && Accounted(d.streams[t], d.sess[s].subs[t])
  }

  predicate Served(d: Daemon, t: Token) {
    t in d.data && d.data[t].Streaming?
  }

  ghost predicate Tokens(d: Daemon) {
    && d.unattached <= d.tokens.Keys
    && (forall t :: t in d.tokens ==> TokenOk(d, t))
  }

  ghost predicate Subs(d: Daemon) {
    forall s, t :: s in d.sess && t in d.sess[s].subs ==> SubOk(d, s, t)
  }

  ghost predicate Channels(d: Daemon) {
    && d.data.Keys <= d.streams.Keys
    && (forall t :: t in d.streams ==> StreamOk(d.streams[t], t in d.unattached, Served(d, t)))
  }

  ghost predicate Streams(d: Daemon) {
    Tokens(d) && Subs(d) && Channels(d)
  }

  lemma SameStreamsKeep(d: Daemon, d': Daemon)
    requires Streams(d)
    requires d'.sess == d.sess && d'.tokens == d.tokens && d'.unattached == d.unattached
    requires d'.streams == d.streams && d'.data == d.data
    ensures Streams(d')
  {
    forall s, t | s in d'.sess && t in d'.sess[s].subs ensures SubOk(d', s, t) { assert SubOk(d, s, t); }
    forall t | t in d'.tokens ensures TokenOk(d', t) { assert TokenOk(d, t); }
  }

  /* subscribe and release */

  lemma SubscribeKeepsSubs(d: Daemon, s: SessionId, c: ConnId, t: Token)
    requires Subs(d) && Fresh(d, t) && s in d.sess
    ensures Subs(Subscribe(d, s, c, t))
  {
    var d' := Subscribe(d, s, c, t);
    forall r, u | r in d'.sess && u in d'.sess[r].subs ensures SubOk(d', r, u) {
      assert r in d.sess && u in d.sess[r].subs ==> SubOk(d, r, u);
    }
  }

  lemma SubscribeKeepsTokens(d: Daemon, s: SessionId, c: ConnId, t: Token)
    requires Tokens(d) && Fresh(d, t) && s in d.sess && d.sess[s].phase.Joinable()
    ensures Tokens(Subscribe(d, s, c, t))
  {
    var d' := Subscribe(d, s, c, t);
    forall u | u in d'.tokens ensures TokenOk(d', u) { if u != t { assert TokenOk(d, u); } }
  }

  lemma SubscribeKeepsChannels(d: Daemon, s: SessionId, c: ConnId, t: Token)
    requires Channels(d) && Fresh(d, t) && s in d.sess
    ensures Channels(Subscribe(d, s, c, t))
  {
  }

  lemma SubscribeKeeps(d: Daemon, s: SessionId, c: ConnId, t: Token)
    requires Streams(d) && Fresh(d, t) && s in d.sess && d.sess[s].phase.Joinable()
    ensures Streams(Subscribe(d, s, c, t))
  {
    SubscribeKeepsSubs(d, s, c, t);
    SubscribeKeepsTokens(d, s, c, t);
    SubscribeKeepsChannels(d, s, c, t);
  }

  lemma ReleaseKeepsSubs(d: Daemon, t: Token)
    requires Tokens(d) && Subs(d) && CanRelease(d, t)
    ensures Subs(Release(d, t))
  {
    var d' := Release(d, t);
    forall r, u | r in d'.sess && u in d'.sess[r].subs ensures SubOk(d', r, u) {
      assert SubOk(d, r, u);
      if u == t {
        // Its token still maps to the session it is drained from, so it went.
        assert t in d.tokens ==> TokenOk(d, t);
      }
    }
  }

  lemma ReleaseKeepsTokens(d: Daemon, t: Token)
    requires Tokens(d) && CanRelease(d, t)
    ensures Tokens(Release(d, t))
  {
    forall u | u in Release(d, t).tokens ensures TokenOk(Release(d, t), u) { assert TokenOk(d, u); }
  }

  lemma ReleaseKeepsChannels(d: Daemon, t: Token)
    requires Channels(d) && CanRelease(d, t)
    ensures Channels(Release(d, t))
  {
  }

  lemma ReleaseKeeps(d: Daemon, t: Token)
    requires Streams(d) && CanRelease(d, t)
    ensures Streams(Release(d, t))
  {
    ReleaseKeepsSubs(d, t);
    ReleaseKeepsTokens(d, t);
    ReleaseKeepsChannels(d, t);
  }

  lemma StartedKeeps(d: Daemon, k: TaskId, s: SessionId)
    requires Streams(d) && CanStart(d, k, s)
    ensures Streams(Started(d, k, s))
  {
    var d' := Started(d, k, s);
    forall r, u | r in d'.sess && u in d'.sess[r].subs ensures SubOk(d', r, u) { assert SubOk(d, r, u); }
    forall u | u in d'.tokens ensures TokenOk(d', u) { assert TokenOk(d, u); }
  }

  lemma AcquireKeeps(d: Daemon, k: TaskId, step: AcquireStep)
    requires Streams(d) && AcquireEnabled(d, k, step)
    requires forall s :: s in d.sessions ==> s in d.sess && d.sess[s].phase.Joinable()
    ensures Streams(ApplyAcquire(d, k, step))
  {
    var d' := ApplyAcquire(d, k, step);
    match step
    case Join(t) =>
      var s := SharedFor(d, k).value;
      SubscribeKeeps(d, s, d.calls[k].conn, t);
      SameStreamsKeep(Subscribe(d, s, d.calls[k].conn, t), d');
    case Tuned(s, t) =>
      StartedKeeps(d, k, s);
      SubscribeKeeps(Started(d, k, s), s, d.calls[k].conn, t);
      SameStreamsKeep(Subscribe(Started(d, k, s), s, d.calls[k].conn, t), d');
    case TunedNoToken(s) =>
      StartedKeeps(d, k, s);
      SameStreamsKeep(Started(d, k, s), d');
    case GiveBack =>
      ReleaseKeeps(d, d.calls[k].at.token);
      SameStreamsKeep(Release(d, d.calls[k].at.token), d');
    case _ => SameStreamsKeep(d, d');
  }

  lemma ControlKeeps(d: Daemon, step: ControlStep)
    requires Streams(d) && ControlEnabled(d, step)
    ensures Streams(ApplyControl(d, step))
  {
    var d' := ApplyControl(d, step);
    match step
    case ReleaseAsked(k) =>
      ReleaseKeeps(d, d.calls[k].token);
      SameStreamsKeep(Release(d, d.calls[k].token), d');
    case Unpark(t) => UnparkKeeps(d, t);
    case ReleaseLeft(c, t) =>
      ReleaseKeeps(d, t);
      SameStreamsKeep(Release(d, t), d');
    case _ => SameStreamsKeep(d, d');
  }

  /* The fan-outs */

  // A change of phase that keeps the session joinable, or past the drain.
  lemma PhaseKeeps(d: Daemon, d': Daemon, s: SessionId)
    requires Streams(d) && s in d.sess && s in d'.sess
    requires d'.sess == d.sess[s := d'.sess[s]] && d'.sess[s].subs == d.sess[s].subs
    requires d'.tokens == d.tokens && d'.unattached == d.unattached
    requires d'.streams == d.streams && d'.data == d.data
    requires d.sess[s].phase.Joinable() ==> d'.sess[s].phase.Joinable()
    requires d.sess[s].phase.Draining? ==> d'.sess[s].subs == map[]
    ensures Streams(d')
  {
    forall r, u | r in d'.sess && u in d'.sess[r].subs ensures SubOk(d', r, u) { assert SubOk(d, r, u); }
    forall u | u in d'.tokens ensures TokenOk(d', u) { assert TokenOk(d, u); }
  }

  lemma OfferKeepsStream(x: Stream, sub: Subscriber, chunk: Chunk, parked: bool, served: bool)
    requires StreamOk(x, parked, served) && Accounted(x, sub)
    ensures StreamOk(StreamAfter(x, sub, TrySend(x), chunk), parked, served)
    ensures TrySend(x).Taken? ==> Accounted(StreamAfter(x, sub, TrySend(x), chunk), sub.(dropped := 0))
    ensures TrySend(x).Full? ==>
              Accounted(StreamAfter(x, sub, TrySend(x), chunk), sub.(dropped := sub.dropped + |chunk|))
  {
    TakenOneMore(x.offers, Offered(chunk, TrySend(x).Taken?));
    SumFlushed(x.drops, sub);
    assert (x.handed + x.queue) + [chunk] == x.handed + (x.queue + [chunk]);
    assert Taken(x.offers) + [] == Taken(x.offers);
  }

  // The session `s` changes what it keeps of its subscriber `t`, or drops it.
  lemma SubscriberChangeKeeps(d: Daemon, d': Daemon, s: SessionId, t: Token)
    requires Streams(d) && s in d.sess && t in d.sess[s].subs && s in d'.sess && t in d.streams && t in d'.streams
    requires d'.tokens == d.tokens && d'.unattached == d.unattached && d'.data == d.data
    requires d'.sess == d.sess[s := d'.sess[s]] && d'.streams == d.streams[t := d'.streams[t]]
    requires d'.sess[s].phase.Joinable() == d.sess[s].phase.Joinable()
    requires d'.sess[s].phase.Draining? == d.sess[s].phase.Draining?
    requires forall u :: u in d'.sess[s].subs && u != t ==>
               u in d.sess[s].subs && d'.sess[s].subs[u] == d.sess[s].subs[u]
    requires d'.streams[t].session == d.streams[t].session && d'.streams[t].conn == d.streams[t].conn
    requires t in d'.sess[s].subs ==>
               d'.sess[s].subs[t].conn == d.sess[s].subs[t].conn && Accounted(d'.streams[t], d'.sess[s].subs[t])
    requires StreamOk(d'.streams[t], t in d.unattached, Served(d, t))
    requires t in d.tokens ==> d'.streams[t].ended.None?
    ensures Streams(d')
  {
    assert SubOk(d, s, t);
    forall r, u | r in d'.sess && u in d'.sess[r].subs ensures SubOk(d', r, u) {
      assert r in d.sess && u in d.sess[r].subs;
      assert SubOk(d, r, u);
    }
    forall u | u in d'.tokens ensures TokenOk(d', u) { assert TokenOk(d, u); }
    forall u | u in d'.streams ensures StreamOk(d'.streams[u], u in d'.unattached, Served(d', u)) {
      assert u != t ==> StreamOk(d.streams[u], u in d.unattached, Served(d, u));
    }
  }

  lemma OfferKeeps(d: Daemon, s: SessionId, t: Token)
    requires Streams(d) && FanOutEnabled(d, s, Offer(t))
    ensures Streams(ApplyFanOut(d, s, Offer(t)))
  {
    assert SubOk(d, s, t);
    OfferKeepsStream(d.streams[t], d.sess[s].subs[t], d.sess[s].phase.chunk, t in d.unattached, Served(d, t));
    SubscriberChangeKeeps(d, OfferTo(d, s, t), s, t);
  }

  lemma EndBeginKeeps(d: Daemon, s: SessionId)
    requires Streams(d) && FanOutEnabled(d, s, EndBegin)
    ensures Streams(ApplyFanOut(d, s, EndBegin))
  {
    var d' := ApplyFanOut(d, s, EndBegin);
    forall r, u | r in d'.sess && u in d'.sess[r].subs ensures SubOk(d', r, u) {
      assert SubOk(d, r, u);
      if r != s && u in d.tokens { assert TokenOk(d, u); }
    }
    forall u | u in d'.tokens ensures TokenOk(d', u) { assert TokenOk(d, u); }
    forall u | u in d'.streams
      ensures StreamOk(d'.streams[u], u in d'.unattached, Served(d', u))
    {
      assert StreamOk(d.streams[u], u in d.unattached, Served(d, u));
    }
  }

  lemma EndOneKeepsStream(x: Stream, sub: Subscriber, text: string, served: bool)
    requires StreamOk(x, false, served) && Accounted(x, sub)
    ensures StreamOk(x.(drops := x.drops + Flushed(sub), ended := Some(text)), false, served)
  {
    SumFlushed(x.drops, sub);
  }

  lemma EndOneKeeps(d: Daemon, s: SessionId, t: Token)
    requires Streams(d) && FanOutEnabled(d, s, EndOne(t))
    ensures Streams(ApplyFanOut(d, s, EndOne(t)))
  {
    assert SubOk(d, s, t);
    // The purge took its token off, and its receiver with it.
    assert t in d.tokens ==> TokenOk(d, t);
    EndOneKeepsStream(d.streams[t], d.sess[s].subs[t], d.sess[s].phase.why.Text(), Served(d, t));
    SubscriberChangeKeeps(d, Farewell(d, s, t), s, t);
  }

  lemma FanOutKeeps(d: Daemon, s: SessionId, step: SessionStep)
    requires Streams(d) && FanOutEnabled(d, s, step)
    ensures Streams(ApplyFanOut(d, s, step))
  {
    match step
    case Offer(t) => OfferKeeps(d, s, t);
    case EndBegin => EndBeginKeeps(d, s);
    case EndOne(t) => EndOneKeeps(d, s, t);
    case _ => PhaseKeeps(d, ApplyFanOut(d, s, step), s);
  }

  /* The data connections */

  lemma AttachKeeps(d: Daemon, t: Token)
    requires Streams(d) && DataEnabled(d, t, Attach)
    ensures Streams(ApplyData(d, t, Attach))
  {
    StreamChangeKeeps(d, ApplyData(d, t, Attach), t);
  }

  // The channel of `t` changes, and whether a data connection serves it.
  lemma StreamChangeKeeps(d: Daemon, d': Daemon, t: Token)
    requires Streams(d) && t in d.streams && t in d'.streams
    requires d'.sess == d.sess && d'.tokens == d.tokens
    requires d'.streams == d.streams[t := d'.streams[t]]
    requires d'.unattached <= d.unattached && d.unattached - {t} <= d'.unattached
    requires d'.data.Keys <= d'.streams.Keys
    requires forall u :: u != t ==> (Served(d', u) <==> Served(d, u))
    requires StreamOk(d'.streams[t], t in d'.unattached, Served(d', t))
    requires d'.streams[t].offers == d.streams[t].offers && d'.streams[t].drops == d.streams[t].drops
    requires d'.streams[t].conn == d.streams[t].conn && d'.streams[t].session == d.streams[t].session
    requires d'.streams[t].ended == d.streams[t].ended
    requires d'.streams[t].handed == [] ==> d'.streams[t].queue == d.streams[t].queue && d.streams[t].handed == []
    ensures Streams(d')
  {
    forall r, u | r in d'.sess && u in d'.sess[r].subs ensures SubOk(d', r, u) { assert SubOk(d, r, u); }
    forall u | u in d'.tokens ensures TokenOk(d', u) { assert TokenOk(d, u); }
  }

  lemma UnparkKeeps(d: Daemon, t: Token)
    requires Streams(d) && ControlEnabled(d, Unpark(t))
    ensures Streams(ApplyControl(d, Unpark(t)))
  {
    assert StreamOk(d.streams[t], t in d.unattached, Served(d, t));
    StreamChangeKeeps(d, ApplyControl(d, Unpark(t)), t);
  }

  lemma HandOverKeeps(d: Daemon, t: Token)
    requires Streams(d) && DataEnabled(d, t, HandOver)
    ensures Streams(ApplyData(d, t, HandOver))
  {
    var x := d.streams[t];
    assert (x.handed + [x.queue[0]]) + x.queue[1..] == x.handed + x.queue;
    StreamChangeKeeps(d, ApplyData(d, t, HandOver), t);
  }

  lemma DataKeeps(d: Daemon, t: Token, step: DataStep)
    requires Streams(d) && DataEnabled(d, t, step)
    ensures Streams(ApplyData(d, t, step))
  {
    match step
    case Attach => AttachKeeps(d, t);
    case HandOver => HandOverKeeps(d, t);
    case HangUp => StreamChangeKeeps(d, ApplyData(d, t, HangUp), t);
    case ReleaseData => ReleaseDataKeeps(d, t);
  }

  lemma ReleaseDataKeeps(d: Daemon, t: Token)
    requires Streams(d) && DataEnabled(d, t, ReleaseData)
    ensures Streams(ApplyData(d, t, ReleaseData))
  {
    ReleaseKeeps(d, t);
    var d1 := Release(d, t);
    var d' := ApplyData(d, t, ReleaseData);
    forall r, u | r in d'.sess && u in d'.sess[r].subs ensures SubOk(d', r, u) { assert SubOk(d1, r, u); }
    forall u | u in d'.tokens ensures TokenOk(d', u) { assert TokenOk(d1, u); }
  }
}
