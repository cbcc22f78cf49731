/**
 The critical sections of tunelithd, each as the method that runs it. `View` is
 the state of the transition system, and what a method does to it is the step,
 or the steps, it takes there; so all that holds of reachable states holds
 after every method.
 */
module TunelithdDaemon {
  import opened Options
  import opened Tunelithd
  import Runs = TunelithdRuns
  import X = TunelithdStreams

  // The steps from `d` lead to `d'`.
  ghost predicate Leads(d: Daemon, steps: seq<Step>, d': Daemon) {
    After(d, steps) == Some(d')
  }

  lemma LeadsFirst(d: Daemon, step: Step)
    requires Enabled(d, step)
    ensures Leads(d, [step], Apply(d, step))
  {
    assert After(d, []) == Some(d) && [] + [step] == [step];
    Runs.AfterOneMore(d, [], step);
  }

  lemma LeadsOn(d: Daemon, steps: seq<Step>, d': Daemon, step: Step)
    requires Leads(d, steps, d') && Enabled(d', step)
    ensures Leads(d, steps + [step], Apply(d', step))
  {
    Runs.AfterOneMore(d, steps, step);
  }

  lemma {:induction false} ReachableOn(d: Daemon, steps: seq<Step>, d': Daemon)
    requires Reachable(d) && Leads(d, steps, d')
    ensures Reachable(d')
    decreases |steps|
  {
    if steps == [] {
    } else {
      Runs.ReachableNext(d, steps[0]);
      ReachableOn(Apply(d, steps[0]), steps[1..], d');
    }
  }

  lemma {:induction false} SharedFrom(d: Daemon, sessions: seq<SessionId>, i: nat, params: Params,
                                      wanted: Option<TunerId>)
    requires i <= |sessions| && forall j :: 0 <= j < i ==> !Shares(d, sessions[j], params, wanted)
    ensures Shared(d, sessions, params, wanted) == Shared(d, sessions[i..], params, wanted)
  {
    if i == 0 {
    } else {
      SharedFrom(d, sessions[1..], i - 1, params, wanted);
      assert sessions[1..][i - 1..] == sessions[i..];
    }
  }

  // The step an acquire that looks for a session takes, and one that starts one.
  function LookStep(found: bool, token: Option<Token>): AcquireStep {
    if !found then NothingShared else if token.None? then NoToken else Join(token.value)
  }

  function StartStep(s: SessionId, token: Option<Token>): AcquireStep {
    if token.None? then TunedNoToken(s) else Tuned(s, token.value)
  }

  ghost predicate IsFirstFree(candidates: seq<TunerId>, busy: set<TunerId>, x: TunerId) {
    exists i :: 0 <= i < |candidates| && candidates[i] == x && forall j :: 0 <= j < i ==> candidates[j] in busy
  }

  // The client of `c` has gone, and all its streams but `todo` are released.
  ghost predicate LeftSoFar(d: Daemon, d': Daemon, c: ConnId, todo: set<Token>) {
    && c in d.conns && d.conns[c].owned.Some? && todo <= d.conns[c].owned.value
    && c in d'.conns && d'.conns[c].owned.None? && d'.conns[c].todo == todo
    && d'.tokens.Keys == d.tokens.Keys - (d.conns[c].owned.value - todo)
    && d'.unattached == d.unattached - (d.conns[c].owned.value - todo)
    && (forall t :: t in todo ==> CanRelease(d', t))
  }

  lemma LeaveBegins(d: Daemon, c: ConnId)
    requires Reachable(d) && ControlEnabled(d, Leave(c))
    requires forall t :: t in d.conns[c].owned.value ==> CanRelease(d, t)
    ensures var d' := ApplyControl(d, Leave(c));
            LeftSoFar(d, d', c, d.conns[c].owned.value) && Reachable(d')
  {
    Runs.ReachableNext(d, Control(Leave(c)));
  }

  lemma LeaveGoesOn(d: Daemon, d': Daemon, c: ConnId, todo: set<Token>, t: Token)
    requires LeftSoFar(d, d', c, todo) && t in todo
    ensures ControlEnabled(d', ReleaseLeft(c, t))
    ensures LeftSoFar(d, ApplyControl(d', ReleaseLeft(c, t)), c, todo - {t})
  {
    forall u | u in todo && u != t ensures CanRelease(ApplyControl(d', ReleaseLeft(c, t)), u) {
      assert CanRelease(d', u);
    }
  }

  lemma SendsNothing(conns: map<ConnId, Client>, c: ConnId)
    ensures Send(conns, c, []) == conns
  {
    assert c in conns ==> conns[c].sent + [] == conns[c].sent;
  }

  lemma SubsHaveStreams(d: Daemon, s: SessionId)
    requires X.Streams(d) && s in d.sess
    ensures d.sess[s].subs.Keys <= d.streams.Keys
  {
    forall t | t in d.sess[s].subs ensures t in d.streams { assert X.SubOk(d, s, t); }
  }

  lemma ParkedHasStream(d: Daemon, t: Token)
    requires Reachable(d) && t in d.unattached
    ensures t in d.streams
  {
    Runs.ReachableInv(d);
    assert X.TokenOk(d, t);
  }

  lemma ClosingIsBusy(d: Daemon)
    requires Reachable(d)
    ensures d.closing <= d.busy
  {
    Runs.ReachableInv(d);
  }

  // What becomes of a subscriber when its session gets `chunk`: it is pruned if
  // its receiver has gone, has the chunk and is told what it lost before if
  // there is room, and loses the chunk otherwise.
  predicate OfferedIn(d: Daemon, d': Daemon, s: SessionId, t: Token, chunk: Chunk)
    requires s in d.sess && t in d.sess[s].subs && s in d'.sess
  {
    && t in d.streams && t in d'.streams
    && var was, now := d.streams[t], d'.streams[t];
       var lost := d.sess[s].subs[t].dropped;
       if !was.open then t !in d'.sess[s].subs && now == was
       else
         && t in d'.sess[s].subs
         && if |was.queue| < 256
            then now.queue == was.queue + [chunk] && d'.sess[s].subs[t].dropped == 0
                 && now.drops == was.drops + (if lost > 0 then [lost] else [])
            else now.queue == was.queue && now.drops == was.drops
                 && d'.sess[s].subs[t].dropped == lost + |chunk|
  }

  // A round that has yet to come to `rest`.
  predicate RoundSoFar(d: Daemon, d': Daemon, s: SessionId, chunk: Chunk, rest: set<Token>) {
    && s in d.sess && s in d'.sess && d'.tokens == d.tokens && d'.sessions == d.sessions
    && d'.sess[s].phase == Sending(chunk, rest) && d'.sess[s].took == d.sess[s].took + [chunk]
    && rest <= d.sess[s].subs.Keys && d'.sess[s].subs.Keys <= d.sess[s].subs.Keys
    && (forall t :: t in rest ==> Unoffered(d, d', s, t))
    && (forall t :: t in d.sess[s].subs && t !in rest ==> OfferedIn(d, d', s, t, chunk))
  }

  predicate Unoffered(d: Daemon, d': Daemon, s: SessionId, t: Token) {
    && s in d.sess && s in d'.sess && t in d.sess[s].subs && t in d'.sess[s].subs
    && d'.sess[s].subs[t] == d.sess[s].subs[t]
    && t in d.streams && t in d'.streams && d'.streams[t] == d.streams[t]
  }

  lemma RoundBegins(d: Daemon, s: SessionId, chunk: Chunk)
    requires Reachable(d) && FanOutEnabled(d, s, TakeChunk(chunk))
    ensures RoundSoFar(d, ApplyFanOut(d, s, TakeChunk(chunk)), s, chunk, d.sess[s].subs.Keys)
  {
    Runs.ReachableInv(d);
    SubsHaveStreams(d, s);
  }

  lemma RoundGoesOn(d: Daemon, d': Daemon, s: SessionId, chunk: Chunk, rest: set<Token>, t: Token)
    requires RoundSoFar(d, d', s, chunk, rest) && t in rest
    ensures FanOutEnabled(d', s, Offer(t)) && RoundSoFar(d, OfferTo(d', s, t), s, chunk, rest - {t})
  {
    assert Unoffered(d, d', s, t);
    var d2 := OfferTo(d', s, t);
    forall u | u in rest - {t} ensures Unoffered(d, d2, s, u) { assert Unoffered(d, d', s, u); }
    forall u | u in d.sess[s].subs && u !in rest - {t} ensures OfferedIn(d, d2, s, u, chunk) {
      if u != t { assert OfferedIn(d, d', s, u, chunk); }
    }
  }

  // A drain that has yet to come to the subscribers left.
  predicate DrainSoFar(d: Daemon, d': Daemon, s: SessionId) {
    && s in d.sess && d.sess[s].phase.Ending? && s in d'.sess
    && d'.sess[s].phase == Draining(d.sess[s].phase.why) && d'.lock == Some(s)
    && s !in d'.sessions && d'.sess[s].tuner in d'.closing
    && (forall t :: t in d'.tokens ==> d'.tokens[t] != s)
    && (forall t :: t in d.sess[s].subs ==> t in d'.streams)
    && d'.sess[s].subs.Keys <= d.sess[s].subs.Keys
    && (forall t :: t in d.sess[s].subs && t !in d'.sess[s].subs ==>
                      EndedSo(d'.streams[t], d.sess[s].phase.why))
  }

  // With the error the source gave, if it gave one.
  predicate EndedSo(stream: Stream, why: Why) {
    match why
    case SourceEnded(Some(error)) => stream.ended == Some(error)
    case _ => stream.ended == Some("")
  }

  lemma DrainBegins(d: Daemon, s: SessionId)
    requires Reachable(d) && FanOutEnabled(d, s, EndBegin)
    ensures DrainSoFar(d, Purge(d, s), s)
  {
    Runs.ReachableInv(d);
    SubsHaveStreams(d, s);
  }

  lemma DrainGoesOn(d: Daemon, d': Daemon, s: SessionId, t: Token)
    requires DrainSoFar(d, d', s) && t in d'.sess[s].subs
    ensures FanOutEnabled(d', s, EndOne(t)) && DrainSoFar(d, Farewell(d', s, t), s)
  {
  }

  class Tunelith {
    var busy: set<TunerId>
    var closing: set<TunerId>
    var slots: set<TunerId>
    var sessions: seq<SessionId>
    var sess: map<SessionId, Session>
    var tokens: map<Token, SessionId>
    var unattached: set<Token>
    var lock: Option<SessionId>
    var calls: map<TaskId, Call>
    var conns: map<ConnId, Client>
    var streams: map<Token, Stream>
    var data: map<Token, DataPhase>

    ghost function View(): Daemon
      reads this
    {
      Daemon(busy, closing, slots, sessions, sess, tokens, unattached, lock, calls, conns, streams, data)
    }

    ghost predicate Valid()
      reads this
    {
      Reachable(View())
    }

    constructor ()
      ensures Valid() && View() == INITIAL
    {
      busy, closing, slots, sessions, sess := {}, {}, {}, [], map[];
      tokens, unattached, lock, calls, conns := map[], {}, None, map[], map[];
      streams, data := map[], map[];
      new;
      assert After(INITIAL, []) == Some(INITIAL);
    }

    // subscribe: adds a client to the session `s`, under the token `t`.
    method Subscribe(s: SessionId, c: ConnId, t: Token)
      requires s in sess && Fresh(View(), t)
      modifies this
      ensures View() == Tunelithd.Subscribe(old(View()), s, c, t)
    {
      sess := sess[s := sess[s].(subs := sess[s].subs[t := Subscriber(c, 0)], joined := true)];
      tokens := tokens[t := s];
      unattached := unattached + {t};
      streams := streams[t := Stream(c, s, [], true, |sess[s].took|, [], [], [], None, false)];
    }

    // acquire, up to whether there is a session to share: the client joins it, if
    // there is a token to be had. What it waits for is free.
    method Look(k: TaskId, token: Option<Token>) returns (found: bool)
      requires Valid() && CanLook(View(), k) && (token.Some? ==> Fresh(View(), token.value))
      requires SharedFor(View(), k).Some? ==> SubscribersFree(View(), SharedFor(View(), k).value)
      modifies this
      ensures Valid()
      ensures var call := old(calls)[k];
              found <==> exists s :: s in old(sessions) && s in old(sess) && old(sess)[s].params == call.params
                                     && (call.wanted.Some? ==> old(sess)[s].tuner == call.wanted.value)
      ensures AcquireEnabled(old(View()), k, LookStep(found, token))
      ensures View() == ApplyAcquire(old(View()), k, LookStep(found, token))
    {
      ghost var d := View();
      var call := calls[k];
      var i := 0;
      while i < |sessions| && !(sessions[i] in sess && sess[sessions[i]].params == call.params
                                && Wanted(call.wanted, sess[sessions[i]].tuner))
        invariant i <= |sessions|
        invariant forall j :: 0 <= j < i ==> !Shares(d, sessions[j], call.params, call.wanted)
      {
        i := i + 1;
      }
      SharedFrom(d, sessions, i, call.params, call.wanted);
      found := i < |sessions|;
      assert !found ==> forall s :: s in sessions ==> !Shares(d, s, call.params, call.wanted);
      if !found {
        calls := calls[k := call.(at := Choosing)];
      } else if token.None? {
        calls := calls[k := Answering(call.conn, Failed(call.id))];
      } else {
        Subscribe(sessions[i], call.conn, token.value);
        calls := calls[k := call.(at := Subscribed(token.value))];
      }
      Runs.ReachableNext(d, Acquiring(k, LookStep(found, token)));
    }

    // reserve on each candidate in turn, waiting for none: takes the first
    // that is neither held nor being closed.
    method Reserve(k: TaskId, candidates: seq<TunerId>) returns (taken: Option<TunerId>)
      requires Valid() && InAcquire(View(), k) && calls[k].at.Choosing? && lock.None?
      requires forall x :: x in candidates ==> Wanted(calls[k].wanted, x)
      modifies this
      ensures Valid()
      ensures match taken
              case None => View() == old(View()) && forall x :: x in candidates ==> x in busy
              case Some(x) =>
                && IsFirstFree(candidates, old(busy), x) && AcquireEnabled(old(View()), k, Tunelithd.Reserve(x))
                && View() == ApplyAcquire(old(View()), k, Tunelithd.Reserve(x))
    {
      ghost var d := View();
      ClosingIsBusy(d);
      taken := None;
      var i := 0;
      while i < |candidates| && taken.None?
        invariant i <= |candidates|
        invariant taken.None? ==> View() == d && forall j :: 0 <= j < i ==> candidates[j] in busy
        invariant taken.Some? ==>
                    && IsFirstFree(candidates, d.busy, taken.value)
                    && AcquireEnabled(d, k, Tunelithd.Reserve(taken.value))
                    && View() == ApplyAcquire(d, k, Tunelithd.Reserve(taken.value))
      {
        var x := candidates[i];
        if x !in closing && x !in busy {
          busy := busy + {x};
          calls := calls[k := calls[k].(at := Reserved(x))];
          taken := Some(x);
          assert candidates[i] == x;
        }
        i := i + 1;
      }
      if taken.Some? { Runs.ReachableNext(d, Acquiring(k, Tunelithd.Reserve(taken.value))); }
    }

    // acquire, once the tuner is tuned: the session runs, with its first client
    // if there is a token to be had.
    method Start(k: TaskId, s: SessionId, token: Option<Token>)
      requires Valid() && AcquireEnabled(View(), k, StartStep(s, token))
      modifies this
      ensures Valid() && View() == ApplyAcquire(old(View()), k, StartStep(s, token))
    {
      ghost var d := View();
      var call := calls[k];
      Push(k, s);
      if token.None? {
        calls := calls[k := Answering(call.conn, Failed(call.id))];
      } else {
        Subscribe(s, call.conn, token.value);
        calls := calls[k := call.(at := Subscribed(token.value))];
      }
      Runs.ReachableNext(d, Acquiring(k, StartStep(s, token)));
    }

    method Push(k: TaskId, s: SessionId)
      requires CanStart(View(), k, s)
      modifies this
      ensures View() == Started(old(View()), k, s)
    {
      sess := sess[s := Session(calls[k].params, calls[k].at.tuner, Running, map[], false, false, [])];
      sessions := sessions + [s];
    }

    // handle, once acquire has a stream: the client keeps it, or has gone.
    method Keep(k: TaskId) returns (kept: bool)
      requires Valid() && CanKeep(View(), k)
      modifies this
      ensures Valid()
      ensures kept <==> old(conns)[old(calls)[k].conn].owned.Some?
      ensures AcquireEnabled(old(View()), k, if kept then Tunelithd.Keep else KeepTooLate)
      ensures View() == ApplyAcquire(old(View()), k, if kept then Tunelithd.Keep else KeepTooLate)
    {
      ghost var d := View();
      var call := calls[k];
      var client := conns[call.conn];
      kept := client.owned.Some?;
      if kept {
        conns := conns[call.conn := client.(owned := Some(client.owned.value + {call.at.token}))];
        calls := calls[k := Answering(call.conn, Acquired(call.id, call.at.token))];
      } else {
        calls := calls[k := call.(at := GivingBack(call.at.token))];
      }
      Runs.ReachableNext(d, Acquiring(k, if kept then Tunelithd.Keep else KeepTooLate));
    }

    // The first half of release: the receiver goes before the subscribers are
    // had, so that a fan-out in its round may find it gone.
    method DropReceiver(t: Token)
      modifies this
      ensures View() == old(View()).(unattached := old(unattached) - {t}, streams := WithoutReceiver(old(View()), t))
      ensures ControlEnabled(old(View()), Unpark(t)) ==> View() == ApplyControl(old(View()), Unpark(t))
    {
      if t in unattached && t in streams { streams := streams[t := streams[t].(open := false)]; }
      unattached := unattached - {t};
    }

    // release: lets go of the stream `t`, and tells its session to stop if it
    // was the last one.
    method Release(t: Token)
      requires CanRelease(View(), t)
      modifies this
      ensures View() == Tunelithd.Release(old(View()), t)
    {
      DropReceiver(t);
      if t in tokens {
        var s := tokens[t];
        tokens := tokens - {t};
        var subscribers := sess[s].subs - {t};
        if subscribers == map[] {
          sessions := Without(sessions, s);
          sess := sess[s := sess[s].(subs := subscribers, stop := true)];
        } else {
          sess := sess[s := sess[s].(subs := subscribers)];
        }
      } else {
        assert tokens - {t} == tokens;
      }
    }

    // A task asked to release a stream.
    method ReleaseAsked(k: TaskId)
      requires Valid() && ControlEnabled(View(), Tunelithd.ReleaseAsked(k))
      modifies this
      ensures Valid() && View() == ApplyControl(old(View()), Tunelithd.ReleaseAsked(k))
    {
      ghost var d := View();
      var call := calls[k];
      Release(call.token);
      calls := calls[k := Answering(call.conn, Released(call.id))];
      Runs.ReachableNext(d, Control(Tunelithd.ReleaseAsked(k)));
    }

    method ReleaseLeft(c: ConnId, t: Token)
      requires Valid() && ControlEnabled(View(), Tunelithd.ReleaseLeft(c, t))
      modifies this
      ensures Valid() && View() == ApplyControl(old(View()), Tunelithd.ReleaseLeft(c, t))
    {
      ghost var d := View();
      Release(t);
      conns := conns[c := conns[c].(todo := conns[c].todo - {t})];
      Runs.ReachableNext(d, Control(Tunelithd.ReleaseLeft(c, t)));
    }

    // The client of `c` has gone: its streams go with it, each once its session's
    // subscribers are free.
    method Leave(c: ConnId) returns (ghost steps: seq<Step>)
      requires Valid() && ControlEnabled(View(), Tunelithd.Leave(c))
      requires forall t :: t in conns[c].owned.value ==> CanRelease(View(), t)
      modifies this
      ensures Valid() && Leads(old(View()), steps, View())
      ensures LeftSoFar(old(View()), View(), c, {})
    {
      ghost var d := View();
      LeaveBegins(d, c);
      LeadsFirst(d, Control(Tunelithd.Leave(c)));
      var todo := conns[c].owned.value;
      conns := conns[c := conns[c].(owned := None, todo := todo)];
      steps := [Control(Tunelithd.Leave(c))];
      while todo != {}
        invariant Leads(d, steps, View()) && LeftSoFar(d, View(), c, todo) && Valid()
        decreases todo
      {
        var t :| t in todo;
        LeaveGoesOn(d, View(), c, todo, t);
        LeadsOn(d, steps, View(), Control(Tunelithd.ReleaseLeft(c, t)));
        ReleaseLeft(c, t);
        steps := steps + [Control(Tunelithd.ReleaseLeft(c, t))];
        todo := todo - {t};
      }
    }

    // A data connection shows the token of its stream.
    method Attach(t: Token) returns (known: bool)
      requires Valid() && lock.None?
      modifies this
      ensures Valid() && (known <==> t in old(unattached))
      ensures known ==>
                && DataEnabled(old(View()), t, Tunelithd.Attach)
                && View() == ApplyData(old(View()), t, Tunelithd.Attach)
      ensures !known ==> View() == old(View())
    {
      ghost var d := View();
      known := t in unattached;
      if known {
        ParkedHasStream(d, t);
        unattached := unattached - {t};
        data := data[t := Streaming];
        streams := streams[t := streams[t].(attached := true)];
        Runs.ReachableNext(d, Data(t, Tunelithd.Attach));
      }
    }

    // flush_drops, and what else is sent to the client then.
    method Tell(s: SessionId, t: Token, more: seq<Message>)
      requires s in sess && t in sess[s].subs && t in streams
      modifies this
      ensures conns == Send(old(conns), old(sess)[s].subs[t].conn, DropEvents(t, old(sess)[s].subs[t]) + more)
      ensures sess == old(sess)[s := old(sess)[s].(subs := old(sess)[s].subs[t := old(sess)[s].subs[t].(dropped := 0)])]
      ensures var drops := old(streams)[t].drops + Flushed(old(sess)[s].subs[t]);
              streams == old(streams)[t := old(streams)[t].(drops := drops)]
      ensures View() == old(View()).(conns := conns, sess := sess, streams := streams)
    {
      var sub := sess[s].subs[t];
      var messages := if sub.dropped > 0 then [DropEvent(t, sub.dropped)] + more else more;
      streams := streams[t := streams[t].(drops := streams[t].drops + Flushed(sub))];
      sess := sess[s := sess[s].(subs := sess[s].subs[t := sub.(dropped := 0)])];
      if sub.conn in conns {
        conns := conns[sub.conn := conns[sub.conn].(sent := conns[sub.conn].sent + messages)];
      }
      assert messages == DropEvents(t, sub) + more;
    }

    // One round of the retain in fan_out.
    method Offer(s: SessionId, t: Token)
      requires FanOutEnabled(View(), s, Tunelithd.Offer(t))
      modifies this
      ensures View() == OfferTo(old(View()), s, t)
    {
      if !streams[t].open { Prune(s, t); }
      else if |streams[t].queue| < BACKLOG { Enqueue(s, t); }
      else { CountDropped(s, t); }
    }

    method Prune(s: SessionId, t: Token)
      requires FanOutEnabled(View(), s, Tunelithd.Offer(t)) && TrySend(streams[t]).Gone?
      modifies this
      ensures View() == OfferTo(old(View()), s, t)
    {
      SendsNothing(conns, sess[s].subs[t].conn);
      assert streams == streams[t := streams[t]];
      sess := sess[s := sess[s].(phase := Sending(sess[s].phase.chunk, sess[s].phase.rest - {t}),
                                 subs := sess[s].subs - {t})];
    }

    method Enqueue(s: SessionId, t: Token)
      requires FanOutEnabled(View(), s, Tunelithd.Offer(t)) && TrySend(streams[t]).Taken?
      modifies this
      ensures View() == OfferTo(old(View()), s, t)
    {
      var phase := sess[s].phase;
      ghost var events := DropEvents(t, sess[s].subs[t]);
      Tell(s, t, []);
      assert events + [] == events;
      streams := streams[t := streams[t].(queue := streams[t].queue + [phase.chunk],
                                          offers := streams[t].offers + [Offered(phase.chunk, true)])];
      sess := sess[s := sess[s].(phase := Sending(phase.chunk, phase.rest - {t}))];
    }

    method CountDropped(s: SessionId, t: Token)
      requires FanOutEnabled(View(), s, Tunelithd.Offer(t)) && TrySend(streams[t]).Full?
      modifies this
      ensures View() == OfferTo(old(View()), s, t)
    {
      var phase, sub := sess[s].phase, sess[s].subs[t];
      SendsNothing(conns, sub.conn);
      sess := sess[s := sess[s].(phase := Sending(phase.chunk, phase.rest - {t}),
                                 subs := sess[s].subs[t := sub.(dropped := sub.dropped + |phase.chunk|)])];
      streams := streams[t := streams[t].(offers := streams[t].offers + [Offered(phase.chunk, false)])];
    }

    // A chunk in fan_out: it is offered to every subscriber, and those whose
    // receiver has gone are pruned.
    method HandOut(s: SessionId, chunk: Chunk) returns (ghost steps: seq<Step>)
      requires Valid() && FanOutEnabled(View(), s, TakeChunk(chunk))
      modifies this
      ensures Valid() && Leads(old(View()), steps, View())
      ensures s in sess && sess[s].phase == (if sess[s].subs == map[] then MaybeIdle else Running)
      ensures sess[s].took == old(sess)[s].took + [chunk]
      ensures forall t :: t in old(sess)[s].subs ==> OfferedIn(old(View()), View(), s, t, chunk)
      ensures tokens == old(tokens) && sessions == old(sessions)
    {
      ghost var d := View();
      RoundBegins(d, s, chunk);
      var rest := sess[s].subs.Keys;
      sess := sess[s := sess[s].(phase := Sending(chunk, rest), took := sess[s].took + [chunk])];
      steps := [FanOut(s, TakeChunk(chunk))];
      LeadsFirst(d, FanOut(s, TakeChunk(chunk)));
      steps := Retain(s, chunk, rest, d, steps);
      LeadsOn(d, steps, View(), FanOut(s, AllOffered));
      sess := sess[s := sess[s].(phase := if sess[s].subs == map[] then MaybeIdle else Running)];
      steps := steps + [FanOut(s, AllOffered)];
      ReachableOn(d, steps, View());
    }

    // The retain of the subscribers.
    method Retain(s: SessionId, chunk: Chunk, all: set<Token>, ghost d: Daemon, ghost before: seq<Step>)
        returns (ghost steps: seq<Step>)
      requires Leads(d, before, View()) && RoundSoFar(d, View(), s, chunk, all)
      modifies this
      ensures Leads(d, steps, View()) && RoundSoFar(d, View(), s, chunk, {})
    {
      steps := before;
      var rest := all;
      while rest != {}
        invariant Leads(d, steps, View()) && RoundSoFar(d, View(), s, chunk, rest)
        decreases rest
      {
        var t :| t in rest;
        RoundGoesOn(d, View(), s, chunk, rest, t);
        LeadsOn(d, steps, View(), FanOut(s, Tunelithd.Offer(t)));
        Offer(s, t);
        steps := steps + [FanOut(s, Tunelithd.Offer(t))];
        rest := rest - {t};
      }
    }

    method CloseIfIdle(s: SessionId) returns (idle: bool)
      requires Valid() && FanOutEnabled(View(), s, Tunelithd.CloseIfIdle)
      modifies this
      ensures Valid() && View() == ApplyFanOut(old(View()), s, Tunelithd.CloseIfIdle)
      ensures idle <==> old(sess)[s].subs == map[]
    {
      ghost var d := View();
      idle := sess[s].subs == map[];
      if idle { sessions := Without(sessions, s); }
      sess := sess[s := sess[s].(phase := if idle then Ending(Idle) else Running)];
      Runs.ReachableNext(d, FanOut(s, Tunelithd.CloseIfIdle));
    }

    // The first section of end: takes the session and its streams off the
    // state, and tells each client how its stream ended.
    method End(s: SessionId) returns (ghost steps: seq<Step>)
      requires Valid() && FanOutEnabled(View(), s, EndBegin)
      modifies this
      ensures Valid() && Leads(old(View()), steps, View())
      ensures s in sess && sess[s].phase == Closing && sess[s].subs == map[] && lock.None?
      ensures s !in sessions && sess[s].tuner in closing
      ensures forall t :: t in tokens ==> tokens[t] != s
      ensures forall t :: t in old(sess)[s].subs ==>
                t in streams && EndedSo(streams[t], old(sess)[s].phase.why)
    {
      ghost var d := View();
      DrainBegins(d, s);
      Begin(s);
      steps := [FanOut(s, EndBegin)];
      LeadsFirst(d, FanOut(s, EndBegin));
      steps := Drain(s, d, steps);
      LeadsOn(d, steps, View(), FanOut(s, EndUnlock));
      sess := sess[s := sess[s].(phase := Closing)];
      lock := None;
      steps := steps + [FanOut(s, EndUnlock)];
      ReachableOn(d, steps, View());
    }

    // Tells each client of the session, and lets go of it.
    method Drain(s: SessionId, ghost d: Daemon, ghost before: seq<Step>) returns (ghost steps: seq<Step>)
      requires Leads(d, before, View()) && DrainSoFar(d, View(), s)
      modifies this
      ensures Leads(d, steps, View()) && DrainSoFar(d, View(), s) && sess[s].subs == map[]
    {
      steps := before;
      while sess[s].subs != map[]
        invariant Leads(d, steps, View()) && DrainSoFar(d, View(), s)
        decreases sess[s].subs.Keys
      {
        var t :| t in sess[s].subs;
        DrainGoesOn(d, View(), s, t);
        LeadsOn(d, steps, View(), FanOut(s, Tunelithd.EndOne(t)));
        EndOne(s, t);
        steps := steps + [FanOut(s, Tunelithd.EndOne(t))];
      }
    }

    // The last section of end: the tuner, closed, is free.
    method Finish(s: SessionId)
      requires Valid() && FanOutEnabled(View(), s, EndFinish)
      modifies this
      ensures Valid() && View() == ApplyFanOut(old(View()), s, EndFinish)
      ensures sess[s].tuner !in busy && sess[s].tuner !in closing
    {
      ghost var d := View();
      busy := busy - {sess[s].tuner};
      closing := closing - {sess[s].tuner};
      sess := sess[s := sess[s].(phase := Done)];
      Runs.ReachableNext(d, FanOut(s, EndFinish));
    }

    method Begin(s: SessionId)
      requires FanOutEnabled(View(), s, EndBegin)
      modifies this
      ensures View() == Purge(old(View()), s)
    {
      sessions := Without(sessions, s);
      closing := closing + {sess[s].tuner};
      DropTokens(s);
      sess := sess[s := sess[s].(phase := Draining(sess[s].phase.why))];
      lock := Some(s);
    }

    // The retain of the tokens in end.
    method DropTokens(s: SessionId)
      modifies this
      ensures var ours := TokensOf(old(tokens), s);
              View() == old(View()).(tokens := old(tokens) - ours, unattached := old(unattached) - ours,
                                     streams := WithoutReceivers(old(streams), ours * old(unattached)))
    {
      var ours := TokensOf(tokens, s);
      streams := WithoutReceivers(streams, ours * unattached);
      tokens := tokens - ours;
      unattached := unattached - ours;
    }

    method EndOne(s: SessionId, t: Token)
      requires FanOutEnabled(View(), s, Tunelithd.EndOne(t))
      modifies this
      ensures View() == Farewell(old(View()), s, t)
    {
      ghost var was := sess[s].subs;
      var text := sess[s].phase.why.Text();
      Tell(s, t, [StreamEndEvent(t, text)]);
      assert sess[s].subs - {t} == was - {t};
      sess := sess[s := sess[s].(subs := sess[s].subs - {t})];
      streams := streams[t := streams[t].(ended := Some(text))];
    }
  }
}
