/** A client is told of the end of its stream what the source gave as its cause. */
module TunelithdCauses {
  import opened Options
  import opened Tunelithd
  import Runs = TunelithdRuns
  import R = TunelithdRounds
  import X = TunelithdStreams

  // The errors the sources of sessions ended with.
  type Causes = map<SessionId, string>

  function Noted(causes: Causes, step: Step): Causes {
    match step
    case FanOut(s, SourceEnds(Some(error))) => causes[s := error]
    case _ => causes
  }

  function NotedAlong(causes: Causes, steps: seq<Step>): Causes
    decreases |steps|
  {
    if steps == [] then causes else NotedAlong(Noted(causes, steps[0]), steps[1..])
  }

  function Told(causes: Causes, s: SessionId): string {
    if s in causes then causes[s] else ""
  }

  // The fan-out is out of its loop for the error noted, or none; before that
  // there is none to note.
  predicate PhaseOk(causes: Causes, s: SessionId, x: Session) {
    match x.phase
    case Running => s !in causes
    case Sending(_, _) => s !in causes
    case MaybeIdle => s !in causes
    case Ending(why) => WhyOk(causes, s, why)
    case Draining(why) => WhyOk(causes, s, why)
    case _ => true
  }

  predicate WhyOk(causes: Causes, s: SessionId, why: Why) {
    if why.SourceEnded? && why.error.Some? then s in causes && causes[s] == why.error.value else s !in causes
  }

  predicate EndOk(causes: Causes, x: Stream) {
    x.ended.Some? ==> x.ended.value == Told(causes, x.session)
  }

  predicate SessionOk(causes: Causes, d: Daemon, s: SessionId) {
    if s in d.sess then PhaseOk(causes, s, d.sess[s]) else s !in causes
  }

  predicate StreamOk(causes: Causes, d: Daemon, t: Token) {
    t in d.streams ==> EndOk(causes, d.streams[t])
  }

  ghost predicate Caused(causes: Causes, d: Daemon) {
    (forall s :: SessionOk(causes, d, s)) && (forall t :: StreamOk(causes, d, t))
  }

  // No session goes on, nor does a stream end.
  ghost predicate Quiet(d: Daemon, d': Daemon) {
    && (forall s :: s in d.sess ==> s in d'.sess && d'.sess[s].phase == d.sess[s].phase)
    && (forall s :: s in d'.sess && s !in d.sess ==> d'.sess[s].phase.Running?)
    && (forall t :: t in d'.streams && d'.streams[t].ended.Some? ==>
          t in d.streams && d.streams[t].ended == d'.streams[t].ended && d.streams[t].session == d'.streams[t].session)
  }

  lemma QuietKeeps(causes: Causes, d: Daemon, d': Daemon)
    requires Caused(causes, d) && Quiet(d, d')
    ensures Caused(causes, d')
  {
    forall s ensures SessionOk(causes, d', s) { assert SessionOk(causes, d, s); }
    forall t ensures StreamOk(causes, d', t) { assert StreamOk(causes, d, t); }
  }

  lemma ControlQuiet(d: Daemon, step: ControlStep)
    requires ControlEnabled(d, step)
    ensures Quiet(d, ApplyControl(d, step))
  {
  }

  lemma SubscribeQuiet(d: Daemon, s: SessionId, c: ConnId, t: Token)
    requires s in d.sess && Fresh(d, t)
    ensures Quiet(d, Subscribe(d, s, c, t))
  {
  }

  lemma AcquireQuiet(d: Daemon, k: TaskId, step: AcquireStep)
    requires AcquireEnabled(d, k, step)
    ensures Quiet(d, ApplyAcquire(d, k, step))
  {
    match step
    case Join(t) => SubscribeQuiet(d, SharedFor(d, k).value, d.calls[k].conn, t);
    case Tuned(s, t) => SubscribeQuiet(Started(d, k, s), s, d.calls[k].conn, t);
    case _ =>
  }

  lemma DataQuiet(d: Daemon, t: Token, step: DataStep)
    requires DataEnabled(d, t, step)
    ensures Quiet(d, ApplyData(d, t, step))
  {
  }

  // The session `s` goes on, and no stream of it has ended, or none ends.
  lemma PhaseKeeps(causes: Causes, d: Daemon, s: SessionId, step: SessionStep)
    requires Caused(causes, d) && FanOutEnabled(d, s, step)
    requires !step.SourceEnds? && !step.EndOne?
    ensures Caused(causes, ApplyFanOut(d, s, step))
  {
    var d' := ApplyFanOut(d, s, step);
    forall r ensures SessionOk(causes, d', r) { assert SessionOk(causes, d, r); }
    forall t ensures StreamOk(causes, d', t) { assert StreamOk(causes, d, t); }
  }

  lemma EndOneKeeps(causes: Causes, d: Daemon, s: SessionId, t: Token)
    requires Caused(causes, d) && FanOutEnabled(d, s, EndOne(t)) && d.streams[t].session == s
    ensures Caused(causes, ApplyFanOut(d, s, EndOne(t)))
  {
    var d' := Farewell(d, s, t);
    assert SessionOk(causes, d, s);
    forall r ensures SessionOk(causes, d', r) { assert SessionOk(causes, d, r); }
    forall u ensures StreamOk(causes, d', u) { assert StreamOk(causes, d, u); }
  }

  lemma SourceEndsKeeps(causes: Causes, d: Daemon, s: SessionId, error: Option<string>)
    requires Caused(causes, d) && FanOutEnabled(d, s, SourceEnds(error))
    requires forall t :: t in d.streams && d.streams[t].session == s ==> d.streams[t].ended.None?
    ensures Caused(Noted(causes, FanOut(s, SourceEnds(error))), ApplyFanOut(d, s, SourceEnds(error)))
  {
    var d' := ApplyFanOut(d, s, SourceEnds(error));
    var causes' := Noted(causes, FanOut(s, SourceEnds(error)));
    forall r ensures SessionOk(causes', d', r) { assert SessionOk(causes, d, r); }
    forall t ensures StreamOk(causes', d', t) { assert StreamOk(causes, d, t); }
  }

  // While a fan-out is in its loop no stream of its session has ended.
  lemma NoneEnded(d: Daemon, s: SessionId)
    requires R.Rounds(d) && s in d.sess && d.sess[s].phase.Joinable()
    ensures forall t :: t in d.streams && d.streams[t].session == s ==> d.streams[t].ended.None?
  {
    forall t | t in d.streams && d.streams[t].session == s ensures d.streams[t].ended.None? {
      assert R.StreamRound(d, t);
    }
  }

  lemma FanOutKeeps(causes: Causes, d: Daemon, s: SessionId, step: SessionStep)
    requires R.Rounds(d) && X.Streams(d) && Caused(causes, d) && FanOutEnabled(d, s, step)
    ensures Caused(Noted(causes, FanOut(s, step)), ApplyFanOut(d, s, step))
  {
    match step
    case SourceEnds(error) => NoneEnded(d, s); SourceEndsKeeps(causes, d, s, error);
    case EndOne(t) => assert X.SubOk(d, s, t); EndOneKeeps(causes, d, s, t);
    case _ => PhaseKeeps(causes, d, s, step);
  }

  lemma StepKeeps(causes: Causes, d: Daemon, step: Step)
    requires R.Rounds(d) && X.Streams(d) && Caused(causes, d) && Enabled(d, step)
    ensures Caused(Noted(causes, step), Apply(d, step))
  {
    match step
    case Control(control) => ControlQuiet(d, control); QuietKeeps(causes, d, Apply(d, step));
    case Acquiring(k, acquire) => AcquireQuiet(d, k, acquire); QuietKeeps(causes, d, Apply(d, step));
    case FanOut(s, fanOut) => FanOutKeeps(causes, d, s, fanOut);
    case Data(t, data) => DataQuiet(d, t, data); QuietKeeps(causes, d, Apply(d, step));
  }

  lemma {:induction false} RunKeeps(causes: Causes, d: Daemon, steps: seq<Step>)
    requires Runs.Inv(d) && Caused(causes, d) && After(d, steps).Some?
    ensures Caused(NotedAlong(causes, steps), After(d, steps).value)
    decreases |steps|
  {
    if steps == [] {
    } else {
      StepKeeps(causes, d, steps[0]);
      Runs.StepKeeps(d, steps[0]);
      RunKeeps(Noted(causes, steps[0]), Apply(d, steps[0]), steps[1..]);
    }
  }

  // What is noted of a session is what its source gave, once and for all.
  lemma {:induction false} NotedOnce(causes: Causes, d: Daemon, steps: seq<Step>, s: SessionId)
    requires Runs.Inv(d) && Caused(causes, d) && After(d, steps).Some? && s in causes
    ensures s in NotedAlong(causes, steps) && NotedAlong(causes, steps)[s] == causes[s]
    decreases |steps|
  {
    if steps == [] {
    } else {
      assert SessionOk(causes, d, s);
      StepKeeps(causes, d, steps[0]);
      Runs.StepKeeps(d, steps[0]);
      NotedOnce(Noted(causes, steps[0]), Apply(d, steps[0]), steps[1..], s);
    }
  }

  predicate Gives(steps: seq<Step>, s: SessionId, error: string) {
    FanOut(s, SourceEnds(Some(error))) in steps
  }

  // What is noted of `s` along `steps`, where nothing was before.
  ghost predicate IsNoted(causes: Causes, steps: seq<Step>, s: SessionId) {
    && (s in causes <==> exists e :: Gives(steps, s, e))
    && (forall e :: Gives(steps, s, e) ==> s in causes && causes[s] == e)
  }

  lemma NotedFirst(causes: Causes, after: Causes, steps: seq<Step>, s: SessionId)
    requires steps != [] && s !in causes && s in Noted(causes, steps[0])
    requires s in after && after[s] == Noted(causes, steps[0])[s] && forall e :: !Gives(steps[1..], s, e)
    ensures IsNoted(after, steps, s)
  {
    var e := after[s];
    assert steps[0] == FanOut(s, SourceEnds(Some(e)));
    assert Gives(steps, s, e);
    forall f | Gives(steps, s, f) ensures f == e {
      assert steps[0] == FanOut(s, SourceEnds(Some(f))) || Gives(steps[1..], s, f);
    }
  }

  lemma NotedLater(causes: Causes, after: Causes, steps: seq<Step>, s: SessionId)
    requires steps != [] && s !in causes && s !in Noted(causes, steps[0]) && IsNoted(after, steps[1..], s)
    ensures IsNoted(after, steps, s)
  {
    forall e ensures Gives(steps, s, e) <==> Gives(steps[1..], s, e) {
      assert steps[0] != FanOut(s, SourceEnds(Some(e)));
    }
  }

  lemma {:induction false} NotedIsGiven(causes: Causes, d: Daemon, steps: seq<Step>, s: SessionId)
    requires Runs.Inv(d) && Caused(causes, d) && After(d, steps).Some? && s !in causes
    ensures IsNoted(NotedAlong(causes, steps), steps, s)
    decreases |steps|
  {
    if steps == [] {
    } else {
      var step, rest := steps[0], steps[1..];
      StepKeeps(causes, d, step);
      Runs.StepKeeps(d, step);
      if s in Noted(causes, step) {
        NotedOnce(Noted(causes, step), Apply(d, step), rest, s);
        NoneGivenAfter(Noted(causes, step), Apply(d, step), rest, s);
        NotedFirst(causes, NotedAlong(causes, steps), steps, s);
      } else {
        NotedIsGiven(Noted(causes, step), Apply(d, step), rest, s);
        NotedLater(causes, NotedAlong(causes, steps), steps, s);
      }
    }
  }

  lemma {:induction false} NoneGivenAfter(causes: Causes, d: Daemon, steps: seq<Step>, s: SessionId)
    requires Runs.Inv(d) && Caused(causes, d) && After(d, steps).Some? && s in causes
    ensures forall e :: !Gives(steps, s, e)
    decreases |steps|
  {
    if steps == [] {
    } else {
      assert SessionOk(causes, d, s);
      StepKeeps(causes, d, steps[0]);
      Runs.StepKeeps(d, steps[0]);
      NoneGivenAfter(Noted(causes, steps[0]), Apply(d, steps[0]), steps[1..], s);
      forall e ensures !Gives(steps, s, e) {
        assert steps[0] != FanOut(s, SourceEnds(Some(e))) && !Gives(steps[1..], s, e);
      }
    }
  }

  // A stream that has ended has ended with the error the source of its session
  // gave, and with none if it gave none, was stopped or was left idle.
  lemma EndsAsTheSource(steps: seq<Step>, t: Token)
    requires After(INITIAL, steps).Some?
    requires var d := After(INITIAL, steps).value; t in d.streams && d.streams[t].ended.Some?
    ensures var y := After(INITIAL, steps).value.streams[t];
            && (forall e :: Gives(steps, y.session, e) ==> y.ended == Some(e))
            && ((forall e :: !Gives(steps, y.session, e)) ==> y.ended == Some(""))
  {
    var d := After(INITIAL, steps).value;
    assert Reachable(INITIAL) by { assert After(INITIAL, []) == Some(INITIAL); }
    Runs.ReachableInv(INITIAL);
    RunKeeps(map[], INITIAL, steps);
    NotedIsGiven(map[], INITIAL, steps, d.streams[t].session);
    assert StreamOk(NotedAlong(map[], steps), d, t);
  }
}
