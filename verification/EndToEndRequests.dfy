/**
 Requests and their responses: each request is answered at most once, and an
 acquire with a stream of what it asked for.
 */
module EndToEndRequests {
  import opened Options
  import opened Tunelithd
  import opened TunelithClient
  import opened EndToEnd
  import opened EndToEndLinks
  import E = TunelithdEvents
  import Q = TunelithdWishes
  import Runs = TunelithdRuns

  // The request a message responds to.
  function AnswerTo(m: Message): Option<nat> {
    match m
    case Acquired(id, _) => Some(id)
    case Failed(id) => Some(id)
    case Released(id) => Some(id)
    case _ => None
  }

  // The request a task is about.
  function RequestOf(call: Call): Option<nat> {
    match call
    case Acquire(_, id, _, _, _) => Some(id)
    case Disowning(_, id, _) => Some(id)
    case Releasing(_, id, _) => Some(id)
    case Answering(_, m) => AnswerTo(m)
  }

  predicate Works(d: Daemon, k: TaskId, c: ConnId, id: nat) {
    k in d.calls && d.calls[k].conn == c && RequestOf(d.calls[k]) == Some(id)
  }

  predicate Said(d: Daemon, c: ConnId, j: nat, id: nat) {
    c in d.conns && j < |d.conns[c].sent| && AnswerTo(d.conns[c].sent[j]) == Some(id)
  }

  // A task that may yet respond with a token.
  predicate Wants(d: Daemon, k: TaskId, c: ConnId, id: nat) {
    Works(d, k, c, id) && (d.calls[k].Acquire? || (d.calls[k].Answering? && d.calls[k].message.Acquired?))
  }

  predicate Grants(d: Daemon, c: ConnId, j: nat, id: nat, t: Token) {
    c in d.conns && j < |d.conns[c].sent| && d.conns[c].sent[j] == Acquired(id, t)
  }

  /* Each request is answered once */

  ghost predicate AnswersOnce(d: Daemon) {
    && (forall k, k', c, id :: Works(d, k, c, id) && Works(d, k', c, id) ==> k == k')
    && (forall k, c, j, id :: Works(d, k, c, id) ==> !Said(d, c, j, id))
    && (forall c, i, j, id :: Said(d, c, i, id) && Said(d, c, j, id) ==> i == j)
  }

  // Requests are numbered upwards.
  predicate Numbered(w: World, c: ConnId, id: nat) {
    c in w.clients ==> id < w.clients[c].nextId
  }

  ghost predicate IdsOk(w: World) {
    && (forall k, c, id :: Works(w.d, k, c, id) ==> Numbered(w, c, id))
    && (forall c, j, id :: Said(w.d, c, j, id) ==> Numbered(w, c, id))
    && (forall c, id :: (c, id) in w.asked ==> c in w.clients && Numbered(w, c, id))
    && (forall c, id :: c in w.clients && (id in w.clients[c].pending || id in w.clients[c].answers) ==>
          Numbered(w, c, id))
  }

  /* A caller is there for each response with a token */

  predicate Expects(w: World, c: ConnId, id: nat) {
    c in w.clients && w.clients[c].up ==> id in w.clients[c].pending
  }

  ghost predicate Expected(w: World) {
    && (forall k, c, id :: Wants(w.d, k, c, id) ==> Expects(w, c, id))
    && (forall c, j, id, t :: Grants(w.d, c, j, id, t) && w.d.conns[c].received <= j ==> Expects(w, c, id))
    && (forall c, id :: c in w.clients && id in w.clients[c].pending ==> id !in w.clients[c].answers)
  }

  /* A stream is of what its request asked for */

  predicate SuitsRequest(w: World, c: ConnId, id: nat, t: Token) {
    (c, id) in w.asked && Q.Suits(w.d, t, w.asked[(c, id)])
  }

  predicate CallOk(w: World, k: TaskId) {
    k in w.d.calls ==>
      match w.d.calls[k]
      case Acquire(c, id, wanted, params, _) => (c, id) in w.asked && w.asked[(c, id)] == Wish(wanted, params)
      case Answering(c, Acquired(id, t)) => SuitsRequest(w, c, id, t)
      case _ => true
  }

  ghost predicate Suited(w: World) {
    && (forall k :: CallOk(w, k))
    && (forall c, j, id, t :: Grants(w.d, c, j, id, t) ==> SuitsRequest(w, c, id, t))
    && (forall c, id, t :: c in w.clients && Waiting(w.clients[c], id, t) ==> SuitsRequest(w, c, id, t))
  }

  ghost predicate Requests(w: World) {
    AnswersOnce(w.d) && IdsOk(w) && Expected(w) && Suited(w) && Q.Wishes(w.d)
  }

  /* The daemon's steps, but those that answer */

  // No task turns to another request, nor is any answered.
  ghost predicate Calm(d: Daemon, d': Daemon) {
    && d'.conns.Keys == d.conns.Keys
    && (forall c :: c in d.conns ==> d'.conns[c].received == d.conns[c].received)
    && (forall k, c, id :: Works(d', k, c, id) ==> Works(d, k, c, id))
    && (forall k, c, id :: Wants(d', k, c, id) ==> Wants(d, k, c, id))
    && (forall c, j, id :: Said(d', c, j, id) ==> Said(d, c, j, id))
    && (forall c, j, id, t :: Grants(d', c, j, id, t) ==> Grants(d, c, j, id, t))
  }

  lemma ControlCalm(d: Daemon, step: ControlStep)
    requires ControlEnabled(d, step)
    requires step.Disown? || step.ReleaseAsked? || step.Leave? || step.ReleaseLeft? || step.Unpark?
    ensures Calm(d, ApplyControl(d, step))
  {
  }

  lemma AcquireCalm(d: Daemon, k: TaskId, step: AcquireStep)
    requires AcquireEnabled(d, k, step)
    ensures Calm(d, ApplyAcquire(d, k, step))
  {
    if step.Join? || step.Tuned? || step.GiveBack? { GotCalm(d, k, step); }
  }

  lemma GotCalm(d: Daemon, k: TaskId, step: AcquireStep)
    requires AcquireEnabled(d, k, step) && (step.Join? || step.Tuned? || step.GiveBack?)
    ensures Calm(d, ApplyAcquire(d, k, step))
  {
  }

  // Events are no responses.
  lemma SendingCalm(d: Daemon, d': Daemon, c: ConnId, ms: seq<Message>)
    requires d'.calls == d.calls && d'.conns == Send(d.conns, c, ms)
    requires forall m :: m in ms ==> AnswerTo(m).None?
    ensures Calm(d, d')
  {
    forall b, j, id | Said(d', b, j, id) ensures Said(d, b, j, id) { SentBefore(d, d', c, ms, b, j); }
    forall b, j, id, t | Grants(d', b, j, id, t) ensures Grants(d, b, j, id, t) {
      assert Said(d', b, j, id);
      SentBefore(d, d', c, ms, b, j);
    }
  }

  lemma SentBefore(d: Daemon, d': Daemon, c: ConnId, ms: seq<Message>, b: ConnId, j: nat)
    requires d'.conns == Send(d.conns, c, ms) && forall m :: m in ms ==> AnswerTo(m).None?
    requires b in d'.conns && j < |d'.conns[b].sent| && AnswerTo(d'.conns[b].sent[j]).Some?
    ensures b in d.conns && j < |d.conns[b].sent| && d.conns[b].sent[j] == d'.conns[b].sent[j]
  {
    if c in d.conns {
      var was, now := d.conns[c].sent, d'.conns[c].sent;
      forall i | |was| <= i < |now| ensures AnswerTo(now[i]).None? { assert now[i] == ms[i - |was|]; }
    }
  }

  lemma FanOutCalm(d: Daemon, s: SessionId, step: SessionStep)
    requires FanOutEnabled(d, s, step)
    ensures Calm(d, ApplyFanOut(d, s, step))
  {
    var d' := ApplyFanOut(d, s, step);
    match step
    case Offer(t) =>
      var ms := if TrySend(d.streams[t]).Taken? then DropEvents(t, d.sess[s].subs[t]) else [];
      SendingCalm(d, d', d.sess[s].subs[t].conn, ms);
    case EndOne(t) =>
      SendingCalm(d, d', d.sess[s].subs[t].conn,
                  DropEvents(t, d.sess[s].subs[t]) + [StreamEndEvent(t, d.sess[s].phase.why.Text())]);
    case _ =>
      assert d'.conns == d.conns && d'.calls == d.calls;
  }

  lemma DataCalm(d: Daemon, t: Token, step: DataStep)
    requires DataEnabled(d, t, step)
    ensures Calm(d, ApplyData(d, t, step))
  {
    assert ApplyData(d, t, step).conns == d.conns && ApplyData(d, t, step).calls == d.calls;
  }

  lemma CalmKeeps(w: World, d': Daemon)
    requires AnswersOnce(w.d) && IdsOk(w) && Expected(w) && Calm(w.d, d')
    ensures AnswersOnce(d') && IdsOk(w.(d := d')) && Expected(w.(d := d'))
  {
  }

  // An acquire told to respond with its stream has one that suits.
  lemma AcquireOk(w: World, k: TaskId, step: AcquireStep)
    requires Suited(w) && Q.Wishes(w.d) && AcquireEnabled(w.d, k, step)
    ensures CallOk(w.(d := ApplyAcquire(w.d, k, step)), k)
  {
    Q.AcquireFirm(w.d, k, step);
    assert CallOk(w, k) && Q.CallSuits(w.d, k);
  }

  // Streams and sessions stay; the tasks do but for `k`.
  lemma FirmSuited(w: World, d': Daemon, k: TaskId)
    requires Suited(w) && Q.Firm(w.d, d') && Calm(w.d, d') && CallOk(w.(d := d'), k)
    requires forall j :: j in d'.calls && j != k ==> j in w.d.calls && d'.calls[j] == w.d.calls[j]
    ensures Suited(w.(d := d'))
  {
    var w' := w.(d := d');
    forall j ensures CallOk(w', j) { assert CallOk(w, j); }
    forall c, j, id, t | Grants(d', c, j, id, t) ensures SuitsRequest(w', c, id, t) { assert Grants(w.d, c, j, id, t); }
  }

  lemma OwnAcquireKeeps(w: World, k: TaskId, step: AcquireStep)
    requires Requests(w) && AcquireEnabled(w.d, k, step)
    ensures Requests(w.(d := ApplyAcquire(w.d, k, step)))
  {
    var d' := ApplyAcquire(w.d, k, step);
    AcquireCalm(w.d, k, step);
    CalmKeeps(w, d');
    AcquireOk(w, k, step);
    Q.AcquireFirm(w.d, k, step);
    FirmSuited(w, d', k);
    Q.AcquireKeeps(w.d, k, step);
  }

  lemma OwnFanOutKeeps(w: World, s: SessionId, step: SessionStep)
    requires Requests(w) && FanOutEnabled(w.d, s, step)
    ensures Requests(w.(d := ApplyFanOut(w.d, s, step)))
  {
    var d' := ApplyFanOut(w.d, s, step);
    FanOutCalm(w.d, s, step);
    CalmKeeps(w, d');
    Q.FanOutFirm(w.d, s, step);
    assert CallOk(w, 0);
    FirmSuited(w, d', 0);
    Q.FanOutKeeps(w.d, s, step);
  }

  lemma OwnDataKeeps(w: World, t: Token, step: DataStep)
    requires Requests(w) && DataEnabled(w.d, t, step)
    ensures Requests(w.(d := ApplyData(w.d, t, step)))
  {
    var d' := ApplyData(w.d, t, step);
    DataCalm(w.d, t, step);
    CalmKeeps(w, d');
    Q.DataFirm(w.d, t, step);
    assert CallOk(w, 0);
    FirmSuited(w, d', 0);
    Q.DataKeeps(w.d, t, step);
  }

  lemma OwnControlKeeps(w: World, step: ControlStep)
    requires Requests(w) && ControlEnabled(w.d, step)
    requires step.Disown? || step.ReleaseAsked? || step.Leave? || step.ReleaseLeft? || step.Unpark?
    ensures Requests(w.(d := ApplyControl(w.d, step)))
  {
    var d' := ApplyControl(w.d, step);
    ControlCalm(w.d, step);
    CalmKeeps(w, d');
    Q.ControlFirm(w.d, step);
    var k := if step.Disown? || step.ReleaseAsked? then step.k else 0;
    assert CallOk(w, k);
    FirmSuited(w, d', k);
    Q.ControlKeeps(w.d, step);
  }

  /* The step that answers */

  lemma AnswerIs(d: Daemon, k: TaskId)
    requires ControlEnabled(d, Answer(k)) && d.calls[k].conn in d.conns
    ensures var d', c, m := ApplyControl(d, Answer(k)), d.calls[k].conn, d.calls[k].message;
            && d'.conns.Keys == d.conns.Keys
            && (forall b :: b in d.conns ==> d'.conns[b].received == d.conns[b].received)
            && (forall j, b, id :: Works(d', j, b, id) ==> Works(d, j, b, id) && j != k)
            && (forall j, b, id :: Wants(d', j, b, id) ==> Wants(d, j, b, id))
            && (forall b, j: nat, id: nat :: Said(d', b, j, id) ==>
                  Said(d, b, j, id) || (b == c && j == |d.conns[c].sent| && AnswerTo(m) == Some(id)))
            && (forall b, j: nat, id: nat, t :: Grants(d', b, j, id, t) ==>
                  Grants(d, b, j, id, t) || (b == c && j == |d.conns[c].sent| && m == Acquired(id, t)))
  {
  }

  lemma AnswerKeepsOnce(w: World, k: TaskId)
    requires AnswersOnce(w.d) && IdsOk(w) && Expected(w) && ControlEnabled(w.d, Answer(k))
    requires w.d.calls[k].conn in w.d.conns
    ensures var d' := ApplyControl(w.d, Answer(k)); AnswersOnce(d') && IdsOk(w.(d := d')) && Expected(w.(d := d'))
  {
    AnswerIs(w.d, k);
    var c, m := w.d.calls[k].conn, w.d.calls[k].message;
    assert AnswerTo(m).Some? ==> Works(w.d, k, c, AnswerTo(m).value);
    assert m.Acquired? ==> Wants(w.d, k, c, m.id);
  }

  lemma AnswerKeepsSuited(w: World, k: TaskId)
    requires Suited(w) && Q.Wishes(w.d) && ControlEnabled(w.d, Answer(k)) && w.d.calls[k].conn in w.d.conns
    ensures Suited(w.(d := ApplyControl(w.d, Answer(k)))) && Q.Wishes(ApplyControl(w.d, Answer(k)))
  {
    var w' := w.(d := ApplyControl(w.d, Answer(k)));
    AnswerIs(w.d, k);
    Q.ControlFirm(w.d, Answer(k));
    Q.ControlKeeps(w.d, Answer(k));
    assert CallOk(w, k);
    forall j ensures CallOk(w', j) { assert CallOk(w, j); }
    forall b, j, id, t | Grants(w'.d, b, j, id, t) ensures SuitsRequest(w', b, id, t) {
      assert Grants(w.d, b, j, id, t) ==> SuitsRequest(w, b, id, t);
    }
  }

  lemma OwnKeeps(w: World, step: Step)
    requires E.ConnsKnown(w.d) && Requests(w) && CanMove(w, Own(step))
    ensures Requests(Moved(w, Own(step)))
  {
    match step
    case Acquiring(k, acquire) => OwnAcquireKeeps(w, k, acquire);
    case FanOut(s, fanOut) => OwnFanOutKeeps(w, s, fanOut);
    case Data(t, data) => OwnDataKeeps(w, t, data);
    case Control(control) =>
      if control.Answer? { AnswerKeepsOnce(w, control.k); AnswerKeepsSuited(w, control.k); }
      else { OwnControlKeeps(w, control); }
  }

  /* The client's moves */

  // Neither what the client asked for nor what it awaits grows.
  lemma ClientKeeps(w: World, w': World, c: ConnId)
    requires Requests(w) && c in w.clients && c in w'.clients && w'.d == w.d && w'.asked == w.asked
    requires w'.clients == w.clients[c := w'.clients[c]]
    requires var x, x' := w.clients[c], w'.clients[c];
             && x'.nextId >= x.nextId && (x'.up ==> x.up && x'.pending.Keys == x.pending.Keys)
             && x'.pending.Keys <= x.pending.Keys && x'.answers.Keys <= x.answers.Keys
             && (forall id, t :: Waiting(x', id, t) ==> Waiting(x, id, t))
    ensures Requests(w')
  {
    forall j ensures CallOk(w', j) { assert CallOk(w, j); }
    forall b, id, t | b in w'.clients && Waiting(w'.clients[b], id, t) ensures SuitsRequest(w', b, id, t) {
      assert Waiting(w.clients[b], id, t);
    }
  }

  // The client sends a request, under a number never used.
  ghost predicate Sends(w: World, w': World, c: ConnId, k: TaskId, call: Call) {
    && c in w.clients && c in w'.clients && k !in w.d.calls && call.conn == c
    && (call.Disowning? || (call.Acquire? && call.at.Looking?)) && call.id == w.clients[c].nextId
    && w'.d == WithCall(w.d, k, call) && w'.clients == w.clients[c := w'.clients[c]]
    && var x, x' := w.clients[c], w'.clients[c];
       && x'.nextId == x.nextId + 1 && x'.up == x.up && x'.answers == x.answers
       && x'.pending.Keys == x.pending.Keys + (if call.Acquire? then {x.nextId} else {})
       && w'.asked == if call.Acquire? then w.asked[(c, x.nextId) := Q.WishOf(call)] else w.asked
  }

  lemma SentIs(w: World, w': World, c: ConnId, k: TaskId, call: Call)
    requires Sends(w, w', c, k, call)
    ensures forall j, b, id :: Works(w'.d, j, b, id) ==> Works(w.d, j, b, id) || (j == k && b == c && id == call.id)
    ensures forall j, b, id ::
              Wants(w'.d, j, b, id) ==> Wants(w.d, j, b, id) || (j == k && b == c && id == call.id && call.Acquire?)
    ensures forall b, j: nat, id :: Said(w'.d, b, j, id) <==> Said(w.d, b, j, id)
    ensures forall b, j: nat, id, t :: Grants(w'.d, b, j, id, t) <==> Grants(w.d, b, j, id, t)
  {
  }

  lemma SendsKeepsOnce(w: World, w': World, c: ConnId, k: TaskId, call: Call)
    requires AnswersOnce(w.d) && IdsOk(w) && Expected(w) && Sends(w, w', c, k, call)
    ensures AnswersOnce(w'.d) && IdsOk(w') && Expected(w')
  {
    SentIs(w, w', c, k, call);
    assert !Numbered(w, c, call.id);
  }

  lemma SendsKeepsSuited(w: World, w': World, c: ConnId, k: TaskId, call: Call)
    requires Suited(w) && IdsOk(w) && Sends(w, w', c, k, call)
    ensures Suited(w')
  {
    SentIs(w, w', c, k, call);
    assert !Numbered(w, c, call.id);
    forall b, id, t | SuitsRequest(w, b, id, t) ensures SuitsRequest(w', b, id, t) {
      assert Numbered(w, b, id);
    }
    forall j ensures CallOk(w', j) { assert CallOk(w, j); }
  }

  lemma SendsKeeps(w: World, w': World, c: ConnId, k: TaskId, call: Call)
    requires Requests(w) && Sends(w, w', c, k, call)
    ensures Requests(w')
  {
    SendsKeepsOnce(w, w', c, k, call);
    SendsKeepsSuited(w, w', c, k, call);
    forall j ensures Q.CallSuits(w'.d, j) { assert Q.CallSuits(w.d, j); }
  }

  // The client takes a message: if it responds to a request, the caller no
  // longer waits.
  ghost predicate Hands(w: World, w': World, c: ConnId) {
    && c in w.clients && c in w'.clients && ControlEnabled(w.d, Deliver(c))
    && w'.d == ApplyControl(w.d, Deliver(c)) && w'.clients == w.clients[c := w'.clients[c]] && w'.asked == w.asked
    && var x, x', m := w.clients[c], w'.clients[c], Next(w.d, c);
       && x'.nextId >= x.nextId && x'.up == x.up
       && x'.pending.Keys == x.pending.Keys - (if AnswerTo(m).Some? then {AnswerTo(m).value} else {})
       && (forall id, t :: Waiting(x', id, t) ==> Waiting(x, id, t) || (m == Acquired(id, t) && id in x.pending))
  }

  lemma HandedIs(w: World, w': World, c: ConnId)
    requires Hands(w, w', c)
    ensures w'.d.calls == w.d.calls && w'.d.conns.Keys == w.d.conns.Keys
    ensures forall k, b, id :: Works(w'.d, k, b, id) <==> Works(w.d, k, b, id)
    ensures forall b, j: nat, id :: Said(w'.d, b, j, id) <==> Said(w.d, b, j, id)
    ensures forall b, j: nat, id, t :: Grants(w'.d, b, j, id, t) <==> Grants(w.d, b, j, id, t)
    ensures var x', m := w'.clients[c], Next(w.d, c);
            forall id :: id in x'.answers ==>
              id in w.clients[c].answers || (AnswerTo(m) == Some(id) && id in w.clients[c].pending)
  {
    var x' := w'.clients[c];
    forall id | id in x'.answers ensures id in w.clients[c].answers || AnswerTo(Next(w.d, c)) == Some(id) {
      assert Waiting(x', id, x'.answers[id]);
    }
    assert forall id :: id in x'.answers ==> Waiting(x', id, x'.answers[id]);
  }

  lemma HandsKeepsOnce(w: World, w': World, c: ConnId)
    requires AnswersOnce(w.d) && IdsOk(w) && Expected(w) && Hands(w, w', c)
    ensures AnswersOnce(w'.d) && IdsOk(w') && Expected(w')
  {
    HandedIs(w, w', c);
    var i, m := w.d.conns[c].received, Next(w.d, c);
    assert AnswerTo(m).Some? ==> Said(w.d, c, i, AnswerTo(m).value);
    forall b, j: nat, id, t | Grants(w'.d, b, j, id, t) && w'.d.conns[b].received <= j ensures Expects(w', b, id) {
      assert Grants(w.d, b, j, id, t) && Said(w.d, b, j, id);
    }
    forall k, b, id | Wants(w'.d, k, b, id) ensures Expects(w', b, id) {
      assert Wants(w.d, k, b, id) && Works(w.d, k, b, id);
    }
  }

  lemma HandsKeepsSuited(w: World, w': World, c: ConnId)
    requires Suited(w) && Hands(w, w', c)
    ensures Suited(w')
  {
    HandedIs(w, w', c);
    var i := w.d.conns[c].received;
    forall j ensures CallOk(w', j) { assert CallOk(w, j); }
    forall b, id, t | b in w'.clients && Waiting(w'.clients[b], id, t) ensures SuitsRequest(w', b, id, t) {
      assert Waiting(w.clients[b], id, t) || Grants(w.d, c, i, id, t);
    }
  }

  lemma HandsKeeps(w: World, w': World, c: ConnId)
    requires Requests(w) && Hands(w, w', c)
    ensures Requests(w')
  {
    HandsKeepsOnce(w, w', c);
    HandsKeepsSuited(w, w', c);
    Q.ControlKeeps(w.d, Deliver(c));
  }

  lemma ReceiveKeeps(w: World, c: ConnId, k: TaskId)
    requires Requests(w) && CanMove(w, Receive(c, k))
    ensures Requests(Moved(w, Receive(c, k)))
  {
    if Late(w.clients[c], Next(w.d, c)) {
      LateHands(w, c, k);
      SendsKeeps(w, AskedLate(w, c, k), c, k, Disowning(c, w.clients[c].nextId, Next(w.d, c).token));
      HandsKeeps(AskedLate(w, c, k), Moved(w, Receive(c, k)), c);
    } else {
      PlainHands(w, c, k);
      HandsKeeps(w, Moved(w, Receive(c, k)), c);
    }
  }

  lemma PlainHands(w: World, c: ConnId, k: TaskId)
    requires CanMove(w, Receive(c, k)) && !Late(w.clients[c], Next(w.d, c))
    ensures Hands(w, Moved(w, Receive(c, k)), c)
  {
    TookPlainly(w.clients[c], Next(w.d, c));
  }

  lemma TookPlainly(x: Inner, m: Message)
    requires !Late(x, m)
    ensures var x' := Took(x, m);
            && x'.nextId == x.nextId && x'.up == x.up
            && x'.pending.Keys == x.pending.Keys - (if AnswerTo(m).Some? then {AnswerTo(m).value} else {})
            && (forall id, t :: Waiting(x', id, t) ==> Waiting(x, id, t) || (m == Acquired(id, t) && id in x.pending))
  {
  }

  // Between the request to release and the message taken.
  function AskedLate(w: World, c: ConnId, k: TaskId): World
    requires CanMove(w, Receive(c, k)) && Late(w.clients[c], Next(w.d, c))
  {
    WithClient(AskRelease(w, c, Next(w.d, c).token, k), c, w.clients[c].(nextId := w.clients[c].nextId + 1))
  }

  lemma LateHands(w: World, c: ConnId, k: TaskId)
    requires CanMove(w, Receive(c, k)) && Late(w.clients[c], Next(w.d, c))
    ensures Sends(w, AskedLate(w, c, k), c, k, Disowning(c, w.clients[c].nextId, Next(w.d, c).token))
    ensures Hands(AskedLate(w, c, k), Moved(w, Receive(c, k)), c)
  {
    assert Next(AskedLate(w, c, k).d, c) == Next(w.d, c);
  }

  // A connection new to both sides has no part in any request.
  lemma OpenKeepsOnce(w: World, c: ConnId)
    requires E.ConnsKnown(w.d) && AnswersOnce(w.d) && IdsOk(w) && Expected(w) && CanMove(w, Open(c))
    ensures var w' := Moved(w, Open(c)); AnswersOnce(w'.d) && IdsOk(w') && Expected(w')
  {
    var w' := Moved(w, Open(c));
    OpenIs(w, c);
    forall b, j: nat, id, t | Grants(w'.d, b, j, id, t) && w'.d.conns[b].received <= j ensures Expects(w', b, id) {
      assert Grants(w.d, b, j, id, t);
    }
  }

  lemma OpenIs(w: World, c: ConnId)
    requires E.ConnsKnown(w.d) && CanMove(w, Open(c))
    ensures var d' := Moved(w, Open(c)).d;
            && (forall k, b, id :: Works(d', k, b, id) <==> Works(w.d, k, b, id))
            && (forall k, b, id :: Wants(d', k, b, id) <==> Wants(w.d, k, b, id))
            && (forall b, j: nat, id :: Said(d', b, j, id) <==> Said(w.d, b, j, id))
            && (forall b, j: nat, id, t :: Grants(d', b, j, id, t) <==> Grants(w.d, b, j, id, t))
            && (forall k, id :: !Works(d', k, c, id))
  {
  }

  lemma OpenKeepsSuited(w: World, c: ConnId)
    requires E.ConnsKnown(w.d) && Suited(w) && Q.Wishes(w.d) && CanMove(w, Open(c))
    ensures Suited(Moved(w, Open(c))) && Q.Wishes(Moved(w, Open(c)).d)
  {
    var w' := Moved(w, Open(c));
    OpenIs(w, c);
    forall j ensures CallOk(w', j) { assert CallOk(w, j); }
    Q.ControlKeeps(w.d, Connect(c));
  }

  lemma AttachDataKeeps(w: World, c: ConnId, t: Token)
    requires Requests(w) && CanMove(w, AttachData(c, t))
    ensures Requests(Moved(w, AttachData(c, t)))
  {
    var w' := Moved(w, AttachData(c, t));
    OwnDataKeeps(w, t, Attach);
    ClientKeeps(w.(d := w'.d), w', c);
  }

  lemma DropKeeps(w: World, c: ConnId, t: Token, k: TaskId)
    requires Requests(w) && CanMove(w, Drop(c, t, k))
    ensures Requests(Moved(w, Drop(c, t, k)))
  {
    var w' := Moved(w, Drop(c, t, k));
    if w.clients[c].up { SendsKeeps(w, w', c, k, Disowning(c, w.clients[c].nextId, t)); }
    else { ClientKeeps(w, w', c); }
  }

  lemma QuietKeeps(w: World, move: Move)
    requires Requests(w) && CanMove(w, move)
    requires move.GiveUp? || move.DropAnswer? || move.Resume? || move.HandOut? || move.Read? || move.Lose?
    ensures Requests(Moved(w, move))
  {
    ClientKeeps(w, Moved(w, move), move.c);
  }

  lemma MovedKeepsRequests(w: World, move: Move)
    requires E.ConnsKnown(w.d) && Requests(w) && CanMove(w, move)
    ensures Requests(Moved(w, move))
  {
    match move
    case Open(c) => OpenKeepsOnce(w, c); OpenKeepsSuited(w, c);
    case Call(c, k, wanted, params) =>
      SendsKeeps(w, Moved(w, move), c, k, Acquire(c, w.clients[c].nextId, wanted, params, Looking));
    case Receive(c, k) => ReceiveKeeps(w, c, k);
    case AttachData(c, t) => AttachDataKeeps(w, c, t);
    case Drop(c, t, k) => DropKeeps(w, c, t, k);
    case Own(step) => OwnKeeps(w, step);
    case _ => QuietKeeps(w, move);
  }
}
