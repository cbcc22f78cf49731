/**
 tunelithd and its clients together: of a stream `acquire` hands out, no event
 is lost, and a read that meets the end of the data finds how it came.

 The clients are those of the `tunelith` crate: a token is shown to attach and
 asked to be released by the client it was told to alone. A request reaches
 the daemon with the move that sends it.
 */
module EndToEnd {
  import opened Options
  import opened Tunelithd
  import opened TunelithClient
  import Runs = TunelithdRuns

  // What tokens were asked to be released, what each request asked for, and which
  // tokens came in a response its caller was given but never took, is history.
  datatype World = World(d: Daemon, clients: map<ConnId, Inner>, released: set<Token>,
                         asked: map<(ConnId, nat), Wish>, dropped: set<Token>)

  const START := World(INITIAL, map[], {}, map[], {})

  datatype Move =
    | Open(c: ConnId)
    | Call(c: ConnId, k: TaskId, wanted: Option<TunerId>, params: Params)
    | GiveUp(c: ConnId, id: nat)
    | Receive(c: ConnId, k: TaskId)
    | DropAnswer(c: ConnId, id: nat)
    | Resume(c: ConnId, id: nat)
    | AttachData(c: ConnId, t: Token)
    | HandOut(c: ConnId, t: Token)
    | Drop(c: ConnId, t: Token, k: TaskId)
    | Read(c: ConnId, t: Token)
    | Lose(c: ConnId)
    | Own(step: Step)

  predicate Knows(w: World, c: ConnId) {
    c in w.clients && c in w.d.conns
  }

  // Whether its client has a data connection up for `t`.
  predicate Connected(w: World, t: Token) {
    && t in w.d.streams && w.d.streams[t].conn in w.clients
    && var x := w.clients[w.d.streams[t].conn];
       t in x.held && !x.held[t].Registered?
  }

  // The channel has no sender and no chunk left: the data task is done.
  predicate Drained(d: Daemon, t: Token) {
    && t in d.streams && d.streams[t].queue == []
    && (d.streams[t].session in d.sess ==> t !in d.sess[d.streams[t].session].subs)
  }

  // The steps the daemon takes of itself. It finds a control connection ended
  // only once it is, and a data connection only once its client let go of it
  // or there is nothing more to write.
  predicate Allowed(w: World, step: Step) {
    match step
    case Control(Leave(c)) => c in w.clients && !w.clients[c].up
    case Control(control) =>
      control.Disown? || control.ReleaseAsked? || control.Answer? || control.ReleaseLeft? || control.Unpark?
    case Data(t, HangUp) => Drained(w.d, t) || !Connected(w, t)
    case Data(_, data) => !data.Attach?
    case _ => true
  }

  // The next message of the connection.
  function Next(d: Daemon, c: ConnId): Message
    requires c in d.conns && d.conns[c].received < |d.conns[c].sent|
  {
    d.conns[c].sent[d.conns[c].received]
  }

  predicate CanAskRelease(w: World, c: ConnId, k: TaskId) {
    Knows(w, c) && k !in w.d.calls && w.d.conns[c].owned.Some?
  }

  predicate CanMove(w: World, move: Move) {
    match move
    case Open(c) => c !in w.clients && c !in w.d.conns
    case Call(c, k, _, _) => CanAskRelease(w, c, k) && w.clients[c].up
    case GiveUp(c, id) => c in w.clients && id in w.clients[c].pending
    case Receive(c, k) =>
      && Knows(w, c) && w.clients[c].up && w.d.conns[c].received < |w.d.conns[c].sent|
      && (Late(w.clients[c], Next(w.d, c)) ==> CanAskRelease(w, c, k))
    case DropAnswer(c, id) => c in w.clients && id in w.clients[c].answers
    case Resume(c, id) => c in w.clients && id in w.clients[c].answers
    case AttachData(c, t) =>
      && Knows(w, c) && t in w.clients[c].held && w.clients[c].held[t].Registered?
      && DataEnabled(w.d, t, Attach)
    case HandOut(c, t) => c in w.clients && t in w.clients[c].held && w.clients[c].held[t].Attached?
    case Drop(c, t, k) =>
      c in w.clients && t in w.clients[c].held && (w.clients[c].up ==> CanAskRelease(w, c, k))
    case Read(c, t) =>
      && c in w.clients && t in w.clients[c].held && w.clients[c].held[t].Handed? && t in w.clients[c].read
      && t in w.d.streams && w.clients[c].read[t] < |w.d.streams[t].handed|
    case Lose(c) => c in w.clients && w.clients[c].up
    case Own(step) => Enabled(w.d, step) && Allowed(w, step)
  }

  function WithClient(w: World, c: ConnId, x: Inner): World {
    w.(clients := w.clients[c := x])
  }

  // Asks for `t` to be released.
  function AskRelease(w: World, c: ConnId, t: Token, k: TaskId): World
    requires CanAskRelease(w, c, k)
  {
    w.(d := ApplyControl(w.d, RequestRelease(k, c, w.clients[c].nextId, t)), released := w.released + {t})
  }

  function Received(w: World, c: ConnId, k: TaskId): World
    requires CanMove(w, Receive(c, k))
  {
    var x := w.clients[c];
    var m := Next(w.d, c);
    var w' := if Late(x, m) then AskRelease(w, c, m.token, k) else w;
    w'.(d := ApplyControl(w'.d, Deliver(c)), clients := w.clients[c := Took(x, m)])
  }

  function Moved(w: World, move: Move): World
    requires CanMove(w, move)
  {
    match move
    case Open(c) => w.(d := ApplyControl(w.d, Connect(c)), clients := w.clients[c := NEWLY])
    case Call(c, k, wanted, params) =>
      var x := w.clients[c];
      w.(d := ApplyControl(w.d, RequestAcquire(k, c, x.nextId, wanted, params)),
         clients := w.clients[c := x.(nextId := x.nextId + 1, pending := x.pending[x.nextId := true])],
         asked := w.asked[(c, x.nextId) := Wish(wanted, params)])
    case GiveUp(c, id) => WithClient(w, c, w.clients[c].(pending := w.clients[c].pending[id := false]))
    case Receive(c, k) => Received(w, c, k)
    case DropAnswer(c, id) =>
      WithClient(w, c, w.clients[c].(answers := w.clients[c].answers - {id}))
        .(dropped := w.dropped + {w.clients[c].answers[id]})
    case Resume(c, id) => WithClient(w, c, Resumed(w.clients[c], id))
    case AttachData(c, t) =>
      WithClient(w.(d := ApplyData(w.d, t, Attach)), c, w.clients[c].(held := w.clients[c].held[t := Attached]))
    case HandOut(c, t) => WithClient(w, c, w.clients[c].(held := w.clients[c].held[t := Handed]))
    case Drop(c, t, k) =>
      WithClient(if w.clients[c].up then AskRelease(w, c, t, k) else w, c, LetGo(w.clients[c], t))
    case Read(c, t) => WithClient(w, c, w.clients[c].(read := w.clients[c].read[t := w.clients[c].read[t] + 1]))
    case Lose(c) => WithClient(w, c, Lost(w.clients[c]))
    case Own(step) => w.(d := Apply(w.d, step))
  }

  function After(w: World, moves: seq<Move>): Option<World>
    decreases |moves|
  {
    if moves == [] then Some(w)
    else if CanMove(w, moves[0]) then After(Moved(w, moves[0]), moves[1..])
    else None
  }

  ghost predicate Reachable(w: World) {
    exists moves :: After(START, moves) == Some(w)
  }

  /* The daemon's side is that of TunelithdRuns */

  lemma MovedKeepsInv(w: World, move: Move)
    requires Runs.Inv(w.d) && CanMove(w, move)
    ensures Runs.Inv(Moved(w, move).d)
  {
    match move
    case Open(c) => Runs.ControlKeeps(w.d, Connect(c));
    case Call(c, k, wanted, params) =>
      Runs.ControlKeeps(w.d, RequestAcquire(k, c, w.clients[c].nextId, wanted, params));
    case Receive(c, k) =>
      var m := Next(w.d, c);
      if Late(w.clients[c], m) {
        Runs.ControlKeeps(w.d, RequestRelease(k, c, w.clients[c].nextId, m.token));
        Runs.ControlKeeps(AskRelease(w, c, m.token, k).d, Deliver(c));
      } else {
        Runs.ControlKeeps(w.d, Deliver(c));
      }
    case AttachData(c, t) => Runs.DataKeeps(w.d, t, Attach);
    case Drop(c, t, k) =>
      if w.clients[c].up { Runs.ControlKeeps(w.d, RequestRelease(k, c, w.clients[c].nextId, t)); }
    case Own(step) => Runs.StepKeeps(w.d, step);
    case _ =>
  }
}
