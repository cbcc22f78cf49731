/** A client reads no more of a stream than was written to its data connection. */
module EndToEndReads {
  import opened Tunelithd
  import opened TunelithClient
  import opened EndToEnd
  import opened EndToEndLinks
  import Runs = TunelithdRuns

  predicate ReadOk(w: World, c: ConnId, t: Token) {
    c in w.clients && t in w.clients[c].read ==>
      t in w.d.streams && w.clients[c].read[t] <= |w.d.streams[t].handed|
  }

  ghost predicate Reads(w: World) {
    forall c, t :: ReadOk(w, c, t)
  }

  // No stream goes, nor anything written to its data connection.
  ghost predicate Handing(d: Daemon, d': Daemon) {
    forall t :: t in d.streams ==> t in d'.streams && |d.streams[t].handed| <= |d'.streams[t].handed|
  }

  lemma ControlHands(d: Daemon, step: ControlStep)
    requires ControlEnabled(d, step)
    ensures Handing(d, ApplyControl(d, step))
  {
  }

  lemma AcquireHands(d: Daemon, k: TaskId, step: AcquireStep)
    requires AcquireEnabled(d, k, step)
    ensures Handing(d, ApplyAcquire(d, k, step))
  {
  }

  lemma FanOutHands(d: Daemon, s: SessionId, step: SessionStep)
    requires FanOutEnabled(d, s, step)
    ensures Handing(d, ApplyFanOut(d, s, step))
  {
  }

  lemma DataHands(d: Daemon, t: Token, step: DataStep)
    requires DataEnabled(d, t, step)
    ensures Handing(d, ApplyData(d, t, step))
  {
  }

  lemma StepHands(d: Daemon, step: Step)
    requires Enabled(d, step)
    ensures Handing(d, Apply(d, step))
  {
    match step
    case Control(control) => ControlHands(d, control);
    case Acquiring(k, acquire) => AcquireHands(d, k, acquire);
    case FanOut(s, fanOut) => FanOutHands(d, s, fanOut);
    case Data(t, data) => DataHands(d, t, data);
  }

  // The clients read no more, of streams all there.
  lemma SameReadsKeep(w: World, w': World)
    requires Reads(w) && Handing(w.d, w'.d)
    requires forall c, t :: c in w'.clients && t in w'.clients[c].read ==>
               c in w.clients && t in w.clients[c].read && w'.clients[c].read[t] == w.clients[c].read[t]
    ensures Reads(w')
  {
    forall c, t ensures ReadOk(w', c, t) { assert ReadOk(w, c, t); }
  }

  lemma ReadKeeps(w: World, c: ConnId, t: Token)
    requires Reads(w) && CanMove(w, Read(c, t))
    ensures Reads(Moved(w, Read(c, t)))
  {
    forall b, u ensures ReadOk(Moved(w, Read(c, t)), b, u) { assert ReadOk(w, b, u); }
  }

  lemma ResumeKeepsReads(w: World, c: ConnId, id: nat)
    requires HeardOnce(w.d) && Links(w) && Reads(w) && CanMove(w, Resume(c, id))
    ensures Reads(Moved(w, Resume(c, id)))
  {
    var t := w.clients[c].answers[id];
    assert Waiting(w.clients[c], id, t) && LinkOk(w, c, t) && HeardOk(w.d, c, t);
    forall b, u ensures ReadOk(Moved(w, Resume(c, id)), b, u) { assert ReadOk(w, b, u); }
  }

  lemma TookReads(x: Inner, m: Message)
    ensures Took(x, m).read == x.read
  {
  }

  lemma ReceivedIs(w: World, c: ConnId, k: TaskId)
    requires CanMove(w, Receive(c, k))
    ensures var w' := Moved(w, Receive(c, k));
            w'.clients == w.clients[c := Took(w.clients[c], Next(w.d, c))] && w'.d.streams == w.d.streams
  {
  }

  lemma ReceiveKeepsReads(w: World, c: ConnId, k: TaskId)
    requires Reads(w) && CanMove(w, Receive(c, k))
    ensures Reads(Moved(w, Receive(c, k)))
  {
    TookReads(w.clients[c], Next(w.d, c));
    ReceivedIs(w, c, k);
    SameReadsKeep(w, Moved(w, Receive(c, k)));
  }

  lemma OwnKeepsReads(w: World, step: Step)
    requires Reads(w) && CanMove(w, Own(step))
    ensures Reads(Moved(w, Own(step)))
  {
    StepHands(w.d, step);
    SameReadsKeep(w, Moved(w, Own(step)));
  }

  lemma AttachKeepsReads(w: World, c: ConnId, t: Token)
    requires Reads(w) && CanMove(w, AttachData(c, t))
    ensures Reads(Moved(w, AttachData(c, t)))
  {
    DataHands(w.d, t, Attach);
    SameReadsKeep(w, Moved(w, AttachData(c, t)));
  }

  lemma OpenKeepsReads(w: World, c: ConnId)
    requires Reads(w) && CanMove(w, Open(c))
    ensures Reads(Moved(w, Open(c)))
  {
    SameReadsKeep(w, Moved(w, Open(c)));
  }

  lemma DropKeepsReads(w: World, c: ConnId, t: Token, k: TaskId)
    requires Reads(w) && CanMove(w, Drop(c, t, k))
    ensures Reads(Moved(w, Drop(c, t, k)))
  {
    SameReadsKeep(w, Moved(w, Drop(c, t, k)));
  }

  lemma OtherKeepsReads(w: World, move: Move)
    requires Reads(w) && CanMove(w, move)
    requires move.Call? || move.GiveUp? || move.DropAnswer? || move.HandOut? || move.Lose?
    ensures Reads(Moved(w, move))
  {
    SameReadsKeep(w, Moved(w, move));
  }

  lemma MoveKeepsReads(w: World, move: Move)
    requires HeardOnce(w.d) && Links(w) && Reads(w) && CanMove(w, move)
    ensures Reads(Moved(w, move))
  {
    match move
    case Read(c, t) => ReadKeeps(w, c, t);
    case Resume(c, id) => ResumeKeepsReads(w, c, id);
    case Receive(c, k) => ReceiveKeepsReads(w, c, k);
    case Own(step) => OwnKeepsReads(w, step);
    case AttachData(c, t) => AttachKeepsReads(w, c, t);
    case Open(c) => OpenKeepsReads(w, c);
    case Drop(c, t, k) => DropKeepsReads(w, c, t, k);
    case _ => OtherKeepsReads(w, move);
  }

  lemma MovedKeepsReads(w: World, move: Move)
    requires Runs.Inv(w.d) && Links(w) && Reads(w) && CanMove(w, move)
    ensures Reads(Moved(w, move))
  {
    HeardIsTold(w.d);
    MoveKeepsReads(w, move);
  }
}
