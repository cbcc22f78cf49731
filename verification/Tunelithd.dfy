/**
 tunelithd as a transition system: one step per critical section of
 `Daemon`, of a fan-out, of a control connection and of a data connection.

 A step holds the locks the source holds. `Offer` is one `try_send` of a
 fan-out that holds the subscribers of its session (`Sending`), and `EndOne`
 one round of the drain in `end`, which holds the state (`lock`) as well; any
 step that needs a lock waits until it is free. A release drops the receiver of
 a stream (`Unpark`) before it has the subscribers of its session; it keeps the
 state meanwhile, which is not asked of it here.

 A `Session` behind an `Arc` is an entry of `sess` under its number. What a
 stream has been offered, has handed over and has been told of is kept in its
 `Stream` as history, which no step looks at.
 */
module Tunelithd {
  import opened Options

  // The chunks a client may fall behind by before its stream loses data.
  const BACKLOG: nat := 256

  type Chunk = seq<bv8>
  type Token = nat
  type SessionId = nat
  type ConnId = nat
  type TaskId = nat
  type TunerId = nat
  type Params = nat

  // What the daemon sends on a control connection; `id` is that of the request.
  datatype Message =
    | Acquired(id: nat, token: Token)
    | Failed(id: nat)
    | Released(id: nat)
    | DropEvent(token: Token, bytes: nat)
    | StreamEndEvent(token: Token, error: string)

  datatype Subscriber = Subscriber(conn: ConnId, dropped: nat)

  // Why a fan-out left its loop.
  datatype Why = SourceEnded(error: Option<string>) | Stopped | Idle
  {
    function Text(): string {
      if SourceEnded? && error.Some? then error.value else ""
    }
  }

  datatype Phase =
    | Running                                   // waits for a chunk or the stop permit
    | Sending(chunk: Chunk, rest: set<Token>)   // holds the subscribers
    | MaybeIdle                                 // found no subscriber, has yet to ask close_if_idle
    | Ending(why: Why)                          // out of the loop, has yet to enter end
    | Draining(why: Why)                        // in the first section of end, holds the state
    | Closing                                   // waits for the tuner to close
    | Closed                                    // has yet to free the tuner
    | Done
  {
    predicate Joinable() { Running? || Sending? || MaybeIdle? || Ending? }
  }

  // `joined` and `took` are history: whether a client ever joined, and the
  // chunks taken from the tuner.
  datatype Session = Session(params: Params, tuner: TunerId, phase: Phase,
                             subs: map<Token, Subscriber>, stop: bool, joined: bool, took: seq<Chunk>)

  datatype AcquirePhase =
    | Looking
    | Choosing
    | Reserved(tuner: TunerId)
    | Opened(tuner: TunerId)
    | ClosingFailed(tuner: TunerId, busy: bool)
    | Unmarking(tuner: TunerId, busy: bool)
    | Subscribed(token: Token)
    | GivingBack(token: Token)

  // What a request to acquire asks for: a tuner if it names one, and what to tune
  // to.
  datatype Wish = Wish(wanted: Option<TunerId>, params: Params)

  // The tasks `control` spawns, one a request.
  datatype Call =
    | Acquire(conn: ConnId, id: nat, wanted: Option<TunerId>, params: Params, at: AcquirePhase)
    | Disowning(conn: ConnId, id: nat, token: Token)
    | Releasing(conn: ConnId, id: nat, token: Token)
    | Answering(conn: ConnId, message: Message)
  {
    // The tuner the task has marked busy.
    function Holds(): Option<TunerId> {
      if Acquire? && (at.Reserved? || at.Opened? || at.ClosingFailed? || at.Unmarking?)
      then Some(at.tuner) else None
    }

    // Whether the task has the tuner itself open.
    predicate HasOpen() { Acquire? && (at.Opened? || at.ClosingFailed?) }

    // The stream the task is about to keep or to release.
    function Carries(): Option<Token> {
      if Acquire? && (at.Subscribed? || at.GivingBack?) then Some(at.token)
      else if Releasing? then Some(token)
      else None
    }
  }

  // A control connection. `owned` is None once the client has gone, `todo` what
  // is left to release then. Of what has been sent, the client has yet to
  // receive `sent[received..]`, which is in the outgoing channel or the socket.
  datatype Client = Client(owned: Option<set<Token>>, todo: set<Token>, sent: seq<Message>, received: nat)

  datatype Offered = Offered(chunk: Chunk, taken: bool)

  // The channel of a stream, and its history: the chunks its session had taken
  // when it joined, what it was offered, what its data connection took, the
  // bytes of the drops reported, and how it ended.
  datatype Stream = Stream(conn: ConnId, session: SessionId, queue: seq<Chunk>, open: bool,
                           since: nat, offers: seq<Offered>, handed: seq<Chunk>, drops: seq<nat>,
                           ended: Option<string>, attached: bool)

  // A data connection: writing chunks, or about to release the stream.
  datatype DataPhase = Streaming | Finishing

  datatype Daemon = Daemon(
    busy: set<TunerId>,
    closing: set<TunerId>,
    slots: set<TunerId>,             // of the devices: the tuners open_tuner has handed out
    sessions: seq<SessionId>,
    sess: map<SessionId, Session>,
    tokens: map<Token, SessionId>,
    unattached: set<Token>,
    lock: Option<SessionId>,         // the session whose drain holds the state
    calls: map<TaskId, Call>,
    conns: map<ConnId, Client>,
    streams: map<Token, Stream>,
    data: map<Token, DataPhase>)

  const INITIAL := Daemon({}, {}, {}, [], map[], map[], {}, None, map[], map[], map[], map[])

  /* Helpers on the state */

  function Without(xs: seq<SessionId>, s: SessionId): (r: seq<SessionId>)
    ensures forall x :: x in r <==> x in xs && x != s
  {
    if xs == [] then []
    else if xs[0] == s then Without(xs[1..], s)
    else [xs[0]] + Without(xs[1..], s)
  }

  function Send(conns: map<ConnId, Client>, c: ConnId, ms: seq<Message>): map<ConnId, Client> {
    if c in conns then conns[c := conns[c].(sent := conns[c].sent + ms)] else conns
  }

  predicate Wanted(wanted: Option<TunerId>, tuner: TunerId) {
    wanted.None? || wanted.value == tuner
  }

  predicate Shares(d: Daemon, s: SessionId, params: Params, wanted: Option<TunerId>) {
    s in d.sess && d.sess[s].params == params && Wanted(wanted, d.sess[s].tuner)
  }

  // The first running session tuned to `params`, if any.
  function Shared(d: Daemon, sessions: seq<SessionId>, params: Params, wanted: Option<TunerId>): (r: Option<SessionId>)
    ensures r.Some? ==> r.value in sessions && Shares(d, r.value, params, wanted)
    ensures r.None? ==> forall s :: s in sessions ==> !Shares(d, s, params, wanted)
  {
    if sessions == [] then None
    else if Shares(d, sessions[0], params, wanted) then Some(sessions[0])
    else Shared(d, sessions[1..], params, wanted)
  }

  // The drops flush_drops reports, and its events.
  function Flushed(sub: Subscriber): seq<nat> {
    if sub.dropped > 0 then [sub.dropped] else []
  }

  function DropEvents(t: Token, sub: Subscriber): seq<Message> {
    if sub.dropped > 0 then [DropEvent(t, sub.dropped)] else []
  }

  // Lets go of the receiver of `t` if it is parked for a data connection.
  function WithoutReceiver(d: Daemon, t: Token): map<Token, Stream> {
    if t in d.unattached && t in d.streams then d.streams[t := d.streams[t].(open := false)] else d.streams
  }

  predicate SubscribersFree(d: Daemon, s: SessionId) {
    s in d.sess && !d.sess[s].phase.Sending?
  }

  function WithSession(d: Daemon, s: SessionId, x: Session): Daemon {
    d.(sess := d.sess[s := x])
  }

  function At(d: Daemon, s: SessionId, phase: Phase): Daemon
    requires s in d.sess
  {
    WithSession(d, s, d.sess[s].(phase := phase))
  }

  function WithCall(d: Daemon, k: TaskId, call: Call): Daemon {
    d.(calls := d.calls[k := call])
  }

  /* subscribe and release, on which several steps rest */

  // The token of a new stream; u64 values chosen at random never come again.
  predicate Fresh(d: Daemon, t: Token) {
    t != 0 && t !in d.tokens && t !in d.streams
  }

  function Subscribe(d: Daemon, s: SessionId, c: ConnId, t: Token): Daemon
    requires s in d.sess
  {
    var x := d.sess[s];
    d.(sess := d.sess[s := x.(subs := x.subs[t := Subscriber(c, 0)], joined := true)],
       tokens := d.tokens[t := s],
       unattached := d.unattached + {t},
       streams := d.streams[t := Stream(c, s, [], true, |x.took|, [], [], [], None, false)])
  }

  predicate CanRelease(d: Daemon, t: Token) {
    d.lock.None? && (t in d.tokens ==> SubscribersFree(d, d.tokens[t]))
  }

  // Whether releasing `t` leaves its session without a client.
  predicate Empties(d: Daemon, t: Token) {
    t in d.tokens && d.tokens[t] in d.sess && d.sess[d.tokens[t]].subs - {t} == map[]
  }

  function Release(d: Daemon, t: Token): Daemon
    requires CanRelease(d, t)
  {
    d.(unattached := d.unattached - {t},
       streams := WithoutReceiver(d, t),
       tokens := d.tokens - {t},
       sessions := if Empties(d, t) then Without(d.sessions, d.tokens[t]) else d.sessions,
       sess := if t in d.tokens then d.sess[d.tokens[t] := Left(d, t)] else d.sess)
  }

  // The session of `t` once it has gone, told to stop if no client is left.
  function Left(d: Daemon, t: Token): Session
    requires t in d.tokens && d.tokens[t] in d.sess
  {
    var x := d.sess[d.tokens[t]];
    x.(subs := x.subs - {t}, stop := x.stop || Empties(d, t))
  }

  /* The steps */

  // Of control connections, and of the tasks that release a stream or answer.
  datatype ControlStep =
    | Connect(c: ConnId)
    | RequestAcquire(k: TaskId, c: ConnId, id: nat, wanted: Option<TunerId>, params: Params)
    | RequestRelease(k: TaskId, c: ConnId, id: nat, t: Token)
    | Disown(k: TaskId)
    | ReleaseAsked(k: TaskId)
    | Answer(k: TaskId)
    | Deliver(c: ConnId)
    | Leave(c: ConnId)
    | ReleaseLeft(c: ConnId, t: Token)
    | Unpark(t: Token)

  // Of a task that acquires a stream.
  datatype AcquireStep =
    | NothingShared
    | NoToken
    | Join(t: Token)
    | Reserve(tuner: TunerId)
    | NoneFree
    | OpenTuner
    | OpenFailed(busy: bool)
    | TuneFailed(busy: bool)
    | CloseFailed
    | Unmark
    | Tuned(s: SessionId, t: Token)
    | TunedNoToken(s: SessionId)
    | Keep
    | KeepTooLate
    | GiveBack

  // Of fan-outs.
  datatype SessionStep =
    | TakeChunk(chunk: Chunk)
    | Offer(t: Token)
    | AllOffered
    | SourceEnds(error: Option<string>)
    | Stop
    | CloseIfIdle
    | EndBegin
    | EndOne(t: Token)
    | EndUnlock
    | CloseTuner
    | EndFinish

  // Of data connections.
  datatype DataStep = Attach | HandOver | HangUp | ReleaseData

  datatype Step =
    | Control(control: ControlStep)
    | Acquiring(k: TaskId, acquire: AcquireStep)
    | FanOut(s: SessionId, fanOut: SessionStep)
    | Data(t: Token, data: DataStep)

  predicate InAcquire(d: Daemon, k: TaskId) {
    k in d.calls && d.calls[k].Acquire?
  }

  predicate CanLook(d: Daemon, k: TaskId) {
    InAcquire(d, k) && d.calls[k].at.Looking? && d.lock.None?
  }

  // The session an acquire that looks for one to share finds.
  function SharedFor(d: Daemon, k: TaskId): Option<SessionId>
    requires InAcquire(d, k)
  {
    Shared(d, d.sessions, d.calls[k].params, d.calls[k].wanted)
  }

  predicate CanStart(d: Daemon, k: TaskId, s: SessionId) {
    InAcquire(d, k) && d.calls[k].at.Opened? && d.lock.None? && s !in d.sess
  }

  predicate CanKeep(d: Daemon, k: TaskId) {
    InAcquire(d, k) && d.calls[k].at.Subscribed? && d.calls[k].conn in d.conns
  }

  // Whether something is about to release `t`.
  predicate IsReleased(d: Daemon, t: Token) {
    || (exists k :: k in d.calls && Releases(d.calls[k], t))
    || (exists c :: c in d.conns && t in d.conns[c].todo)
  }

  predicate Releases(call: Call, t: Token) {
    || (call.Releasing? && call.token == t)
    || (call.Acquire? && call.at.GivingBack? && call.at.token == t)
  }

  predicate ControlEnabled(d: Daemon, step: ControlStep) {
    match step
    case Connect(c) => c !in d.conns
    case RequestAcquire(k, c, _, _, _) => k !in d.calls && c in d.conns && d.conns[c].owned.Some?
    case RequestRelease(k, c, _, _) => k !in d.calls && c in d.conns && d.conns[c].owned.Some?
    case Disown(k) => k in d.calls && d.calls[k].Disowning? && d.calls[k].conn in d.conns
    case ReleaseAsked(k) => k in d.calls && d.calls[k].Releasing? && CanRelease(d, d.calls[k].token)
    case Answer(k) => k in d.calls && d.calls[k].Answering?
    case Deliver(c) => c in d.conns && d.conns[c].received < |d.conns[c].sent|
    case Leave(c) => c in d.conns && d.conns[c].owned.Some?
    case ReleaseLeft(c, t) => c in d.conns && t in d.conns[c].todo && CanRelease(d, t)
    case Unpark(t) => d.lock.None? && t in d.unattached && t in d.streams && IsReleased(d, t)
  }

  predicate AcquireEnabled(d: Daemon, k: TaskId, step: AcquireStep) {
    InAcquire(d, k) &&
    match step
    case NothingShared => CanLook(d, k) && SharedFor(d, k).None?
    case NoToken => CanLook(d, k) && SharedFor(d, k).Some? && SubscribersFree(d, SharedFor(d, k).value)
    case Join(t) =>
      CanLook(d, k) && SharedFor(d, k).Some? && SubscribersFree(d, SharedFor(d, k).value) && Fresh(d, t)
    case Reserve(tuner) =>
      && d.calls[k].at.Choosing? && d.lock.None?
      && Wanted(d.calls[k].wanted, tuner) && tuner !in d.closing && tuner !in d.busy
    case NoneFree => d.calls[k].at.Choosing?
    case OpenTuner => d.calls[k].at.Reserved? && d.calls[k].at.tuner !in d.slots
    case OpenFailed(_) => d.calls[k].at.Reserved?
    case TuneFailed(_) => d.calls[k].at.Opened?
    case CloseFailed => d.calls[k].at.ClosingFailed?
    case Unmark => d.calls[k].at.Unmarking? && d.lock.None?
    case Tuned(s, t) => CanStart(d, k, s) && Fresh(d, t)
    case TunedNoToken(s) => CanStart(d, k, s)
    case Keep => CanKeep(d, k) && d.conns[d.calls[k].conn].owned.Some?
    case KeepTooLate => CanKeep(d, k) && d.conns[d.calls[k].conn].owned.None?
    case GiveBack => d.calls[k].at.GivingBack? && CanRelease(d, d.calls[k].at.token)
  }

  predicate FanOutEnabled(d: Daemon, s: SessionId, step: SessionStep) {
    s in d.sess &&
    match step
    case TakeChunk(_) => d.sess[s].phase.Running?
    case Offer(t) =>
      && d.sess[s].phase.Sending? && t in d.sess[s].phase.rest
      && t in d.sess[s].subs && t in d.streams
    case AllOffered => d.sess[s].phase.Sending? && d.sess[s].phase.rest == {}
    case SourceEnds(_) => d.sess[s].phase.Running?
    case Stop => d.sess[s].phase.Running? && d.sess[s].stop
    case CloseIfIdle => d.sess[s].phase.MaybeIdle? && d.lock.None?
    case EndBegin => d.sess[s].phase.Ending? && d.lock.None?
    case EndOne(t) => d.sess[s].phase.Draining? && t in d.sess[s].subs && t in d.streams
    case EndUnlock => d.sess[s].phase.Draining? && d.sess[s].subs == map[]
    case CloseTuner => d.sess[s].phase.Closing?
    case EndFinish => d.sess[s].phase.Closed? && d.lock.None?
  }

  predicate DataEnabled(d: Daemon, t: Token, step: DataStep) {
    match step
    case Attach => d.lock.None? && t in d.unattached && t in d.streams
    case HandOver => t in d.data && d.data[t].Streaming? && t in d.streams && d.streams[t].queue != []
    case HangUp => t in d.data && d.data[t].Streaming? && t in d.streams
    case ReleaseData => t in d.data && d.data[t].Finishing? && CanRelease(d, t)
  }

  predicate Enabled(d: Daemon, step: Step) {
    match step
    case Control(control) => ControlEnabled(d, control)
    case Acquiring(k, acquire) => AcquireEnabled(d, k, acquire)
    case FanOut(s, fanOut) => FanOutEnabled(d, s, fanOut)
    case Data(t, data) => DataEnabled(d, t, data)
  }

  // What becomes of a chunk offered to a channel.
  datatype Outcome = Taken | Full | Gone

  function TrySend(stream: Stream): Outcome {
    if !stream.open then Gone else if |stream.queue| < BACKLOG then Taken else Full
  }

  // The subscribers after one try_send of `chunk` to that of `t`.
  function AfterTrySend(subs: map<Token, Subscriber>, t: Token, outcome: Outcome, chunk: Chunk): map<Token, Subscriber>
    requires t in subs
  {
    match outcome
    case Gone => subs - {t}
    case Taken => subs[t := subs[t].(dropped := 0)]
    case Full => subs[t := subs[t].(dropped := subs[t].dropped + |chunk|)]
  }

  function StreamAfter(stream: Stream, sub: Subscriber, outcome: Outcome, chunk: Chunk): Stream {
    match outcome
    case Gone => stream
    case Taken => stream.(queue := stream.queue + [chunk],
                          offers := stream.offers + [Offered(chunk, true)],
                          drops := stream.drops + Flushed(sub))
    case Full => stream.(offers := stream.offers + [Offered(chunk, false)])
  }

  // One try_send of a fan-out, and flush_drops when it goes through.
  function OfferTo(d: Daemon, s: SessionId, t: Token): Daemon
    requires FanOutEnabled(d, s, Offer(t))
  {
    var x := d.sess[s];
    var sub := x.subs[t];
    var outcome := TrySend(d.streams[t]);
    d.(sess := d.sess[s := x.(phase := Sending(x.phase.chunk, x.phase.rest - {t}),
                              subs := AfterTrySend(x.subs, t, outcome, x.phase.chunk))],
       conns := Send(d.conns, sub.conn, if outcome.Taken? then DropEvents(t, sub) else []),
       streams := d.streams[t := StreamAfter(d.streams[t], sub, outcome, x.phase.chunk)])
  }

  // Lets go of the receivers of `gone`.
  function WithoutReceivers(streams: map<Token, Stream>, gone: set<Token>): map<Token, Stream> {
    map t | t in streams :: if t in gone then streams[t].(open := false) else streams[t]
  }

  function TokensOf(tokens: map<Token, SessionId>, s: SessionId): set<Token> {
    set t | t in tokens && tokens[t] == s
  }

  // The state once `end` has taken the streams of `s` off it.
  function Purge(d: Daemon, s: SessionId): Daemon
    requires s in d.sess && d.sess[s].phase.Ending?
  {
    var ours := TokensOf(d.tokens, s);
    d.(sessions := Without(d.sessions, s),
       closing := d.closing + {d.sess[s].tuner},
       tokens := d.tokens - ours,
       unattached := d.unattached - ours,
       streams := WithoutReceivers(d.streams, ours * d.unattached),
       sess := d.sess[s := d.sess[s].(phase := Draining(d.sess[s].phase.why))],
       lock := Some(s))
  }

  function Farewell(d: Daemon, s: SessionId, t: Token): Daemon
    requires FanOutEnabled(d, s, EndOne(t))
  {
    var x := d.sess[s];
    var sub := x.subs[t];
    var text := x.phase.why.Text();
    d.(sess := d.sess[s := x.(subs := x.subs - {t})],
       conns := Send(d.conns, sub.conn, DropEvents(t, sub) + [StreamEndEvent(t, text)]),
       streams := d.streams[t := d.streams[t].(drops := d.streams[t].drops + Flushed(sub),
                                               ended := Some(text))])
  }

  function Started(d: Daemon, k: TaskId, s: SessionId): Daemon
    requires CanStart(d, k, s)
  {
    d.(sess := d.sess[s := Session(d.calls[k].params, d.calls[k].at.tuner, Running, map[], false, false, [])],
       sessions := d.sessions + [s])
  }

  // What an acquire that gave a tuner up turns to.
  function AfterUnmark(call: Call): Call
    requires call.Acquire? && call.at.Unmarking?
  {
    if call.at.busy && call.wanted.None? then call.(at := Choosing) else Answering(call.conn, Failed(call.id))
  }

  function Disowned(client: Client, t: Token): Client {
    client.(owned := if client.owned.None? then None else Some(client.owned.value - {t}))
  }

  function ApplyControl(d: Daemon, step: ControlStep): Daemon
    requires ControlEnabled(d, step)
  {
    match step
    case Connect(c) => d.(conns := d.conns[c := Client(Some({}), {}, [], 0)])
    case RequestAcquire(k, c, id, wanted, params) => WithCall(d, k, Acquire(c, id, wanted, params, Looking))
    case RequestRelease(k, c, id, t) => WithCall(d, k, Disowning(c, id, t))
    case Disown(k) =>
      var call := d.calls[k];
      WithCall(d.(conns := d.conns[call.conn := Disowned(d.conns[call.conn], call.token)]),
               k, Releasing(call.conn, call.id, call.token))
    case ReleaseAsked(k) =>
      var call := d.calls[k];
      WithCall(Release(d, call.token), k, Answering(call.conn, Released(call.id)))
    case Answer(k) =>
      d.(calls := d.calls - {k}, conns := Send(d.conns, d.calls[k].conn, [d.calls[k].message]))
    case Deliver(c) => d.(conns := d.conns[c := d.conns[c].(received := d.conns[c].received + 1)])
    case Leave(c) => d.(conns := d.conns[c := d.conns[c].(owned := None, todo := d.conns[c].owned.value)])
    case ReleaseLeft(c, t) =>
      var d' := Release(d, t);
      d'.(conns := d'.conns[c := d'.conns[c].(todo := d'.conns[c].todo - {t})])
    case Unpark(t) => d.(unattached := d.unattached - {t}, streams := WithoutReceiver(d, t))
  }

  function ApplyAcquire(d: Daemon, k: TaskId, step: AcquireStep): Daemon
    requires AcquireEnabled(d, k, step)
  {
    match step
    case NothingShared => WithCall(d, k, d.calls[k].(at := Choosing))
    case NoToken => WithCall(d, k, Answering(d.calls[k].conn, Failed(d.calls[k].id)))
    case Join(t) =>
      WithCall(Subscribe(d, SharedFor(d, k).value, d.calls[k].conn, t), k, d.calls[k].(at := Subscribed(t)))
    case Reserve(tuner) =>
      WithCall(d.(busy := d.busy + {tuner}), k, d.calls[k].(at := Reserved(tuner)))
    case NoneFree => WithCall(d, k, Answering(d.calls[k].conn, Failed(d.calls[k].id)))
    case OpenTuner =>
      WithCall(d.(slots := d.slots + {d.calls[k].at.tuner}), k, d.calls[k].(at := Opened(d.calls[k].at.tuner)))
    case OpenFailed(busy) => WithCall(d, k, d.calls[k].(at := Unmarking(d.calls[k].at.tuner, busy)))
    case TuneFailed(busy) => WithCall(d, k, d.calls[k].(at := ClosingFailed(d.calls[k].at.tuner, busy)))
    case CloseFailed =>
      var at := d.calls[k].at;
      WithCall(d.(slots := d.slots - {at.tuner}), k, d.calls[k].(at := Unmarking(at.tuner, at.busy)))
    case Unmark => WithCall(d.(busy := d.busy - {d.calls[k].at.tuner}), k, AfterUnmark(d.calls[k]))
    case Tuned(s, t) =>
      WithCall(Subscribe(Started(d, k, s), s, d.calls[k].conn, t), k, d.calls[k].(at := Subscribed(t)))
    case TunedNoToken(s) => WithCall(Started(d, k, s), k, Answering(d.calls[k].conn, Failed(d.calls[k].id)))
    case Keep =>
      var call := d.calls[k];
      var client := d.conns[call.conn];
      WithCall(d.(conns := d.conns[call.conn := client.(owned := Some(client.owned.value + {call.at.token}))]),
               k, Answering(call.conn, Acquired(call.id, call.at.token)))
    case KeepTooLate => WithCall(d, k, d.calls[k].(at := GivingBack(d.calls[k].at.token)))
    case GiveBack =>
      var call := d.calls[k];
      WithCall(Release(d, call.at.token), k, Answering(call.conn, Acquired(call.id, call.at.token)))
  }

  function ApplyFanOut(d: Daemon, s: SessionId, step: SessionStep): Daemon
    requires FanOutEnabled(d, s, step)
  {
    match step
    case TakeChunk(chunk) =>
      WithSession(d, s, d.sess[s].(phase := Sending(chunk, d.sess[s].subs.Keys), took := d.sess[s].took + [chunk]))
    case Offer(t) => OfferTo(d, s, t)
    case AllOffered => At(d, s, if d.sess[s].subs == map[] then MaybeIdle else Running)
    case SourceEnds(error) => At(d, s, Ending(SourceEnded(error)))
    case Stop => WithSession(d, s, d.sess[s].(phase := Ending(Stopped), stop := false))
    case CloseIfIdle =>
      var idle := d.sess[s].subs == map[];
      At(d, s, if idle then Ending(Idle) else Running)
        .(sessions := if idle then Without(d.sessions, s) else d.sessions)
    case EndBegin => Purge(d, s)
    case EndOne(t) => Farewell(d, s, t)
    case EndUnlock => At(d, s, Closing).(lock := None)
    case CloseTuner => At(d, s, Closed).(slots := d.slots - {d.sess[s].tuner})
    case EndFinish =>
      At(d, s, Done).(busy := d.busy - {d.sess[s].tuner}, closing := d.closing - {d.sess[s].tuner})
  }

  function ApplyData(d: Daemon, t: Token, step: DataStep): Daemon
    requires DataEnabled(d, t, step)
  {
    match step
    case Attach =>
      d.(unattached := d.unattached - {t},
         data := d.data[t := Streaming],
         streams := d.streams[t := d.streams[t].(attached := true)])
    case HandOver =>
      var x := d.streams[t];
      d.(streams := d.streams[t := x.(queue := x.queue[1..], handed := x.handed + [x.queue[0]])])
    case HangUp =>
      d.(data := d.data[t := Finishing], streams := d.streams[t := d.streams[t].(open := false)])
    case ReleaseData =>
      var d' := Release(d, t);
      d'.(data := d'.data - {t})
  }

  function Apply(d: Daemon, step: Step): Daemon
    requires Enabled(d, step)
  {
    match step
    case Control(control) => ApplyControl(d, control)
    case Acquiring(k, acquire) => ApplyAcquire(d, k, acquire)
    case FanOut(s, fanOut) => ApplyFanOut(d, s, fanOut)
    case Data(t, data) => ApplyData(d, t, data)
  }

  /* Runs */

  // The state `steps` lead to from `d`, if each is enabled in turn.
  function After(d: Daemon, steps: seq<Step>): Option<Daemon>
    decreases |steps|
  {
    if steps == [] then Some(d)
    else if Enabled(d, steps[0]) then After(Apply(d, steps[0]), steps[1..])
    else None
  }

  ghost predicate Reachable(d: Daemon) {
    exists steps :: After(INITIAL, steps) == Some(d)
  }
}
