/**
 The tuner of tunelith-wasm: reads that `tune` and `close` abort. Each step is
 what runs between two awaits, calls interleaving at any of them.
 */
module WasmTuner {
  import opened Options

  type ReadId = nat

  // A stream, by how many times streams had been ended when it was opened.
  datatype Stream = Stream(epoch: nat)

  datatype At =
    | WantsTuner             // next_chunk, waiting for the tuner
    | Opening                // has it, waiting for its stream
    | Waiting(stream: Stream)

  datatype Read = Read(at: At, aborted: bool)

  // `epoch` counts the times streams were ended, and `held` tells who has the
  // tuner's lock. `inFlight` are the reads that have yet to return.
  datatype State = State(isOpen: bool, reading: Option<ReadId>, stream: Option<Stream>, epoch: nat,
                         held: Option<ReadId>, busy: bool, inFlight: map<ReadId, Read>)

  const INITIAL := State(true, None, None, 0, None, false, map[])

  datatype Step =
    | StartRead(id: ReadId)
    | TakeTuner(id: ReadId)
    | StreamOpened(id: ReadId, ok: bool)
    | Chunk(id: ReadId)
    | SeeAbort(id: ReadId)
    | EndStream              // tune and close begin
    | TakeForTuning          // tune, or close, has the tuner
    | TunedOrClosed(closed: bool)

  predicate Active(s: State, id: ReadId) {
    id in s.inFlight && !s.inFlight[id].aborted
  }

  predicate TunerFree(s: State) {
    s.held.None? && !s.busy
  }

  predicate Enabled(s: State, step: Step) {
    match step
    case StartRead(id) => id !in s.inFlight
    case TakeTuner(id) => Active(s, id) && s.inFlight[id].at.WantsTuner? && TunerFree(s)
    case StreamOpened(id, _) => Active(s, id) && s.inFlight[id].at.Opening?
    case Chunk(id) => Active(s, id) && s.inFlight[id].at.Waiting?
    case SeeAbort(id) => id in s.inFlight && s.inFlight[id].aborted
    case EndStream => true
    case TakeForTuning => TunerFree(s)
    case TunedOrClosed(_) => s.busy
  }

  // The read `id` returns, its handle still there.
  function Finished(s: State, id: ReadId): State {
    s.(reading := None, inFlight := s.inFlight - {id})
  }

  function Moved(s: State, id: ReadId, at: At): State
    requires id in s.inFlight
  {
    s.(inFlight := s.inFlight[id := s.inFlight[id].(at := at)])
  }

  function Apply(s: State, step: Step): State
    requires Enabled(s, step)
  {
    match step
    case StartRead(id) =>
      if s.reading.Some? then s
      else
        s.(reading := Some(id), stream := None,
           inFlight := s.inFlight[id := Read(if s.stream.Some? then Waiting(s.stream.value) else WantsTuner, false)])
    case TakeTuner(id) => if s.isOpen then Moved(s, id, Opening).(held := Some(id)) else Finished(s, id)
    case StreamOpened(id, ok) =>
      if ok then Moved(s, id, Waiting(Stream(s.epoch))).(held := None) else Finished(s, id).(held := None)
    case Chunk(id) => Finished(s, id).(stream := Some(s.inFlight[id].at.stream))
    case SeeAbort(id) => s.(inFlight := s.inFlight - {id}, held := if s.held == Some(id) then None else s.held)
    case EndStream => Aborting(s).(reading := None, stream := None, epoch := s.epoch + 1)
    case TakeForTuning => s.(busy := true)
    case TunedOrClosed(closed) => s.(busy := false, isOpen := s.isOpen && !closed)
  }

  // The read in progress is told to stop, if there is one.
  function Aborting(s: State): State {
    if s.reading.Some? && s.reading.value in s.inFlight
    then s.(inFlight := s.inFlight[s.reading.value := s.inFlight[s.reading.value].(aborted := true)])
    else s
  }

  // The stream a step returns bytes of, if it does.
  function Returned(s: State, step: Step): Option<Stream>
    requires Enabled(s, step)
  {
    if step.Chunk? then Some(s.inFlight[step.id].at.stream) else None
  }

  function After(s: State, steps: seq<Step>): Option<State>
    decreases |steps|
  {
    if steps == [] then Some(s)
    else if Enabled(s, steps[0]) then After(Apply(s, steps[0]), steps[1..])
    else None
  }

  predicate ReadOk(s: State, id: ReadId) {
    id in s.inFlight ==>
      && (Active(s, id) ==> s.reading == Some(id))
      && (Active(s, id) && s.inFlight[id].at.Waiting? ==> s.inFlight[id].at.stream.epoch == s.epoch)
      && (s.inFlight[id].at.Opening? <==> s.held == Some(id))
  }

  // The handle kept is that of the one read in flight not aborted, and streams
  // are of the time since they were last ended.
  ghost predicate Sound(s: State) {
    && (s.reading.Some? ==> Active(s, s.reading.value))
    && (forall id :: ReadOk(s, id))
    && (s.stream.Some? ==> s.stream.value.epoch == s.epoch && s.reading.None?)
    && (s.held.Some? ==> s.held.value in s.inFlight && s.inFlight[s.held.value].at.Opening? && !s.busy)
  }

  lemma StepKeeps(s: State, step: Step)
    requires Sound(s) && Enabled(s, step)
    ensures Sound(Apply(s, step))
  {
    var s' := Apply(s, step);
    assert step.Chunk? || step.TakeTuner? || step.StreamOpened? || step.SeeAbort? ==> ReadOk(s, step.id);
    assert s.reading.Some? ==> ReadOk(s, s.reading.value);
    assert s.held.Some? ==> ReadOk(s, s.held.value);
    forall id: ReadId ensures ReadOk(s', id) {
      assert ReadOk(s, id);
      assert Active(s, id) ==> s.reading.Some? && s.reading.value == id;
      assert id in s.inFlight && s.inFlight[id].at.Opening? ==> s.held.Some? && s.held.value == id;
    }
  }

  lemma {:induction false} RunKeeps(s: State, steps: seq<Step>)
    requires Sound(s) && After(s, steps).Some?
    ensures Sound(After(s, steps).value)
    decreases |steps|
  {
    if steps == [] {
    } else {
      StepKeeps(s, steps[0]);
      RunKeeps(Apply(s, steps[0]), steps[1..]);
    }
  }

  // In every interleaving, the handle kept is that of the one read in flight
  // that was not aborted.
  lemma HandleIsTheReads(steps: seq<Step>)
    requires After(INITIAL, steps).Some?
    ensures var s := After(INITIAL, steps).value;
            && (forall id: ReadId :: Active(s, id) <==> s.reading == Some(id))
            && (forall i, j :: Active(s, i) && Active(s, j) ==> i == j)
  {
    RunKeeps(INITIAL, steps);
    var s := After(INITIAL, steps).value;
    forall id: ReadId ensures Active(s, id) <==> s.reading == Some(id) { assert ReadOk(s, id); }
  }

  // An aborted read that resumes leaves a later one its handle.
  lemma LaterReadKeepsItsHandle(steps: seq<Step>, aborted: ReadId, later: ReadId)
    requires After(INITIAL, steps).Some?
    requires var s := After(INITIAL, steps).value; Enabled(s, SeeAbort(aborted)) && Active(s, later)
    ensures var s := Apply(After(INITIAL, steps).value, SeeAbort(aborted));
            Active(s, later) && s.reading == Some(later)
  {
    HandleIsTheReads(steps);
  }

  // No bytes come of a stream opened before streams were last ended.
  lemma NoStaleBytes(steps: seq<Step>, step: Step)
    requires After(INITIAL, steps).Some? && Enabled(After(INITIAL, steps).value, step)
    ensures var s := After(INITIAL, steps).value;
            Returned(s, step).Some? ==> Returned(s, step).value.epoch == s.epoch
  {
    RunKeeps(INITIAL, steps);
    var s := After(INITIAL, steps).value;
    assert step.Chunk? ==> ReadOk(s, step.id);
  }

  // What was opened before stays out for good: whatever runs after streams are
  // ended, what is returned was opened since.
  lemma {:induction false} EpochsGrow(s: State, steps: seq<Step>)
    requires After(s, steps).Some?
    ensures After(s, steps).value.epoch >= s.epoch
    decreases |steps|
  {
    if steps == [] {
    } else {
      EpochsGrow(Apply(s, steps[0]), steps[1..]);
    }
  }

  lemma {:induction false} AfterJoins(s: State, a: seq<Step>, b: seq<Step>)
    requires After(s, a).Some?
    ensures After(s, a + b) == After(After(s, a).value, b)
    decreases |a|
  {
    if a == [] {
      assert a + b == b;
    } else {
      assert (a + b)[1..] == a[1..] + b;
      AfterJoins(Apply(s, a[0]), a[1..], b);
    }
  }

  lemma EndedForGood(before: seq<Step>, after: seq<Step>, step: Step)
    requires After(INITIAL, before).Some?
    requires var s := Apply(After(INITIAL, before).value, EndStream);
             After(s, after).Some? && Enabled(After(s, after).value, step)
    ensures var s := Apply(After(INITIAL, before).value, EndStream);
            var at := After(s, after).value;
            Returned(at, step).Some? ==> Returned(at, step).value.epoch > After(INITIAL, before).value.epoch
  {
    var s := After(INITIAL, before).value;
    assert After(s, [EndStream]) == Some(Apply(s, EndStream)) by {
      assert After(Apply(s, EndStream), []) == Some(Apply(s, EndStream));
      assert [EndStream][1..] == [];
    }
    AfterJoins(INITIAL, before, [EndStream]);
    AfterJoins(INITIAL, before + [EndStream], after);
    NoStaleBytes(before + [EndStream] + after, step);
    EpochsGrow(Apply(s, EndStream), after);
  }

  // Once closed, it opens no stream any more, whatever runs after.
  lemma ClosedForGood(before: seq<Step>, after: seq<Step>)
    requires After(INITIAL, before).Some? && Enabled(After(INITIAL, before).value, TunedOrClosed(true))
    requires After(Apply(After(INITIAL, before).value, TunedOrClosed(true)), after).Some?
    ensures var at := After(Apply(After(INITIAL, before).value, TunedOrClosed(true)), after).value;
            !at.isOpen && forall id, ok :: !Enabled(at, StreamOpened(id, ok))
  {
    RunKeeps(INITIAL, before);
    var s := After(INITIAL, before).value;
    StepKeeps(s, TunedOrClosed(true));
    StaysClosed(Apply(s, TunedOrClosed(true)), after);
  }

  lemma {:induction false} StaysClosed(s: State, steps: seq<Step>)
    requires Sound(s) && !s.isOpen && s.held.None? && After(s, steps).Some?
    ensures var at := After(s, steps).value;
            && Sound(at) && !at.isOpen && at.held.None?
            && forall id, ok :: !Enabled(at, StreamOpened(id, ok))
    decreases |steps|
  {
    if steps == [] {
      forall id: ReadId, ok ensures !Enabled(s, StreamOpened(id, ok)) { assert ReadOk(s, id); }
    } else {
      StepKeeps(s, steps[0]);
      assert steps[0].StreamOpened? ==> ReadOk(s, steps[0].id);
      StaysClosed(Apply(s, steps[0]), steps[1..]);
    }
  }

  /* The tuner itself */

  class Tuner {
    var isOpen: bool
    var reading: Option<ReadId>
    var stream: Option<Stream>
    var held: Option<ReadId>
    var busy: bool
    var inFlight: map<ReadId, Read>
    var epoch: nat

    ghost function View(): State
      reads this
    {
      State(isOpen, reading, stream, epoch, held, busy, inFlight)
    }

    ghost predicate Valid()
      reads this
    {
      Sound(View())
    }

    constructor ()
      ensures Valid() && View() == INITIAL
    {
      isOpen, reading, stream, held, busy, inFlight, epoch := true, None, None, None, false, map[], 0;
      new;
      assert forall id :: ReadOk(View(), id);
    }

    // read, up to where it waits; false if one is in progress.
    method StartReading(id: ReadId) returns (started: bool)
      requires Valid() && Enabled(View(), StartRead(id))
      modifies this
      ensures Valid() && View() == Apply(old(View()), StartRead(id))
      ensures started <==> id in inFlight
      ensures started && old(stream).Some? ==> inFlight[id] == Read(Waiting(old(stream).value), false) && stream.None?
    {
      StepKeeps(View(), StartRead(id));
      if reading.Some? { return false; }
      reading := Some(id);
      var taken := stream;
      stream := None;
      inFlight := inFlight[id := Read(if taken.Some? then Waiting(taken.value) else WantsTuner, false)];
      started := true;
    }

    // next_chunk with no stream kept: it has the tuner, if that is open.
    method TakeForReading(id: ReadId) returns (taken: bool)
      requires Valid() && Enabled(View(), TakeTuner(id))
      modifies this
      ensures Valid() && View() == Apply(old(View()), TakeTuner(id)) && taken == old(isOpen)
    {
      StepKeeps(View(), TakeTuner(id));
      if !isOpen {
        reading := None;
        inFlight := inFlight - {id};
        return false;
      }
      inFlight := inFlight[id := inFlight[id].(at := Opening)];
      held := Some(id);
      taken := true;
    }

    // It has its stream, or failed to get one.
    method GetStream(id: ReadId, ok: bool)
      requires Valid() && Enabled(View(), StreamOpened(id, ok))
      modifies this
      ensures Valid() && View() == Apply(old(View()), StreamOpened(id, ok))
    {
      StepKeeps(View(), StreamOpened(id, ok));
      held := None;
      if ok {
        inFlight := inFlight[id := inFlight[id].(at := Waiting(Stream(epoch)))];
      } else {
        reading := None;
        inFlight := inFlight - {id};
      }
    }

    // read once next_chunk has come to a chunk, or the end.
    method FinishReading(id: ReadId)
      requires Valid() && Enabled(View(), Chunk(id))
      modifies this
      ensures Valid() && View() == Apply(old(View()), Chunk(id)) && reading.None?
      ensures stream == Some(old(inFlight)[id].at.stream)
    {
      StepKeeps(View(), Chunk(id));
      stream := Some(inFlight[id].at.stream);
      reading := None;
      inFlight := inFlight - {id};
    }

    // read on being aborted: whoever did has taken the handle.
    method SeeAborted(id: ReadId)
      requires Valid() && Enabled(View(), SeeAbort(id))
      modifies this
      ensures Valid() && View() == Apply(old(View()), SeeAbort(id)) && reading == old(reading)
    {
      StepKeeps(View(), SeeAbort(id));
      inFlight := inFlight - {id};
      if held == Some(id) { held := None; }
    }

    method EndStreams()
      requires Valid()
      modifies this
      ensures Valid() && View() == Apply(old(View()), EndStream) && forall id :: id in inFlight ==> inFlight[id].aborted
    {
      StepKeeps(View(), EndStream);
      assert forall id :: id in inFlight ==> ReadOk(View(), id);
      if reading.Some? {
        var id := reading.value;
        reading := None;
        inFlight := inFlight[id := inFlight[id].(aborted := true)];
      }
      stream := None;
      epoch := epoch + 1;
    }
  }
}
