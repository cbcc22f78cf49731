/** The hub of a bridge: one receiver for its tuners, as long as any is taken. */
module StreamHub {
  // The state is changed by attach, detach, abort and each transfer received;
  // the board lock makes a tuner's attach and what comes of it one with respect
  // to those of other tuners.

  import opened Options

  const SLOTS: nat := 5

  // What `stream` of a tuner has under way, holding the board: it has attached
  // the slot, and is to start the reception or not.
  datatype Board = Free | Streaming(slot: nat, start: bool)

  // `receivers` counts the reception tasks.
  datatype State = State(senders: seq<bool>, running: bool, receivers: nat, board: Board)

  const NONE: seq<bool> := [false, false, false, false, false]

  const INITIAL := State(NONE, false, 0, Free)

  datatype Step =
    | Attach(slot: nat)          // stream, up to where it is to purge or to capture
    | Capture                    // it goes through, the reception starting
    | Fail                       // it fails, and gives up on the slot
    | Cancel                     // its future is dropped there
    | Release(slot: nat)
    | Transfer(gone: set<nat>)   // a transfer, those of `gone` having let go of their streams
    | BadTransfer

  function WithSlot(h: State, slot: nat, on: bool): State
    requires slot < |h.senders|
  {
    h.(senders := h.senders[slot := on])
  }

  function Without(senders: seq<bool>, gone: set<nat>): seq<bool> {
    seq(|senders|, i requires 0 <= i < |senders| => senders[i] && i !in gone)
  }

  predicate AnyOf(senders: seq<bool>) {
    exists i :: 0 <= i < |senders| && senders[i]
  }

  predicate Enabled(h: State, step: Step) {
    match step
    case Attach(slot) => h.board.Free? && slot < SLOTS == |h.senders|
    case Capture => h.board.Streaming?
    case Fail => h.board.Streaming? && h.board.slot < |h.senders|
    case Cancel => h.board.Streaming?
    case Release(slot) => h.board.Free? && slot < SLOTS == |h.senders|
    case Transfer(_) => h.receivers > 0
    case BadTransfer => h.receivers > 0
  }

  function Apply(h: State, step: Step): State
    requires Enabled(h, step)
  {
    match step
    case Attach(slot) => WithSlot(h, slot, true).(running := true, board := Streaming(slot, !h.running))
    case Capture => h.(receivers := if h.board.start then h.receivers + 1 else h.receivers, board := Free)
    case Fail =>
      WithSlot(h, h.board.slot, false).(running := if h.board.start then false else h.running, board := Free)
    case Cancel => h.(board := Free)
    case Release(slot) => WithSlot(h, slot, false)
    case Transfer(gone) =>
      var left := Without(h.senders, gone);
      if AnyOf(left) then h.(senders := left)
      else h.(senders := left, running := false, receivers := h.receivers - 1)
    case BadTransfer => h.(senders := NONE, running := false, receivers := h.receivers - 1)
  }

  function After(h: State, steps: seq<Step>): Option<State>
    decreases |steps|
  {
    if steps == [] then Some(h)
    else if Enabled(h, steps[0]) then After(Apply(h, steps[0]), steps[1..])
    else None
  }

  predicate ToStart(h: State) {
    h.board.Streaming? && h.board.start
  }

  // At most one receiver; the hub runs exactly when there is one, or one is to
  // start; and no slot has a sender otherwise.
  predicate Sound(h: State) {
    && |h.senders| == SLOTS && (h.board.Streaming? ==> h.board.slot < SLOTS)
    && h.receivers <= 1
    && (h.running <==> h.receivers == 1 || ToStart(h))
    && !(h.receivers == 1 && ToStart(h))
    && (AnyOf(h.senders) ==> h.running)
    && (ToStart(h) ==> forall i :: 0 <= i < SLOTS && h.senders[i] ==> i == h.board.slot)
  }

  // Running, but no receiver is there to end it, and none is to start.
  predicate Stranded(h: State) {
    && |h.senders| == SLOTS && (h.board.Streaming? ==> h.board.slot < SLOTS)
    && h.running && h.receivers == 0 && !ToStart(h)
  }

  // The one step that breaks it: a `stream` given up on when it was to start
  // the reception.
  predicate Strands(h: State, step: Step) {
    step.Cancel? && ToStart(h)
  }

  lemma StepKeepsSound(h: State, step: Step)
    requires Sound(h) && Enabled(h, step)
    ensures if Strands(h, step) then Stranded(Apply(h, step)) else Sound(Apply(h, step))
  {
    var h' := Apply(h, step);
    match step
    case Attach(slot) => assert forall i :: 0 <= i < SLOTS && h'.senders[i] ==> i == slot || h.senders[i];
    case Fail => assert forall i :: 0 <= i < SLOTS && h'.senders[i] ==> h.senders[i] && i != h.board.slot;
    case Release(slot) => assert forall i :: 0 <= i < SLOTS && h'.senders[i] ==> h.senders[i];
    case _ =>
  }

  // No step mends it: no receiver ever starts again.
  lemma StrandedStays(h: State, step: Step)
    requires Stranded(h) && Enabled(h, step)
    ensures Stranded(Apply(h, step))
  {
  }

  // Whether some `stream` was given up on so along `steps`.
  predicate StrandsIn(h: State, steps: seq<Step>)
    decreases |steps|
  {
    steps != [] && Enabled(h, steps[0]) && (Strands(h, steps[0]) || StrandsIn(Apply(h, steps[0]), steps[1..]))
  }

  lemma {:induction false} StrandedForGood(h: State, steps: seq<Step>)
    requires Stranded(h) && After(h, steps).Some?
    ensures Stranded(After(h, steps).value)
    decreases |steps|
  {
    if steps == [] {
    } else {
      StrandedStays(h, steps[0]);
      StrandedForGood(Apply(h, steps[0]), steps[1..]);
    }
  }

  // Every run leaves the hub sound, unless a `stream` was given up on while it
  // was to start the reception; and then never again.
  lemma {:induction false} SoundUnlessGivenUpOn(h: State, steps: seq<Step>)
    requires Sound(h) && After(h, steps).Some?
    ensures Sound(After(h, steps).value) <==> !StrandsIn(h, steps)
    ensures StrandsIn(h, steps) ==> Stranded(After(h, steps).value)
    decreases |steps|
  {
    if steps == [] {
    } else {
      StepKeepsSound(h, steps[0]);
      if Strands(h, steps[0]) { StrandedForGood(Apply(h, steps[0]), steps[1..]); }
      else { SoundUnlessGivenUpOn(Apply(h, steps[0]), steps[1..]); }
    }
  }

  // No attach is left without a receiver, and an abort strands no other slot.
  lemma EveryStreamIsReceived(steps: seq<Step>)
    requires After(INITIAL, steps).Some? && !StrandsIn(INITIAL, steps)
    ensures var h := After(INITIAL, steps).value;
            && h.receivers <= 1
            && (h.board.Free? && AnyOf(h.senders) ==> h.receivers == 1)
            && (h.running <==> h.receivers == 1 || ToStart(h))
            && (ToStart(h) ==> Enabled(h, Fail) && !AnyOf(Apply(h, Fail).senders))
  {
    assert Sound(INITIAL);
    SoundUnlessGivenUpOn(INITIAL, steps);
    var h := After(INITIAL, steps).value;
    if ToStart(h) { assert forall i :: 0 <= i < SLOTS ==> !Apply(h, Fail).senders[i]; }
  }

  // It comes to that: given up on once, the hub takes no stream any more.
  lemma GivenUpOnOnce()
    ensures var steps := [Attach(0), Cancel, Attach(1), Capture];
            && After(INITIAL, steps).Some?
            && var h := After(INITIAL, steps).value;
               h.senders[1] && h.receivers == 0 && h.board.Free?
  {
    var h1 := Apply(INITIAL, Attach(0));
    var h2 := Apply(h1, Cancel);
    var h3 := Apply(h2, Attach(1));
    var h4 := Apply(h3, Capture);
    assert After(h4, []) == Some(h4);
    assert [Attach(0), Cancel, Attach(1), Capture][1..] == [Cancel, Attach(1), Capture];
    assert [Cancel, Attach(1), Capture][1..] == [Attach(1), Capture];
    assert [Attach(1), Capture][1..] == [Capture];
    assert [Capture][1..] == [];
  }

  /* Who has a sender */

  // The slot attached last.
  function LastAttached(steps: seq<Step>): Option<nat> {
    if steps == [] then None
    else if steps[|steps| - 1].Attach? then Some(steps[|steps| - 1].slot)
    else LastAttached(steps[..|steps| - 1])
  }

  // Whether the step `j` takes the sender of `slot`: its release, its `stream`
  // failing, a transfer that finds its stream let go of, or one that fails.
  predicate LetsGo(steps: seq<Step>, j: nat, slot: nat)
    requires j < |steps|
  {
    match steps[j]
    case Release(s) => s == slot
    case Fail => LastAttached(steps[..j]) == Some(slot)
    case Transfer(gone) => slot in gone
    case BadTransfer => true
    case _ => false
  }

  // Whether `slot` was attached at the step `i`, and kept since.
  ghost predicate KeptSince(steps: seq<Step>, i: nat, slot: nat) {
    i < |steps| && steps[i] == Attach(slot) && forall j :: i < j < |steps| ==> !LetsGo(steps, j, slot)
  }

  lemma {:induction false} AfterJoin(h: State, steps: seq<Step>, step: Step)
    ensures After(h, steps + [step])
              == match After(h, steps)
                 case Some(now) => if Enabled(now, step) then Some(Apply(now, step)) else None
                 case None => None
    decreases |steps|
  {
    if steps == [] {
      assert ([step])[1..] == [] && [] + [step] == [step];
      assert Enabled(h, step) ==> After(Apply(h, step), []) == Some(Apply(h, step));
    } else {
      assert (steps + [step])[1..] == steps[1..] + [step];
      if Enabled(h, steps[0]) { AfterJoin(Apply(h, steps[0]), steps[1..], step); }
    }
  }

  lemma KeptOneMore(steps: seq<Step>, step: Step, i: nat, slot: nat)
    ensures var all := steps + [step];
            KeptSince(all, i, slot) <==>
              if i == |steps| then step == Attach(slot) else KeptSince(steps, i, slot) && !LetsGo(all, |steps|, slot)
  {
    var all := steps + [step];
    forall j | 0 <= j < |steps| ensures LetsGo(all, j, slot) <==> LetsGo(steps, j, slot) {
      assert all[..j] == steps[..j];
    }
  }

  lemma StepHasSender(h: State, step: Step, steps: seq<Step>, slot: nat)
    requires |h.senders| == SLOTS && slot < SLOTS && Enabled(h, step)
    requires h.board.Streaming? ==> LastAttached(steps) == Some(h.board.slot)
    ensures Apply(h, step).senders[slot] <==>
              step == Attach(slot) || (h.senders[slot] && !LetsGo(steps + [step], |steps|, slot))
    ensures Apply(h, step).board.Streaming? ==> LastAttached(steps + [step]) == Some(Apply(h, step).board.slot)
  {
    var all := steps + [step];
    assert all[..|steps|] == steps && all[..|all| - 1] == steps;
  }

  // A slot has a sender exactly if it was attached and kept since.
  lemma {:induction false} WhoHasASender(steps: seq<Step>)
    requires After(INITIAL, steps).Some?
    ensures var h := After(INITIAL, steps).value;
            && |h.senders| == SLOTS && (h.board.Streaming? ==> LastAttached(steps) == Some(h.board.slot))
            && forall slot :: 0 <= slot < SLOTS ==> (h.senders[slot] <==> exists i :: KeptSince(steps, i, slot))
    decreases |steps|
  {
    if steps == [] {
    } else {
      var init, last := steps[..|steps| - 1], steps[|steps| - 1];
      assert steps == init + [last];
      AfterJoin(INITIAL, init, last);
      WhoHasASender(init);
      var was := After(INITIAL, init).value;
      forall slot | 0 <= slot < SLOTS
        ensures Apply(was, last).senders[slot] <==> exists i :: KeptSince(steps, i, slot)
      {
        StepHasSender(was, last, init, slot);
        forall i: nat { KeptOneMore(init, last, i, slot); }
        assert last == Attach(slot) ==> KeptSince(steps, |init|, slot);
      }
      StepHasSender(was, last, init, 0);
    }
  }

  /* The hub itself */

  class Hub {
    const senders: array<bool>
    var running: bool

    ghost predicate Valid()
      reads this
    {
      senders.Length == SLOTS
    }

    // The hub's part of the state.
    ghost predicate Shows(h: State)
      reads this, senders
    {
      h.senders == senders[..] && h.running == running
    }

    constructor ()
      ensures Valid() && Shows(INITIAL) && fresh(senders)
    {
      senders := new bool[SLOTS](_ => false);
      running := false;
    }

    // Takes the stream of `slot`; whether the reception is to be started.
    method Attach(slot: nat, ghost h: State) returns (start: bool)
      requires Valid() && Shows(h) && Enabled(h, Step.Attach(slot))
      modifies this, senders
      ensures Valid() && Shows(Apply(h, Step.Attach(slot)))
      ensures start <==> ToStart(Apply(h, Step.Attach(slot)))
    {
      senders[slot] := true;
      start := !running;
      running := true;
    }

    method Detach(slot: nat, ghost h: State)
      requires Valid() && Shows(h) && slot < SLOTS
      requires Enabled(h, Step.Release(slot)) || (Enabled(h, Fail) && h.board == Streaming(slot, false))
      modifies senders
      ensures Valid() && Shows(Apply(h, if h.board.Free? then Step.Release(slot) else Fail))
    {
      senders[slot] := false;
    }

    // Gives up on the reception that was to be started.
    method Abort(slot: nat, ghost h: State)
      requires Valid() && Shows(h) && slot < SLOTS && Enabled(h, Fail) && h.board == Streaming(slot, true)
      modifies this, senders
      ensures Valid() && Shows(Apply(h, Fail))
    {
      senders[slot] := false;
      running := false;
    }

    // What the reception does with a transfer: `packets` says of which slots it
    // has any, `closed` which streams were let go of. Whether it goes on.
    method Receive(ok: bool, packets: seq<bool>, closed: seq<bool>, ghost h: State) returns (goesOn: bool)
      requires Valid() && Shows(h) && h.receivers > 0 && |packets| == SLOTS == |closed|
      modifies this, senders
      ensures var gone := set i | 0 <= i < SLOTS && packets[i] && closed[i];
              var h' := Apply(h, if ok then Transfer(gone) else BadTransfer);
              Valid() && Shows(h') && (goesOn <==> h'.receivers == h.receivers)
    {
      ghost var gone := set i | 0 <= i < SLOTS && packets[i] && closed[i];
      if !ok {
        var k := 0;
        while k < SLOTS
          invariant k <= SLOTS && forall i :: 0 <= i < k ==> !senders[i]
        {
          senders[k] := false;
          k := k + 1;
        }
        running := false;
        assert senders[..] == NONE;
        return false;
      }
      var i, left := 0, false;
      while i < SLOTS
        invariant i <= SLOTS && running == h.running
        invariant forall j :: 0 <= j < i ==> senders[j] == (h.senders[j] && j !in gone)
        invariant forall j :: i <= j < SLOTS ==> senders[j] == h.senders[j]
        invariant left <==> exists j :: 0 <= j < i && senders[j]
      {
        if senders[i] && packets[i] && closed[i] { senders[i] := false; }
        left := left || senders[i];
        i := i + 1;
      }
      assert senders[..] == Without(h.senders, gone);
      assert left <==> AnyOf(senders[..]);
      if !left { running := false; }
      goesOn := left;
    }
  }
}
