/**
 The LNB supply of a BDA tuner: requests whose commands run apart from their
 callers, in any order, and may be given up on.
 */
module LnbRequests {
  import opened Options

  // A future of set_lnb past its first step: what it asked for.
  datatype Call = Call(request: nat, on: bool)

  // `mark` tells the tuner to turn the supply off when dropped; `pending` are
  // the commands yet to run. What was last asked for, and how its command went
  // once it ran, is history.
  datatype State = State(last: nat, closed: bool, mark: bool, supply: bool, pending: map<nat, bool>,
                         call: Option<Call>, asked: Option<bool>, went: Option<bool>)

  const INITIAL := State(0, false, false, false, map[], None, None, None)

  datatype Step =
    | Ask(on: bool)
    | Run(request: nat, ok: bool)   // a command, the device taking it or not
    | Finish
    | GiveUp(cancelled: bool)       // the future is dropped, maybe before its command runs
    | Drop

  predicate Enabled(s: State, step: Step) {
    match step
    case Ask(_) => !s.closed && s.call.None?
    case Run(request, _) => request in s.pending
    case Finish => s.call.Some? && s.call.value.request !in s.pending
    case GiveUp(_) => s.call.Some?
    case Drop => !s.closed && s.call.None?
  }

  // Whether a command is still to be sent.
  predicate Counts(s: State, request: nat) {
    !s.closed && s.last == request
  }

  function Apply(s: State, step: Step): State
    requires Enabled(s, step)
  {
    match step
    case Ask(on) =>
      State(s.last + 1, s.closed, s.mark || on, s.supply, s.pending[s.last + 1 := on],
            Some(Call(s.last + 1, on)), Some(on), None)
    case Run(request, ok) =>
      s.(pending := s.pending - {request},
         supply := if Counts(s, request) && ok then s.pending[request] else s.supply,
         went := if Counts(s, request) then Some(ok) else s.went)
    case Finish => s.(call := None, mark := if s.went == Some(true) then s.call.value.on else s.mark)
    case GiveUp(cancelled) =>
      s.(call := None, pending := if cancelled then s.pending - {s.call.value.request} else s.pending)
    case Drop => s.(closed := true, supply := if s.mark then false else s.supply)
  }

  function After(s: State, steps: seq<Step>): Option<State>
    decreases |steps|
  {
    if steps == [] then Some(s)
    else if Enabled(s, steps[0]) then After(Apply(s, steps[0]), steps[1..])
    else None
  }

  ghost predicate Inv(s: State) {
    && (forall r :: r in s.pending ==> r <= s.last)
    && (s.asked.None? <==> s.last == 0)
    && (s.last in s.pending ==> s.asked == Some(s.pending[s.last]) && s.went.None?)
    && (s.call.Some? ==>
          !s.closed && s.call.value.request == s.last && s.asked == Some(s.call.value.on)
          && (s.last in s.pending || s.went.Some?))
    && (!s.closed && s.went == Some(true) ==> s.asked == Some(s.supply))
    && (!s.closed && s.supply ==> s.mark)
    && (!s.closed && s.asked == Some(true) ==> s.mark)
    && (s.closed ==> !s.supply)
  }

  lemma StepKeeps(s: State, step: Step)
    requires Inv(s) && Enabled(s, step)
    ensures Inv(Apply(s, step))
  {
  }

  lemma {:induction false} RunKeeps(s: State, steps: seq<Step>)
    requires Inv(s) && After(s, steps).Some?
    ensures Inv(After(s, steps).value)
    decreases |steps|
  {
    if steps == [] {
    } else {
      StepKeeps(s, steps[0]);
      RunKeeps(Apply(s, steps[0]), steps[1..]);
    }
  }

  // Whatever order commands run in and whichever calls are given up on: once
  // the command last asked for has gone through the supply is as it asked, and
  // stays so; the supply on is marked to be turned off; and with the tuner
  // gone it is off. A call that finishes leaves the mark as the supply.
  lemma SupplyIsAsAsked(steps: seq<Step>)
    requires After(INITIAL, steps).Some?
    ensures var s := After(INITIAL, steps).value;
            && (!s.closed && s.went == Some(true) ==> s.asked == Some(s.supply))
            && (!s.closed && s.supply ==> s.mark)
            && (s.closed ==> !s.supply)
            && (Enabled(s, Finish) && s.went == Some(true) ==> Apply(s, Finish).mark == s.supply)
  {
    RunKeeps(INITIAL, steps);
  }

  // What keeps the command of the call in progress from going through: the call
  // is given up on before it runs, or the device refuses it.
  predicate Thwarts(s: State, step: Step)
    requires Enabled(s, step)
  {
    match step
    case GiveUp(cancelled) => cancelled && s.call.value.request in s.pending
    case Run(request, ok) => !ok && Counts(s, request)
    case _ => false
  }

  predicate Asks(steps: seq<Step>) {
    exists i :: 0 <= i < |steps| && steps[i].Ask?
  }

  // Whether the command last asked for along `steps`, or before them, was
  // thwarted along them.
  predicate LastThwarted(s: State, steps: seq<Step>)
    decreases |steps|
  {
    && steps != [] && Enabled(s, steps[0])
    && ((Thwarts(s, steps[0]) && !Asks(steps[1..])) || LastThwarted(Apply(s, steps[0]), steps[1..]))
  }

  // The supply as it was when it was last asked for along `steps`.
  function MetByLast(s: State, steps: seq<Step>): Option<bool>
    decreases |steps|
  {
    if steps == [] || !Enabled(s, steps[0]) then None
    else if steps[0].Ask? && !Asks(steps[1..]) then Some(s.supply)
    else MetByLast(Apply(s, steps[0]), steps[1..])
  }

  // How things stand with what was last asked for, when the supply was `met`:
  // its command is thwarted, has yet to run, or has gone through.
  predicate Settled(s: State, thwarted: bool, met: Option<bool>) {
    s.asked.Some? && !s.closed ==>
      && (if thwarted then s.last !in s.pending && s.went != Some(true)
          else s.last in s.pending || s.went == Some(true))
      && (s.went != Some(true) ==> met == Some(s.supply))
  }

  lemma StepSettles(s: State, step: Step, thwarted: bool, met: Option<bool>)
    requires Inv(s) && Enabled(s, step) && Settled(s, thwarted, met)
    ensures Settled(Apply(s, step), if step.Ask? then false else thwarted || Thwarts(s, step),
                    if step.Ask? then Some(s.supply) else met)
  {
  }

  lemma {:induction false} RunSettles(s: State, steps: seq<Step>, thwarted: bool, met: Option<bool>)
    requires Inv(s) && After(s, steps).Some? && Settled(s, thwarted, met)
    ensures Settled(After(s, steps).value, LastThwarted(s, steps) || (thwarted && !Asks(steps)),
                    if Asks(steps) then MetByLast(s, steps) else met)
    decreases |steps|
  {
    if steps == [] {
    } else {
      var step, rest := steps[0], steps[1..];
      assert Asks(steps) <==> step.Ask? || Asks(rest) by {
        if i :| 0 <= i < |steps| && steps[i].Ask? { assert i > 0 ==> rest[i - 1].Ask?; }
        if i :| 0 <= i < |rest| && rest[i].Ask? { assert steps[i + 1].Ask?; }
      }
      StepKeeps(s, step);
      StepSettles(s, step, thwarted, met);
      RunSettles(Apply(s, step), rest, if step.Ask? then false else thwarted || Thwarts(s, step),
                 if step.Ask? then Some(s.supply) else met);
    }
  }

  // With no command left to run, in whatever order they did and whichever calls
  // were given up on, the supply is as last asked exactly if that command was
  // not thwarted, or the supply was that way already when it was asked for.
  lemma AsAskedExactlyWhen(steps: seq<Step>)
    requires After(INITIAL, steps).Some?
    requires var s := After(INITIAL, steps).value; s.pending == map[] && !s.closed && s.asked.Some?
    ensures var s := After(INITIAL, steps).value;
            s.asked == Some(s.supply) <==> !LastThwarted(INITIAL, steps) || MetByLast(INITIAL, steps) == s.asked
  {
    RunSettles(INITIAL, steps, false, None);
    RunKeeps(INITIAL, steps);
    if !Asks(steps) { AskedIsAsk(INITIAL, steps); }
  }

  lemma {:induction false} AskedIsAsk(s: State, steps: seq<Step>)
    requires After(s, steps).Some? && !Asks(steps)
    ensures After(s, steps).value.asked == s.asked
    decreases |steps|
  {
    if steps == [] {
    } else {
      assert !steps[0].Ask?;
      assert forall i :: 0 <= i < |steps| - 1 ==> steps[1..][i] == steps[i + 1];
      AskedIsAsk(Apply(s, steps[0]), steps[1..]);
    }
  }

  // Whether the device takes every command, and none is cancelled.
  predicate AllSent(steps: seq<Step>) {
    forall i :: 0 <= i < |steps| ==> steps[i] != GiveUp(true) && (steps[i].Run? ==> steps[i].ok)
  }

  lemma {:induction false} AllSentNoneThwarted(s: State, steps: seq<Step>)
    requires AllSent(steps)
    ensures !LastThwarted(s, steps)
    decreases |steps|
  {
    if steps == [] || !Enabled(s, steps[0]) {
    } else {
      assert forall i :: 0 <= i < |steps| - 1 ==> steps[1..][i] == steps[i + 1];
      AllSentNoneThwarted(Apply(s, steps[0]), steps[1..]);
    }
  }

  // So once all commands have run, any calls being given up on while theirs had
  // yet to, the supply is as the last request asked.
  lemma LastAskedWins(steps: seq<Step>)
    requires After(INITIAL, steps).Some? && AllSent(steps)
    requires var s := After(INITIAL, steps).value; s.pending == map[] && !s.closed && s.asked.Some?
    ensures var s := After(INITIAL, steps).value; s.asked == Some(s.supply)
  {
    AllSentNoneThwarted(INITIAL, steps);
    AsAskedExactlyWhen(steps);
  }

  // No command given up on touches the supply once the tuner has gone.
  lemma {:induction false} GoneForGood(s: State, steps: seq<Step>)
    requires Inv(s) && s.closed && After(s, steps).Some?
    ensures After(s, steps).value.closed && !After(s, steps).value.supply
    decreases |steps|
  {
    if steps == [] {
    } else {
      StepKeeps(s, steps[0]);
      GoneForGood(Apply(s, steps[0]), steps[1..]);
    }
  }

  // A call given up on in time leaves the supply as it was, to be turned off
  // with the tuner all the same.
  lemma CancelledInTime()
    ensures var steps := [Ask(true), Run(1, true), Finish, Ask(false), GiveUp(true)];
            && After(INITIAL, steps).Some? && LastThwarted(INITIAL, steps)
            && var s := After(INITIAL, steps).value;
               s.pending == map[] && s.asked == Some(false) && s.supply && s.mark
               && !Apply(s, Drop).supply
  {
    var s1 := Apply(INITIAL, Ask(true));
    var s2 := Apply(s1, Run(1, true));
    var s3 := Apply(s2, Finish);
    var s4 := Apply(s3, Ask(false));
    var s5 := Apply(s4, GiveUp(true));
    assert s2.pending == map[] && s5.pending == map[];
    var steps := [Ask(true), Run(1, true), Finish, Ask(false), GiveUp(true)];
    assert steps[1..] == [Run(1, true), Finish, Ask(false), GiveUp(true)];
    assert steps[1..][1..] == [Finish, Ask(false), GiveUp(true)];
    assert steps[1..][1..][1..] == [Ask(false), GiveUp(true)];
    assert steps[1..][1..][1..][1..] == [GiveUp(true)];
    assert After(s5, []) == Some(s5);
    assert After(s4, [GiveUp(true)]) == Some(s5);
    assert After(s3, [Ask(false), GiveUp(true)]) == Some(s5);
  }

  /* The tuner itself */

  class Tuner {
    var last: nat
    var closed: bool
    var mark: bool
    var supply: bool
    var pending: map<nat, bool>
    var call: Option<Call>
    ghost var asked: Option<bool>
    ghost var went: Option<bool>

    ghost function View(): State
      reads this
    {
      State(last, closed, mark, supply, pending, call, asked, went)
    }

    ghost predicate Valid()
      reads this
    {
      Inv(View())
    }

    constructor ()
      ensures Valid() && View() == INITIAL
    {
      last, closed, mark, supply, pending, call := 0, false, false, false, map[], None;
      asked, went := None, None;
    }

    // set_lnb, up to where it waits for its command.
    method SetLnb(on: bool) returns (request: nat)
      requires Valid() && Enabled(View(), Ask(on))
      modifies this
      ensures Valid() && View() == Apply(old(View()), Ask(on)) && request == last
    {
      StepKeeps(View(), Ask(on));
      if on { mark := true; }
      last := last + 1;
      request := last;
      pending := pending[request := on];
      call := Some(Call(request, on));
      asked, went := Some(on), None;
    }

    // The command, which `ok` tells the device takes.
    method Command(request: nat, ok: bool)
      requires Valid() && Enabled(View(), Run(request, ok))
      modifies this
      ensures Valid() && View() == Apply(old(View()), Run(request, ok))
    {
      StepKeeps(View(), Run(request, ok));
      var on := pending[request];
      pending := pending - {request};
      if closed || last != request { return; }
      if ok { supply := on; }
      went := Some(ok);
    }

    // The rest of set_lnb; `ok` is what its command gave.
    method Done(ok: bool)
      requires Valid() && Enabled(View(), Finish) && went == Some(ok)
      modifies this
      ensures Valid() && View() == Apply(old(View()), Finish)
    {
      StepKeeps(View(), Finish);
      if ok { mark := call.value.on; }
      call := None;
    }

    method Release()
      requires Valid() && Enabled(View(), Drop)
      modifies this
      ensures Valid() && View() == Apply(old(View()), Drop) && !supply
    {
      StepKeeps(View(), Drop);
      closed := true;
      if mark { supply := false; }
    }
  }
}
