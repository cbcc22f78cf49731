/** A PX4 card: what its boards have powered, initialised and supplied. */
module Px4 {
  // A card is one board of four tuners, or two that go on and off together.
  // Chips fail at any time, as the outcomes given to each operation tell; the
  // power lines do not.

  import opened Options

  const TUNERS: nat := 4

  // The chips initialised, the tuners open, the tuners that want the LNB
  // supply, its line, and the power line.
  datatype Half = Half(chips: seq<bool>, openCount: nat, lnb: seq<bool>, gpio: bool, powered: bool)

  // A card, and which of its tuners BoardDevice has handed out.
  datatype Card = Card(halves: seq<Half>, inUse: seq<bool>)

  // How the chips do in an operation: the one that fails to initialise, if
  // any, and whether putting to sleep, waking up and setting up go through.
  datatype Luck = Luck(badChip: Option<nat>, sleeps: bool, wakes: bool, setsUp: bool)

  datatype Outcome = Done | Busy | Failed | NotFound | Unsupported

  const RESTING: seq<bool> := [false, false, false, false]
  const READY: seq<bool> := [true, true, true, true]

  function NewCard(boards: nat): Card {
    Card(seq(boards, _ => Half(RESTING, 0, RESTING, false, false)), seq(4 * boards, _ => false))
  }

  predicate WellFormed(c: Card) {
    && |c.inUse| == TUNERS * |c.halves|
    && forall b :: 0 <= b < |c.halves| ==> |c.halves[b].chips| == TUNERS == |c.halves[b].lnb|
  }

  function BoardOf(index: nat): nat { index / 4 }

  function PlaceOf(index: nat): nat { index % 4 }

  // The satellite tuners come first.
  predicate IsSatellite(place: nat) { place < 2 }

  function Total(halves: seq<Half>): nat {
    if halves == [] then 0 else halves[0].openCount + Total(halves[1..])
  }

  /* What the operations make of a card */

  function Powered(halves: seq<Half>, on: bool): seq<Half> {
    seq(|halves|, b requires 0 <= b < |halves| => halves[b].(powered := on))
  }

  // The chips after init, up to the one that fails.
  function InitChips(chips: seq<bool>, bad: Option<nat>): seq<bool> {
    seq(|chips|, i requires 0 <= i < |chips| =>
      if bad.Some? && i >= bad.value then i != bad.value && chips[i] else true)
  }

  predicate InitGoes(luck: Luck) {
    (luck.badChip.None? || luck.badChip.value >= TUNERS) && luck.sleeps
  }

  // What try_open leaves of a board, and whether it goes through.
  function TryOpen(h: Half, luck: Luck): (Half, bool) {
    var first := h.openCount == 0;
    if first
    then (h.(chips := InitChips(h.chips, luck.badChip)), InitGoes(luck) && luck.wakes && luck.setsUp)
    else (h, luck.wakes)
  }

  function Open(halves: seq<Half>, b: nat, luck: Luck): (seq<Half>, bool)
    requires b < |halves|
  {
    var first := Total(halves) == 0;
    var on := if first then Powered(halves, true) else halves;
    var (h, ok) := TryOpen(on[b], luck);
    var h' := if ok then h.(openCount := h.openCount + 1)
              else if h.openCount == 0 then h.(chips := RESTING) else h;
    var done := on[b := h'];
    (if !ok && first then Powered(done, false) else done, ok)
  }

  function Close(halves: seq<Half>, b: nat): seq<Half>
    requires b < |halves| && halves[b].openCount > 0
  {
    var h := halves[b].(openCount := halves[b].openCount - 1);
    var done := halves[b := if h.openCount == 0 then h.(chips := RESTING) else h];
    if Total(done) == 0 then Powered(done, false) else done
  }

  // What an open given up on midway leaves: the boards powered so far, and the
  // chips initialised so far, of those it was the first to want.
  function GivenUp(halves: seq<Half>, b: nat, on: set<nat>, ready: set<nat>): seq<Half>
    requires b < |halves|
  {
    var h := halves[b];
    var h' := if h.openCount == 0 then h.(chips := seq(TUNERS, i => i in ready)) else h;
    var done := halves[b := h'];
    if Total(halves) == 0 then PoweredAt(done, on) else done
  }

  function PoweredAt(halves: seq<Half>, on: set<nat>): seq<Half> {
    seq(|halves|, o requires 0 <= o < |halves| => halves[o].(powered := o in on))
  }

  predicate Others(lnb: seq<bool>, place: nat) {
    exists i :: 0 <= i < |lnb| && i != place && lnb[i]
  }

  // Lnb::set, the line being written if no other tuner wants it.
  function SetLnb(h: Half, place: nat, on: bool, writes: bool): (Half, bool)
    requires place < |h.lnb|
  {
    if h.lnb[place] == on then (h, true)
    else if Others(h.lnb, place) then (h.(lnb := h.lnb[place := on]), true)
    else if writes then (h.(lnb := h.lnb[place := on], gpio := on), true)
    else (h, false)
  }

  /* The steps of a card over its life */

  datatype Step =
    | OpenTuner(index: nat, luck: Luck)
    | GiveUp(index: nat, powered: set<nat>, ready: set<nat>)   // the future of open_tuner is dropped midway
    | LnbOn(index: nat, on: bool, writes: bool)
    | Release(index: nat, writes: bool)

  // Only a tuner handed out is asked anything.
  predicate Enabled(c: Card, step: Step) {
    WellFormed(c) &&
    match step
    case OpenTuner(_, _) => true
    case GiveUp(index, _, _) => index < |c.inUse| && !c.inUse[index]
    case LnbOn(index, _, _) => index < |c.inUse| && c.inUse[index]
    case Release(index, _) => index < |c.inUse| && c.inUse[index] && c.halves[BoardOf(index)].openCount > 0
  }

  function LnbSet(c: Card, index: nat, on: bool, writes: bool): Card
    requires WellFormed(c) && index < |c.inUse|
  {
    var b := BoardOf(index);
    if IsSatellite(PlaceOf(index))
    then c.(halves := c.halves[b := SetLnb(c.halves[b], PlaceOf(index), on, writes).0])
    else c
  }

  function Apply(c: Card, step: Step): Card
    requires Enabled(c, step)
  {
    match step
    case OpenTuner(index, luck) =>
      if index >= |c.inUse| || c.inUse[index] then c
      else
        var (halves, ok) := Open(c.halves, BoardOf(index), luck);
        c.(halves := halves, inUse := if ok then c.inUse[index := true] else c.inUse)
    case GiveUp(index, on, ready) => c.(halves := GivenUp(c.halves, BoardOf(index), on, ready))
    case LnbOn(index, on, writes) => LnbSet(c, index, on, writes)
    case Release(index, writes) =>
      var c' := LnbSet(c, index, false, writes);
      c'.(halves := Close(c'.halves, BoardOf(index)), inUse := c'.inUse[index := false])
  }

  function After(c: Card, steps: seq<Step>): Option<Card>
    decreases |steps|
  {
    if steps == [] then Some(c)
    else if Enabled(c, steps[0]) then After(Apply(c, steps[0]), steps[1..])
    else None
  }

  /* What holds of a card */

  function One(b: bool): nat { if b then 1 else 0 }

  // The open tuners of a board.
  function OpenedOn(inUse: seq<bool>, b: nat): nat
    requires TUNERS * b + TUNERS <= |inUse|
  {
    One(inUse[4 * b]) + One(inUse[4 * b + 1]) + One(inUse[4 * b + 2]) + One(inUse[4 * b + 3])
  }

  // Whether the chips and the LNB supply of a board are as its tuners want; when
  // `clean`, no chip is left initialised for no tuner.
  predicate HalfOk(h: Half, clean: bool) {
    && |h.chips| == TUNERS == |h.lnb|
    && (h.openCount > 0 ==> h.chips == READY) && (clean && h.openCount == 0 ==> h.chips == RESTING)
    && (h.gpio <==> h.lnb[0] || h.lnb[1]) && !h.lnb[2] && !h.lnb[3]
  }

  predicate BoardOk(c: Card, b: nat, clean: bool)
    requires b < |c.halves| && |c.inUse| == TUNERS * |c.halves|
  {
    HalfOk(c.halves[b], clean) && c.halves[b].openCount == OpenedOn(c.inUse, b)
  }

  // Whether every board is powered while any tuner is open; when `clean`, no
  // longer.
  predicate PowerOk(halves: seq<Half>, clean: bool) {
    forall b :: 0 <= b < |halves| ==>
      (Total(halves) > 0 ==> halves[b].powered) && (clean && halves[b].powered ==> Total(halves) > 0)
  }

  predicate Fit(c: Card, clean: bool) {
    && |c.inUse| == TUNERS * |c.halves|
    && (forall b :: 0 <= b < |c.halves| ==> BoardOk(c, b, clean))
    && PowerOk(c.halves, clean)
  }

  predicate Sound(c: Card) {
    Fit(c, true)
  }

  lemma FitIsWellFormed(c: Card, clean: bool)
    requires Fit(c, clean)
    ensures WellFormed(c)
  {
    forall b | 0 <= b < |c.halves| ensures |c.halves[b].chips| == TUNERS == |c.halves[b].lnb| {
      assert BoardOk(c, b, clean);
    }
  }

  /* Totals */

  lemma {:induction false} TotalOf(halves: seq<Half>, b: nat)
    requires b < |halves|
    ensures Total(halves) >= halves[b].openCount
  {
    if b == 0 {
    } else {
      TotalOf(halves[1..], b - 1);
    }
  }

  lemma {:induction false} TotalPowered(halves: seq<Half>, on: bool)
    ensures Total(Powered(halves, on)) == Total(halves)
  {
    if halves == [] {
    } else {
      assert Powered(halves, on)[1..] == Powered(halves[1..], on);
      TotalPowered(halves[1..], on);
    }
  }

  lemma {:induction false} TotalUpdated(halves: seq<Half>, b: nat, h: Half)
    requires b < |halves|
    ensures Total(halves[b := h]) == Total(halves) - halves[b].openCount + h.openCount
  {
    if b == 0 {
    } else {
      assert halves[b := h][1..] == halves[1..][b - 1 := h];
      TotalUpdated(halves[1..], b - 1, h);
    }
  }

  /* Every step keeps it */

  lemma OpenedElsewhere(inUse: seq<bool>, index: nat, on: bool, b: nat)
    requires index < |inUse| && TUNERS * b + TUNERS <= |inUse| && b != BoardOf(index)
    ensures OpenedOn(inUse[index := on], b) == OpenedOn(inUse, b)
  {
  }

  lemma OpenedHere(inUse: seq<bool>, index: nat, on: bool)
    requires index < |inUse| && |inUse| % TUNERS == 0 && inUse[index] != on
    ensures var b := BoardOf(index);
            TUNERS * b + TUNERS <= |inUse|
            && OpenedOn(inUse[index := on], b) == OpenedOn(inUse, b) + (if on then 1 else -1)
  {
    var b := BoardOf(index);
    assert index == 4 * b || index == 4 * b + 1 || index == 4 * b + 2 || index == 4 * b + 3;
  }

  lemma InitReadies(chips: seq<bool>, luck: Luck)
    requires |chips| == TUNERS && InitGoes(luck)
    ensures InitChips(chips, luck.badChip) == READY
  {
  }

  // A board other than that of the operation only goes on or off.
  predicate SameBut(h: Half, h': Half) {
    h' == h.(powered := h'.powered)
  }

  lemma OpenIs(halves: seq<Half>, b: nat, luck: Luck, clean: bool)
    requires b < |halves| && PowerOk(halves, clean) && HalfOk(halves[b], clean)
    ensures var (halves', ok) := Open(halves, b, luck);
            && |halves'| == |halves| && PowerOk(halves', clean) && HalfOk(halves'[b], clean)
            && halves'[b].openCount == halves[b].openCount + (if ok then 1 else 0)
            && (forall o :: 0 <= o < |halves| && o != b ==> SameBut(halves[o], halves'[o]))
            && (clean && !ok ==> halves' == halves)
            && (ok <==> luck.wakes && (halves[b].openCount == 0 ==>
                  (luck.badChip.Some? ==> luck.badChip.value > 3) && luck.sleeps && luck.setsUp))
  {
    var first := Total(halves) == 0;
    var on := if first then Powered(halves, true) else halves;
    TotalPowered(halves, true);
    var (h, ok) := TryOpen(on[b], luck);
    if InitGoes(luck) { InitReadies(on[b].chips, luck); }
    var h' := if ok then h.(openCount := h.openCount + 1)
              else if h.openCount == 0 then h.(chips := RESTING) else h;
    var done := on[b := h'];
    TotalUpdated(on, b, h');
    TotalPowered(done, false);
    TotalOf(halves, b);
    if clean && !ok {
      var halves' := if first then Powered(done, false) else done;
      assert halves' == halves;
    }
  }

  lemma OpenKeeps(c: Card, index: nat, luck: Luck, clean: bool)
    requires Fit(c, clean) && WellFormed(c)
    ensures Fit(Apply(c, OpenTuner(index, luck)), clean)
  {
    if index < |c.inUse| && !c.inUse[index] {
      var b := BoardOf(index);
      assert BoardOk(c, b, clean);
      OpenIs(c.halves, b, luck, clean);
      OpenedHere(c.inUse, index, true);
      var c' := Apply(c, OpenTuner(index, luck));
      forall o | 0 <= o < |c'.halves| ensures BoardOk(c', o, clean) {
        assert BoardOk(c, o, clean);
        if o != b { OpenedElsewhere(c.inUse, index, true, o); }
      }
    }
  }

  lemma SetLnbKeeps(h: Half, place: nat, on: bool, writes: bool, clean: bool)
    requires HalfOk(h, clean) && place < 2
    ensures var (h', ok) := SetLnb(h, place, on, writes);
            && HalfOk(h', clean) && h'.openCount == h.openCount && h'.powered == h.powered
            && (ok ==> h'.lnb[place] == on)
  {
    assert Others(h.lnb, place) <==> h.lnb[1 - place];
  }

  lemma LnbSetKeeps(c: Card, index: nat, on: bool, writes: bool, clean: bool)
    requires Fit(c, clean) && WellFormed(c) && index < |c.inUse|
    ensures var c' := LnbSet(c, index, on, writes);
            && Fit(c', clean) && WellFormed(c') && c'.inUse == c.inUse && |c'.halves| == |c.halves|
  {
    var b, place := BoardOf(index), PlaceOf(index);
    assert BoardOk(c, b, clean);
    if IsSatellite(place) {
      SetLnbKeeps(c.halves[b], place, on, writes, clean);
      var c' := LnbSet(c, index, on, writes);
      TotalUpdated(c.halves, b, c'.halves[b]);
      forall o | 0 <= o < |c'.halves| ensures BoardOk(c', o, clean) { assert BoardOk(c, o, clean); }
      FitIsWellFormed(c', clean);
    }
  }

  lemma CloseIs(halves: seq<Half>, b: nat, clean: bool)
    requires b < |halves| && PowerOk(halves, clean) && HalfOk(halves[b], clean) && halves[b].openCount > 0
    ensures var halves' := Close(halves, b);
            && |halves'| == |halves| && PowerOk(halves', clean) && HalfOk(halves'[b], clean)
            && halves'[b].openCount == halves[b].openCount - 1
            && forall o :: 0 <= o < |halves| && o != b ==> SameBut(halves[o], halves'[o])
  {
    var h := halves[b].(openCount := halves[b].openCount - 1);
    var h' := if h.openCount == 0 then h.(chips := RESTING) else h;
    var done := halves[b := h'];
    TotalUpdated(halves, b, h');
    TotalPowered(done, false);
    TotalOf(halves, b);
  }

  lemma ReleaseKeeps(c: Card, index: nat, writes: bool, clean: bool)
    requires Fit(c, clean) && Enabled(c, Release(index, writes))
    ensures Fit(Apply(c, Release(index, writes)), clean)
  {
    var b := BoardOf(index);
    LnbSetKeeps(c, index, false, writes, clean);
    var c1 := LnbSet(c, index, false, writes);
    assert BoardOk(c1, b, clean) && BoardOk(c, b, clean);
    CloseIs(c1.halves, b, clean);
    OpenedHere(c1.inUse, index, false);
    var c' := Apply(c, Release(index, writes));
    forall o | 0 <= o < |c'.halves| ensures BoardOk(c', o, clean) {
      assert BoardOk(c1, o, clean);
      if o != b { OpenedElsewhere(c1.inUse, index, false, o); }
    }
  }

  // Of what an open was the first to want, it left something when given up on.
  predicate Leaves(c: Card, step: Step)
    requires Enabled(c, step)
  {
    step.GiveUp?
    && ((Total(c.halves) == 0 && exists o :: 0 <= o < |c.halves| && o in step.powered)
        || (c.halves[BoardOf(step.index)].openCount == 0 && exists i :: 0 <= i < TUNERS && i in step.ready))
  }

  lemma {:induction false} TotalPoweredAt(halves: seq<Half>, on: set<nat>, from: nat)
    requires from <= |halves|
    ensures Total(PoweredAt(halves, on)[from..]) == Total(halves[from..])
    decreases |halves| - from
  {
    if from == |halves| {
    } else {
      TotalPoweredAt(halves, on, from + 1);
    }
  }

  lemma GivenUpIs(halves: seq<Half>, b: nat, on: set<nat>, ready: set<nat>)
    requires b < |halves| && PowerOk(halves, false) && HalfOk(halves[b], false)
    ensures var halves' := GivenUp(halves, b, on, ready);
            && |halves'| == |halves| && PowerOk(halves', false) && HalfOk(halves'[b], false)
            && Total(halves') == Total(halves) && halves'[b].openCount == halves[b].openCount
            && (halves[b].openCount == 0 ==> forall i :: 0 <= i < TUNERS ==> halves'[b].chips[i] == (i in ready))
            && (halves[b].openCount > 0 ==> halves'[b].chips == halves[b].chips)
            && (forall o :: 0 <= o < |halves| ==>
                  halves'[o].powered == if Total(halves) == 0 then o in on else halves[o].powered)
            && (forall o :: 0 <= o < |halves| && o != b ==> SameBut(halves[o], halves'[o]))
  {
    var h := halves[b];
    var h' := if h.openCount == 0 then h.(chips := seq(TUNERS, i => i in ready)) else h;
    var done := halves[b := h'];
    TotalUpdated(halves, b, h');
    TotalPoweredAt(done, on, 0);
    assert done[0..] == done && PoweredAt(done, on)[0..] == PoweredAt(done, on);
  }

  lemma GiveUpKeeps(c: Card, step: Step, clean: bool)
    requires Fit(c, clean) && Enabled(c, step) && step.GiveUp?
    ensures Fit(Apply(c, step), false)
    ensures clean ==> (Fit(Apply(c, step), true) <==> !Leaves(c, step))
  {
    var b, c' := BoardOf(step.index), Apply(c, step);
    assert BoardOk(c, b, clean);
    GivenUpIs(c.halves, b, step.powered, step.ready);
    forall o | 0 <= o < |c'.halves| ensures BoardOk(c', o, false) { assert BoardOk(c, o, clean); }
    if clean {
      if Leaves(c, step) { LeftIsUnsound(c, step); } else { NothingLeft(c, step); }
    }
  }

  lemma NothingLeft(c: Card, step: Step)
    requires Fit(c, true) && Enabled(c, step) && step.GiveUp? && !Leaves(c, step)
    ensures Fit(Apply(c, step), true)
  {
    var b, c' := BoardOf(step.index), Apply(c, step);
    assert BoardOk(c, b, true);
    GivenUpIs(c.halves, b, step.powered, step.ready);
    forall o | 0 <= o < |c'.halves| ensures BoardOk(c', o, true) {
      assert BoardOk(c, o, true);
      assert o == b && c.halves[b].openCount == 0 ==> c'.halves[b].chips == RESTING;
    }
  }

  lemma LeftIsUnsound(c: Card, step: Step)
    requires Fit(c, true) && Enabled(c, step) && Leaves(c, step)
    ensures !Fit(Apply(c, step), true)
  {
    var b, c' := BoardOf(step.index), Apply(c, step);
    assert BoardOk(c, b, true);
    GivenUpIs(c.halves, b, step.powered, step.ready);
    if o :| 0 <= o < |c.halves| && o in step.powered && Total(c.halves) == 0 {
      assert c'.halves[o].powered && !PowerOk(c'.halves, true);
    } else {
      var i :| 0 <= i < TUNERS && i in step.ready;
      assert c'.halves[b].chips[i] && !BoardOk(c', b, true);
    }
  }

  lemma StepKeeps(c: Card, step: Step, clean: bool)
    requires Fit(c, clean) && Enabled(c, step)
    ensures Fit(Apply(c, step), clean && !Leaves(c, step))
    ensures clean && Leaves(c, step) ==> !Sound(Apply(c, step))
  {
    match step
    case OpenTuner(index, luck) => OpenKeeps(c, index, luck, clean);
    case GiveUp(_, _, _) => GiveUpKeeps(c, step, clean);
    case LnbOn(index, on, writes) => LnbSetKeeps(c, index, on, writes, clean);
    case Release(index, writes) => ReleaseKeeps(c, index, writes, clean);
  }

  // Whether some open given up on along `steps` left anything.
  predicate LeavesIn(c: Card, steps: seq<Step>)
    decreases |steps|
  {
    steps != [] && Enabled(c, steps[0]) && (Leaves(c, steps[0]) || LeavesIn(Apply(c, steps[0]), steps[1..]))
  }

  // Whether the card is sound all along `steps`.
  predicate SoundAlong(c: Card, steps: seq<Step>)
    decreases |steps|
  {
    Sound(c) && (steps == [] || (Enabled(c, steps[0]) && SoundAlong(Apply(c, steps[0]), steps[1..])))
  }

  lemma {:induction false} RunKeeps(c: Card, steps: seq<Step>)
    requires Fit(c, false) && After(c, steps).Some?
    ensures Fit(After(c, steps).value, false)
    decreases |steps|
  {
    if steps == [] {
    } else {
      StepKeeps(c, steps[0], false);
      RunKeeps(Apply(c, steps[0]), steps[1..]);
    }
  }

  lemma {:induction false} SoundUnlessLeft(c: Card, steps: seq<Step>)
    requires Sound(c) && After(c, steps).Some?
    ensures SoundAlong(c, steps) <==> !LeavesIn(c, steps)
    ensures !LeavesIn(c, steps) ==> Sound(After(c, steps).value)
    decreases |steps|
  {
    if steps == [] {
    } else {
      StepKeeps(c, steps[0], true);
      if !Leaves(c, steps[0]) { SoundUnlessLeft(Apply(c, steps[0]), steps[1..]); }
    }
  }

  lemma {:induction false} NewIsSound(boards: nat)
    ensures Sound(NewCard(boards))
  {
    var c := NewCard(boards);
    NoneOpen(c.halves);
    forall b | 0 <= b < boards ensures BoardOk(c, b, true) {}
  }

  lemma {:induction false} NoneOpen(halves: seq<Half>)
    requires forall b :: 0 <= b < |halves| ==> halves[b].openCount == 0
    ensures Total(halves) == 0
  {
    if halves == [] {
    } else {
      NoneOpen(halves[1..]);
    }
  }

  // In every state of a card, opens given up on or not: a board counts its open
  // tuners, a tuner handed out may be released without the count going below
  // zero, a board with any has its chips initialised, every board is powered
  // while any tuner of the card is open, and the LNB line is on exactly when some
  // tuner wants it.
  lemma CardIsFit(boards: nat, steps: seq<Step>)
    requires After(NewCard(boards), steps).Some?
    ensures var c := After(NewCard(boards), steps).value;
            && Fit(c, false) && WellFormed(c)
            && (forall index, writes :: 0 <= index < |c.inUse| && c.inUse[index] ==> Enabled(c, Release(index, writes)))
  {
    NewIsSound(boards);
    RunKeeps(NewCard(boards), steps);
    var c := After(NewCard(boards), steps).value;
    FitIsWellFormed(c, false);
    forall index, writes | 0 <= index < |c.inUse| && c.inUse[index] ensures Enabled(c, Release(index, writes)) {
      CountsOpen(c, index, false);
    }
  }

  // Every board is powered exactly while any tuner of the card is open, and a
  // board's chips are all initialised while it has any and none otherwise, all
  // along a run exactly if no open was given up on with something left.
  lemma CardIsSound(boards: nat, steps: seq<Step>)
    requires After(NewCard(boards), steps).Some?
    ensures SoundAlong(NewCard(boards), steps) <==> !LeavesIn(NewCard(boards), steps)
    ensures !LeavesIn(NewCard(boards), steps) ==>
              var c := After(NewCard(boards), steps).value;
              && Sound(c)
              && forall b :: 0 <= b < |c.halves| ==> (c.halves[b].powered <==> AnyOpen(c))
  {
    NewIsSound(boards);
    SoundUnlessLeft(NewCard(boards), steps);
    if !LeavesIn(NewCard(boards), steps) { PoweredWhileOpen(After(NewCard(boards), steps).value); }
  }

  predicate AnyOpen(c: Card) {
    exists index :: 0 <= index < |c.inUse| && c.inUse[index]
  }

  lemma PoweredWhileOpen(c: Card)
    requires Sound(c)
    ensures forall b :: 0 <= b < |c.halves| ==> (c.halves[b].powered <==> AnyOpen(c))
  {
    forall b | 0 <= b < |c.halves| ensures c.halves[b].powered <==> AnyOpen(c) {
      if index :| 0 <= index < |c.inUse| && c.inUse[index] {
        CountsOpen(c, index, true);
        TotalOf(c.halves, BoardOf(index));
      } else {
        forall o | 0 <= o < |c.halves| ensures c.halves[o].openCount == 0 { assert BoardOk(c, o, true); }
        NoneOpen(c.halves);
      }
    }
  }

  lemma CountsOpen(c: Card, index: nat, clean: bool)
    requires Fit(c, clean) && index < |c.inUse| && c.inUse[index]
    ensures c.halves[BoardOf(index)].openCount > 0
  {
    var b := BoardOf(index);
    assert BoardOk(c, b, clean);
    assert index == 4 * b || index == 4 * b + 1 || index == 4 * b + 2 || index == 4 * b + 3;
  }

  // It comes to that: the board is powered, and its first chip initialised, with
  // no tuner open.
  lemma GivenUpOnce()
    ensures var steps := [GiveUp(0, {0}, {0})];
            && After(NewCard(1), steps).Some? && LeavesIn(NewCard(1), steps)
            && var c := After(NewCard(1), steps).value;
               c.halves[0].powered && c.halves[0].chips[0] && !AnyOpen(c)
  {
    var c, step := NewCard(1), GiveUp(0, {0}, {0});
    NoneOpen(c.halves);
    assert Enabled(c, step) && 0 in step.powered;
    assert [step][1..] == [] && After(Apply(c, step), []) == Some(Apply(c, step));
  }

  // A failed open leaves the card as it was; one that goes through, the tuner
  // open, and nothing else changed but the power. It goes through exactly if the
  // tuner wakes up and, for the first on its board, no chip of it fails.
  lemma OpenAllOrNothing(c: Card, index: nat, luck: Luck)
    requires Sound(c) && WellFormed(c) && index < |c.inUse| && !c.inUse[index]
    ensures var c' := Apply(c, OpenTuner(index, luck));
            && (if c'.inUse[index] then c'.inUse == c.inUse[index := true] else c' == c)
            && (c'.inUse[index] <==> luck.wakes && (c.halves[index / 4].openCount == 0 ==>
                  (luck.badChip.Some? ==> luck.badChip.value > 3) && luck.sleeps && luck.setsUp))
  {
    assert BoardOk(c, BoardOf(index), true);
    OpenIs(c.halves, BoardOf(index), luck, true);
  }

  /* The card itself */

  class Board {
    var halves: seq<Half>
    var inUse: seq<bool>

    ghost function View(): Card
      reads this
    {
      Card(halves, inUse)
    }

    ghost predicate Valid()
      reads this
    {
      Fit(View(), false) && WellFormed(View())
    }

    constructor (boards: nat)
      ensures Valid() && View() == NewCard(boards)
    {
      halves := seq(boards, _ => Half(RESTING, 0, RESTING, false, false));
      inUse := seq(4 * boards, _ => false);
      NewIsSound(boards);
      FitIsWellFormed(NewCard(boards), true);
    }

    method OpenCount() returns (n: nat)
      ensures n == Total(halves)
    {
      n := 0;
      var b := 0;
      assert halves[0..] == halves;
      while b < |halves|
        invariant b <= |halves| && Total(halves) == n + Total(halves[b..])
      {
        assert halves[b..][1..] == halves[b + 1..];
        n := n + halves[b].openCount;
        b := b + 1;
      }
    }

    method Power(on: bool)
      modifies this
      ensures halves == Powered(old(halves), on) && inUse == old(inUse)
    {
      var b := 0;
      while b < |halves|
        invariant b <= |halves| == |old(halves)| && inUse == old(inUse)
        invariant forall o :: 0 <= o < b ==> halves[o] == old(halves)[o].(powered := on)
        invariant forall o :: b <= o < |halves| ==> halves[o] == old(halves)[o]
      {
        halves := halves[b := halves[b].(powered := on)];
        b := b + 1;
      }
    }

    // Initialises the tuners of a board, then puts all but one to sleep.
    method Init(b: nat, luck: Luck) returns (ok: bool)
      requires b < |halves| && |halves[b].chips| == TUNERS
      modifies this
      ensures halves == old(halves)[b := old(halves)[b].(chips := InitChips(old(halves)[b].chips, luck.badChip))]
      ensures inUse == old(inUse) && (ok <==> InitGoes(luck))
    {
      var chips, i := halves[b].chips, 0;
      while i < TUNERS && luck.badChip != Some(i)
        invariant i <= TUNERS == |chips| && (luck.badChip.Some? ==> i <= luck.badChip.value)
        invariant forall j :: 0 <= j < i ==> chips[j] && (luck.badChip.Some? ==> j < luck.badChip.value)
        invariant forall j :: i <= j < TUNERS ==> chips[j] == halves[b].chips[j]
      {
        chips := chips[i := true];
        i := i + 1;
      }
      if i < TUNERS { chips := chips[i := false]; }
      assert chips == InitChips(halves[b].chips, luck.badChip);
      halves := halves[b := halves[b].(chips := chips)];
      ok := i == TUNERS && luck.sleeps;
    }

    method Term(b: nat)
      requires b < |halves| && |halves[b].chips| == TUNERS
      modifies this
      ensures halves == old(halves)[b := old(halves)[b].(chips := RESTING)] && inUse == old(inUse)
    {
      var chips, i := halves[b].chips, 0;
      while i < TUNERS
        invariant i <= TUNERS == |chips| && forall j :: 0 <= j < i ==> !chips[j]
      {
        chips := chips[i := false];
        i := i + 1;
      }
      assert chips == RESTING;
      halves := halves[b := halves[b].(chips := chips)];
    }

    method TryOpenHalf(b: nat, luck: Luck) returns (ok: bool)
      requires b < |halves| && |halves[b].chips| == TUNERS
      modifies this
      ensures inUse == old(inUse)
      ensures var (h, goes) := TryOpen(old(halves)[b], luck); halves == old(halves)[b := h] && ok == goes
    {
      var first := halves[b].openCount == 0;
      if first {
        ok := Init(b, luck);
        if !ok { return; }
      }
      if !luck.wakes { return false; }
      ok := !first || luck.setsUp;
    }

    method OpenHalf(b: nat, luck: Luck) returns (ok: bool)
      requires b < |halves| && |halves[b].chips| == TUNERS
      modifies this
      ensures inUse == old(inUse) && (halves, ok) == Open(old(halves), b, luck)
    {
      var count := OpenCount();
      var first := count == 0;
      if first { Power(true); }
      ghost var on := halves;
      ok := TryOpenHalf(b, luck);
      if ok { halves := halves[b := halves[b].(openCount := halves[b].openCount + 1)]; }
      else if halves[b].openCount == 0 { Term(b); }
      assert halves == on[b := halves[b]];
      if !ok && first { Power(false); }
    }

    method CloseHalf(b: nat)
      requires b < |halves| && |halves[b].chips| == TUNERS && halves[b].openCount > 0
      modifies this
      ensures inUse == old(inUse) && halves == Close(old(halves), b)
    {
      halves := halves[b := halves[b].(openCount := halves[b].openCount - 1)];
      if halves[b].openCount == 0 { Term(b); }
      assert halves == old(halves)[b := halves[b]];
      var count := OpenCount();
      if count == 0 { Power(false); }
    }

    method SetLnbFor(index: nat, on: bool, writes: bool) returns (r: Outcome)
      requires WellFormed(View()) && index < |inUse|
      modifies this
      ensures View() == LnbSet(old(View()), index, on, writes)
      ensures r == if !IsSatellite(PlaceOf(index)) then Unsupported
                   else if SetLnb(old(halves)[BoardOf(index)], PlaceOf(index), on, writes).1 then Done else Failed
      ensures var was := old(halves)[index / 4].lnb;
              r == Failed <==> index % 4 < 2 && was[index % 4] != on && !writes
                               && forall i :: 0 <= i < TUNERS && i != index % 4 ==> !was[i]
      ensures r == Done ==> halves[index / 4].lnb[index % 4] == on
    {
      var b, place := BoardOf(index), PlaceOf(index);
      if !IsSatellite(place) { return Unsupported; }
      var h := halves[b];
      if h.lnb[place] == on {
        assert halves == halves[b := h];
        return Done;
      }
      var others, i := false, 0;
      while i < |h.lnb|
        invariant i <= |h.lnb| && (others <==> exists j :: 0 <= j < i && j != place && h.lnb[j])
      {
        others := others || (i != place && h.lnb[i]);
        i := i + 1;
      }
      assert others <==> Others(h.lnb, place);
      if !others {
        if !writes {
          assert halves == halves[b := h];
          return Failed;
        }
        h := h.(gpio := on);
      }
      halves := halves[b := h.(lnb := h.lnb[place := on])];
      r := Done;
    }

    method HandOutTuner(index: nat, luck: Luck) returns (r: Outcome)
      requires Valid()
      modifies this
      ensures Valid() && View() == Apply(old(View()), OpenTuner(index, luck))
      ensures r == if index >= |old(inUse)| then NotFound
                   else if old(inUse)[index] then Busy
                   else if inUse[index] then Done else Failed
      ensures index < |old(inUse)| && !old(inUse)[index] ==>
                (r == Done <==> luck.wakes && (old(halves)[index / 4].openCount == 0 ==>
                   (luck.badChip.Some? ==> luck.badChip.value > 3) && luck.sleeps && luck.setsUp))
    {
      OpenKeeps(View(), index, luck, false);
      FitIsWellFormed(Apply(View(), OpenTuner(index, luck)), false);
      if index >= |inUse| { return NotFound; }
      if inUse[index] { return Busy; }
      assert BoardOk(View(), BoardOf(index), false);
      OpenIs(halves, BoardOf(index), luck, false);
      var ok := OpenHalf(BoardOf(index), luck);
      if !ok { return Failed; }
      inUse := inUse[index := true];
      r := Done;
    }

    method ReleaseTuner(index: nat, writes: bool)
      requires Valid() && index < |inUse| && inUse[index]
      modifies this
      ensures Enabled(old(View()), Release(index, writes)) && View() == Apply(old(View()), Release(index, writes))
      ensures Valid() && !inUse[index]
      ensures writes && IsSatellite(PlaceOf(index)) ==> !halves[BoardOf(index)].lnb[PlaceOf(index)]
    {
      CountsOpen(View(), index, false);
      ReleaseKeeps(View(), index, writes, false);
      FitIsWellFormed(Apply(View(), Release(index, writes)), false);
      LnbSetKeeps(View(), index, false, writes, false);
      var r := SetLnbFor(index, false, writes);
      CloseHalf(BoardOf(index));
      inUse := inUse[index := false];
    }
  }
}
