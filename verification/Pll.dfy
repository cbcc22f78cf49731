/** What the PLLs of the R850 and the RT710 share. */
module Pll {
  // A divider with a fraction, kept off the spurs, that a loop finds bit by bit.
  // Frequencies are in kHz.

  import opened Options
  import opened Ints

  const XTAL: nat := 24_000

  // Whether `x` is a power of two.
  predicate Power(x: nat) {
    x == 1 || (x > 0 && x % 2 == 0 && Power(x / 2))
  }

  // What a step of the loop is worth: `nsdm` goes up as this goes down, past
  // the last to 0x10000.
  type Weight = w: nat | 1 <= w <= 0x8000 && Power(w) witness 1

  function Top(): (w: Weight)
    ensures w == 0x8000
  {
    assert Power(0x10) && Power(0x100) && Power(0x1000);
    0x8000
  }

  function Half(w: Weight): (h: Weight)
    requires w >= 2
    ensures 2 * h == w
  {
    assert Power(w);
    w / 2
  }

  /* What the steps add up to */

  // What the steps from the one worth `w` on add to the result; `t` is twice
  // the crystal over `nsdm`, which a fraction must be above to have it taken.
  function Sdm(fra: nat, t: nat, w: Weight): nat
    decreases w
  {
    if fra <= 1 || w < 2 then 0
    else if t < fra then w + Sdm(fra - t, t / 2, Half(w))
    else Sdm(fra, t / 2, Half(w))
  }

  // The same of the loop of the RT710, None if it comes to divide by zero.
  function RtSdm(fra: nat, t: nat, w: Weight): Option<nat>
    decreases w
  {
    if fra <= 1 then Some(0)
    else if w < 2 then None
    else if fra <= t then RtSdm(fra, t / 2, Half(w))
    else if w == 2 then Some(w)
    else Plus(w, RtSdm(fra - t, t / 2, Half(w)))
  }

  function Plus(taken: nat, rest: Option<nat>): Option<nat> {
    match rest
    case Some(sdm) => Some(taken + sdm)
    case None => None
  }

  // Where the loop of the RT710 ends, it comes to the same.
  lemma {:induction false} LoopsAgree(fra: nat, t: nat, w: Weight)
    ensures RtSdm(fra, t, w).Some? ==> RtSdm(fra, t, w).value == Sdm(fra, t, w)
    decreases w
  {
    if fra <= 1 || w < 2 {
    } else {
      LoopsAgree(if t < fra then fra - t else fra, t / 2, Half(w));
    }
  }

  // The last threshold is one or less.
  lemma {:induction false} SlowCrystalEnds(fra: nat, t: nat, w: Weight)
    requires 2 <= w && t < w
    ensures RtSdm(fra, t, w).Some?
    decreases w
  {
    if fra <= 1 || w == 2 {
    } else {
      SlowCrystalEnds(if t < fra then fra - t else fra, t / 2, Half(w));
    }
  }

  lemma {:induction false} FastCrystalDoesNot(t: nat, w: Weight)
    requires w <= t
    ensures RtSdm(2, t, w).None?
    decreases w
  {
    if w < 2 {
    } else {
      FastCrystalDoesNot(t / 2, Half(w));
    }
  }

  // The loop of the RT710 ends, whatever the fraction, for a crystal below
  // 32768 kHz, and for no other; it comes to what that of the R850 does.
  lemma RtLoopEnds(xtal: nat)
    ensures (forall fra: U16 :: RtSdm(fra, xtal, Top()).Some?) <==> xtal < 0x8000
    ensures forall fra: U16 :: RtSdm(fra, xtal, Top()).Some? ==>
              RtSdm(fra, xtal, Top()) == Some(Sdm(fra, xtal, Top()))
  {
    if xtal < 0x8000 {
      forall fra: U16 ensures RtSdm(fra, xtal, Top()).Some? { SlowCrystalEnds(fra, xtal, Top()); }
    } else {
      FastCrystalDoesNot(xtal, Top());
      assert RtSdm(2 as U16, xtal, Top()).None?;
    }
    forall fra: U16 | RtSdm(fra, xtal, Top()).Some?
      ensures RtSdm(fra, xtal, Top()) == Some(Sdm(fra, xtal, Top()))
    {
      LoopsAgree(fra, xtal, Top());
    }
  }

  lemma {:induction false} SdmIsEven(fra: nat, t: nat, w: Weight) returns (half: nat)
    ensures Sdm(fra, t, w) == 2 * half && half < w
    decreases w
  {
    half := 0;
    if fra <= 1 || w < 2 {
    } else {
      half := SdmIsEven(if t < fra then fra - t else fra, t / 2, Half(w));
      if t < fra { half := Half(w) + half; }
    }
  }

  /* How close the result comes */

  function Steps(w: Weight): nat
    decreases w
  {
    if w < 2 then 0 else 1 + Steps(Half(w))
  }

  // What is left of 65536 times the fraction when the result, worth `x` each,
  // is taken off; a step takes `t` off the fraction for `w`, less than one too
  // little, and `owed` is what the steps before owe so.
  lemma {:induction false} SdmIsClose(fra: nat, t: nat, w: Weight, x: nat, owed: int)
    requires 0x1_0000 * t <= w * x < 0x1_0000 * (t + 1)
    requires owed <= 0 && 0x1_0000 * fra + owed <= 2 * (w * x)
    ensures var left := 0x1_0000 * fra + owed - Sdm(fra, t, w) * x;
            && owed - Steps(w) * 0x1_0000 <= left
            && (left <= 0x1_0000 || left <= 2 * x)
    decreases w
  {
    if fra <= 1 || w < 2 {
    } else {
      var h := Half(w);
      assert 2 * (h * x) == w * x;
      if t < fra {
        assert (w + Sdm(fra - t, t / 2, h)) * x == w * x + Sdm(fra - t, t / 2, h) * x;
        SdmIsClose(fra - t, t / 2, h, x, owed + 0x1_0000 * t - w * x);
      } else {
        SdmIsClose(fra, t / 2, h, x, owed);
      }
    }
  }

  // The result is even, and with a fraction of less than twice the crystal,
  // one below 32768 kHz, within 16 of it.
  lemma SdmIsTheFraction(fra: nat, xtal: nat) returns (half: nat)
    requires fra < 2 * xtal < 0x1_0000
    ensures var sdm := Sdm(fra, xtal, Top());
            && sdm == 2 * half && sdm <= 65534
            && -16 * 0x1_0000 <= sdm * (2 * xtal) - 0x1_0000 * fra <= 16 * 0x1_0000
  {
    half := SdmIsEven(fra, xtal, Top());
    SdmIsClose(fra, xtal, Top(), 2 * xtal, 0);
    StepsAre();
  }

  lemma StepsAre()
    ensures Steps(Top()) == 15
  {
    assert Power(0x10) && Power(0x100) && Power(0x1000);
    assert Steps(0x10 as Weight) == 4;
    assert Steps(0x100 as Weight) == 8;
    assert Steps(0x1000 as Weight) == 12;
  }

  /* The loops themselves */

  // Where the loops are: `nsdm` is that of the step worth `w`, and `t` its
  // threshold.
  predicate At(xtal: nat, nsdm: nat, w: Weight, t: nat) {
    nsdm > 0 && nsdm * w == 0x1_0000 && t == xtal * 2 / nsdm
  }

  lemma HalvedTwice(x: nat, n: nat)
    requires n > 0
    ensures x / n / 2 == x / (2 * n)
  {
    var q := x / n;
    assert x == n * q + x % n;
    assert 2 * n * (q / 2) + n * (q % 2) == n * q;
    assert q % 2 == 0 || q % 2 == 1;
    assert x == 2 * n * (q / 2) + (n * (q % 2) + x % n);
    Quotient(x, 2 * n, q / 2, n * (q % 2) + x % n);
  }

  lemma Quotient(x: nat, d: nat, q: nat, r: nat)
    requires x == d * q + r && r < d
    ensures x / d == q
  {
    var p := x / d;
    assert x == d * p + x % d;
    assert p < q ==> d * (p + 1) <= d * q;
    assert q < p ==> d * (q + 1) <= d * p;
  }

  lemma {:induction false} PowersAre(w: nat)
    requires w <= 0x8000 && Power(w)
    ensures w in {1, 2, 4, 8, 0x10, 0x20, 0x40, 0x80, 0x100, 0x200, 0x400, 0x800, 0x1000, 0x2000, 0x4000, 0x8000}
  {
    if w == 1 {
    } else {
      PowersAre(w / 2);
    }
  }

  lemma NsdmIs(nsdm: nat, w: Weight)
    requires nsdm * w == 0x1_0000
    ensures nsdm >= 2
    ensures w >= 2 ==> nsdm <= 0x8000 && 0x8000 / (nsdm / 2) == w
    ensures w == 2 <==> nsdm == 0x8000
    ensures w == 1 <==> nsdm == 0x1_0000
    ensures w > 2 ==> nsdm < 0x8000
  {
    PowersAre(w);
  }

  lemma GoesOn(xtal: nat, nsdm: nat, w: Weight, t: nat)
    requires At(xtal, nsdm, w, t) && w >= 2
    ensures At(xtal, 2 * nsdm, Half(w), t / 2)
  {
    HalvedTwice(xtal * 2, nsdm);
    assert 2 * nsdm * Half(w) == nsdm * w;
  }

  // A step of the loop of the R850, on its way to `goal`, taken or not.
  lemma Takes(goal: nat, xtal: nat, left: nat, nsdm: nat, sdm: nat, w: Weight, t: nat)
    requires At(xtal, nsdm, w, t) && goal == sdm + Sdm(left, t, w) && left > 1 && nsdm <= 0x8000
    ensures 2 <= nsdm && w >= 2 && At(xtal, nsdm + nsdm, Half(w), t / 2) && t == xtal * 2 / nsdm
    ensures if t < left then goal == sdm + 0x8000 / (nsdm / 2) + Sdm(left - t, t / 2, Half(w))
            else goal == sdm + Sdm(left, t / 2, Half(w))
    ensures nsdm / 0x8000 % 2 != 0 <==> Half(w) < 2
  {
    NsdmIs(nsdm, w);
    GoesOn(xtal, nsdm, w, t);
  }

  method PllSdm(fra: U16, xtal: nat) returns (r: U16)
    ensures r == Sdm(fra, xtal, Top())
  {
    ghost var goal := Sdm(fra, xtal, Top());
    ghost var half := SdmIsEven(fra, xtal, Top());
    var vcoFra: U16, nsdm: nat, sdm: nat := fra, 2, 0;
    ghost var w: Weight, t: nat := Top(), xtal;
    while vcoFra > 1 && nsdm <= 0x8000
      invariant At(xtal, nsdm, w, t) && goal == sdm + Sdm(vcoFra, t, w)
      decreases w
    {
      Takes(goal, xtal, vcoFra, nsdm, sdm, w, t);
      if xtal * 2 / nsdm < vcoFra {
        vcoFra := vcoFra - xtal * 2 / nsdm;
        sdm := sdm + 0x8000 / (nsdm / 2);
        if nsdm / 0x8000 % 2 != 0 { return sdm; }
      }
      nsdm := nsdm + nsdm;
      w, t := Half(w), t / 2;
    }
    NsdmIs(nsdm, w);
    r := sdm;
  }

  function Wrap(x: nat): (r: U16)
    ensures x < 0x1_0000 ==> r == x
    ensures x == 0x1_0000 ==> r == 0
  {
    x % 0x1_0000
  }

  // Where the loop of the RT710 is on its way to `goal`.
  ghost predicate RtAt(goal: Option<nat>, xtal: nat, left: nat, nsdm: nat, sdm: nat, w: Weight, t: nat) {
    && (if w == 1 then nsdm == 0 else At(xtal, nsdm, w, t))
    && sdm + 2 * w <= 0x1_0000
    && goal == Plus(sdm, RtSdm(left, t, w))
  }

  lemma RtEnds(goal: Option<nat>, xtal: nat, left: nat, nsdm: nat, sdm: nat, w: Weight, t: nat)
    requires RtAt(goal, xtal, left, nsdm, sdm, w, t) && (left <= 1 || nsdm == 0)
    ensures goal == if left <= 1 then Some(sdm) else None
  {
  }

  // A step of it, taken or not.
  lemma RtSkips(goal: Option<nat>, xtal: nat, left: nat, nsdm: U16, sdm: nat, w: Weight, t: nat)
    requires RtAt(goal, xtal, left, nsdm, sdm, w, t) && nsdm != 0 && 1 < left <= t
    ensures w >= 2 && RtAt(goal, xtal, left, Wrap(nsdm * 2), sdm, Half(w), t / 2)
  {
    NsdmIs(nsdm, w);
    GoesOn(xtal, nsdm, w, t);
  }

  lemma RtTakes(goal: Option<nat>, xtal: nat, left: nat, nsdm: U16, sdm: nat, w: Weight, t: nat)
    requires RtAt(goal, xtal, left, nsdm, sdm, w, t) && nsdm != 0 && left > 1 && left > t && w > 2
    ensures RtAt(goal, xtal, left - t, Wrap(nsdm * 2), sdm + w, Half(w), t / 2)
  {
    NsdmIs(nsdm, w);
    GoesOn(xtal, nsdm, w, t);
  }

  lemma RtWeighs(goal: Option<nat>, xtal: nat, left: nat, nsdm: U16, sdm: nat, w: Weight, t: nat)
    requires RtAt(goal, xtal, left, nsdm, sdm, w, t) && nsdm != 0
    ensures w >= 2 && nsdm >= 2 && 0x8000 / (nsdm / 2) == w && t == xtal * 2 / nsdm
    ensures nsdm >= 0x8000 <==> w == 2
  {
    NsdmIs(nsdm, w);
  }

  lemma RtTakesLast(goal: Option<nat>, xtal: nat, left: nat, nsdm: U16, sdm: nat, w: Weight, t: nat)
    requires RtAt(goal, xtal, left, nsdm, sdm, w, t) && left > 1 && left > t && w == 2
    ensures goal == Some(sdm + w)
  {
  }

  // In 16 bits, as the RT710 has it; None stands for a division by zero.
  method RtPllSdm(fra: U16, xtal: nat) returns (r: Option<nat>)
    ensures r == RtSdm(fra, xtal, Top())
  {
    ghost var goal := RtSdm(fra, xtal, Top());
    var vcoFra: U16, nsdm: U16, sdm: U16 := fra, 2, 0;
    ghost var w: Weight, t: nat := Top(), xtal;
    while vcoFra > 1
      invariant RtAt(goal, xtal, vcoFra, nsdm, sdm, w, t)
      decreases w
    {
      if nsdm == 0 { RtEnds(goal, xtal, vcoFra, nsdm, sdm, w, t); return None; }
      var last;
      last, vcoFra, sdm := RtStep(goal, xtal, vcoFra, nsdm, sdm, w, t);
      if last { return Some(sdm); }
      nsdm := Wrap(nsdm * 2);
      w, t := Half(w), t / 2;
    }
    RtEnds(goal, xtal, vcoFra, nsdm, sdm, w, t);
    r := Some(sdm);
  }

  // One step of the loop; whether it is the last.
  method RtStep(ghost goal: Option<nat>, xtal: nat, vcoFra: U16, nsdm: U16, sdm: U16, ghost w: Weight, ghost t: nat)
      returns (last: bool, left: U16, sum: U16)
    requires RtAt(goal, xtal, vcoFra, nsdm, sdm, w, t) && vcoFra > 1 && nsdm != 0
    ensures w >= 2
    ensures if last then goal == Some(sum) else RtAt(goal, xtal, left, Wrap(nsdm * 2), sum, Half(w), t / 2)
  {
    RtWeighs(goal, xtal, vcoFra, nsdm, sdm, w, t);
    var threshold := xtal * 2 / nsdm;
    last, left, sum := false, vcoFra, sdm;
    if vcoFra > threshold {
      if w > 2 { RtTakes(goal, xtal, vcoFra, nsdm, sdm, w, t); }
      else { RtTakesLast(goal, xtal, vcoFra, nsdm, sdm, w, t); }
      sum := Wrap(sdm + 0x8000 / (nsdm / 2));
      left := vcoFra - threshold;
      last := nsdm >= 0x8000;
    } else {
      RtSkips(goal, xtal, vcoFra, nsdm, sdm, w, t);
    }
  }

  /* Off the spurs */

  // Whether a fraction is on a multiple of the crystal or well away from it.
  predicate OffSpurs(fra: nat, xtal: nat) {
    || fra == 0
    || (xtal / 64 <= fra <= xtal * 127 / 64
        && !(xtal * 127 / 128 < fra < xtal) && !(xtal < fra < xtal * 129 / 128))
  }

  // Whether `nint` times twice the crystal and `fra` are `vco`, if that leaves a
  // fraction off the spurs, and otherwise one that is, within a 64th of the
  // crystal.
  predicate Splits(vco: nat, xtal: nat, nint: nat, fra: nat)
    requires xtal > 0
  {
    && OffSpurs(fra, xtal) && fra < 2 * xtal
    && -1 * xtal <= 64 * (2 * xtal * nint + fra - vco) <= xtal
    && (OffSpurs(vco % (2 * xtal), xtal) ==> fra == vco % (2 * xtal) && 2 * xtal * nint + fra == vco)
  }

  // Whether `sdm` is the sum for such a fraction.
  ghost predicate Divides(vco: nat, xtal: nat, nint: nat, sdm: nat)
    requires xtal > 0
  {
    exists fra: U16 :: Splits(vco, xtal, nint, fra) && sdm == Sdm(fra, xtal, Top())
  }

  lemma RestIs(vco: nat, d: nat, nint: nat, fra: nat)
    requires vco == d * nint + fra && fra < d
    ensures vco % d == fra && vco / d == nint
  {
    Quotient(vco, d, nint, fra);
    assert vco == d * nint + vco % d;
  }

  // What is moved off the spurs splits as it should.
  lemma MovedSplits(vco: nat, xtal: nat, nint: nat, was: nat, up: bool, fra: nat)
    requires vco == 2 * xtal * nint + was && was < 2 * xtal && fra < 2 * xtal
    requires OffSpurs(fra, xtal) && (OffSpurs(was, xtal) ==> !up && fra == was)
    requires -1 * xtal <= 64 * ((if up then 2 * xtal else 0) + fra - was) <= xtal
    ensures Splits(vco, xtal, if up then nint + 1 else nint, fra)
  {
    RestIs(vco, 2 * xtal, nint, was);
    assert 2 * xtal * (nint + 1) == 2 * xtal * nint + 2 * xtal;
  }

  // Moves the fraction off the spurs near the multiples of the crystal, maybe
  // up to the next.
  method Snap(was: U16, xtal: nat) returns (up: bool, fra: U16)
    requires xtal in {XTAL, XTAL / 2, XTAL / 4}
    ensures OffSpurs(fra, xtal) && (OffSpurs(was, xtal) ==> !up && fra == was)
    ensures fra == 0 <==> was < xtal / 64 || was > xtal * 127 / 64
    ensures was < 2 * xtal ==> fra < 2 * xtal
    ensures was < 2 * xtal ==> -1 * xtal <= 64 * ((if up then 2 * xtal else 0) + fra - was) <= xtal
  {
    up, fra := false, was;
    if was < xtal / 64 {
      fra := 0;
    } else if was > xtal * 127 / 64 {
      up, fra := true, 0;
    } else if was > xtal * 127 / 128 && xtal > was {
      fra := AsU16(xtal * 127 / 128);
    } else if xtal < was && was < xtal * 129 / 128 {
      fra := AsU16(xtal * 129 / 128);
    }
  }

  // All of the error: that of the split, at most a 64th of the crystal, and
  // that of the steps, at most 16.
  lemma Adds(xtal: nat, nint: nat, fra: nat, sdm: nat, vco: nat)
    requires -1 * xtal <= 64 * (2 * xtal * nint + fra - vco) <= xtal
    requires -16 * 0x1_0000 <= sdm * (2 * xtal) - 0x1_0000 * fra <= 16 * 0x1_0000
    ensures var off := 2 * xtal * (0x1_0000 * nint + sdm) - 0x1_0000 * vco;
            -0x1_0000 * (xtal + 64 * 16) <= 64 * off <= 0x1_0000 * (xtal + 64 * 16)
  {
    var whole, part := 2 * xtal * nint, sdm * (2 * xtal);
    assert 2 * xtal * (0x1_0000 * nint + sdm) == 0x1_0000 * whole + part;
  }
}
