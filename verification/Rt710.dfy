/**
 The PLL of the RT710 and RT720 tuners, down to the bits of the registers.
 Frequencies are in kHz.
 */
module Rt710 {
  import opened Ints
  import opened Pll

  const NUM_REGS: nat := 0x10
  const VCO_MIN: nat := 2_350_000

  datatype ChipType = Rt710 | Rt720

  type Regs = seq<U8>

  /* What the registers say */

  // The divider of the mixer; the RT710 has one bit for it.
  function MixOf(chip: ChipType, r: Regs): nat
    requires |r| == NUM_REGS
  {
    if chip.Rt720? && r[0x08] as int / 0x10 % 2 == 1 then (if r[0x04] as int % 2 == 0 then 8 else 16)
    else if r[0x04] as int % 2 == 0 then 4 else 2
  }

  function NintOf(r: Regs): nat
    requires |r| == NUM_REGS
  {
    4 * (r[0x05] as int % 0x40) + r[0x05] as int / 0x40 + 13
  }

  function SdmOf(r: Regs): nat
    requires |r| == NUM_REGS
  {
    r[0x06] as int + 0x100 * r[0x07] as int
  }

  // Whether the oscillator goes by the integer alone.
  predicate NoFraction(r: Regs)
    requires |r| == NUM_REGS
  {
    r[0x04] as int / 2 % 2 == 1
  }

  // 65536 times the frequency the oscillator is made to run at.
  function VcoOf(r: Regs): nat
    requires |r| == NUM_REGS
  {
    2 * XTAL * (0x1_0000 * NintOf(r) + if NoFraction(r) then 0 else SdmOf(r))
  }

  // Whether the oscillator is made to run within a 64th of the crystal and
  // 16 kHz of `vco`.
  predicate Runs(r: Regs, vco: nat)
    requires |r| == NUM_REGS
  {
    -0x1_0000 * (XTAL + 64 * 16) <= 64 * (VcoOf(r) - 0x1_0000 * vco) <= 0x1_0000 * (XTAL + 64 * 16)
  }

  // Whether a frequency leaves no fraction off the spurs: one within a 64th of the
  // crystal of a multiple of twice it.
  predicate Whole(vco: nat) {
    vco % 48_000 < 375 || vco % 48_000 > 47_625
  }

  /* The divider */

  predicate VcoInRange(vco: nat) {
    VCO_MIN <= vco <= 2 * VCO_MIN
  }

  // Products of 32 bits; only a frequency of 134217728 kHz or more has them wrap.
  method FindDivider(freq: U32) returns (mixDiv: nat, vcoFreq: nat)
    ensures mixDiv in {2, 4, 8, 16, 32} && vcoFreq == WrappingMul(freq, mixDiv)
    ensures mixDiv <= 16 ==> VcoInRange(vcoFreq)
    ensures forall m :: m in {2, 4, 8, 16} && m < mixDiv ==> !VcoInRange(WrappingMul(freq, m))
    ensures freq < 0x800_0000 ==>
              && vcoFreq == freq * mixDiv
              && (146_875 <= freq <= VCO_MIN <==> mixDiv <= 16)
              && (587_500 <= freq <= VCO_MIN <==> mixDiv <= 4)
  {
    var vcoMax := VCO_MIN * 2;
    mixDiv := 2;
    vcoFreq := WrappingMul(freq, mixDiv);
    while mixDiv <= 16
      invariant mixDiv in {2, 4, 8, 16, 32} && vcoFreq == WrappingMul(freq, mixDiv)
      invariant forall m :: m in {2, 4, 8, 16} && m < mixDiv ==> !VcoInRange(WrappingMul(freq, m))
      decreases 32 - mixDiv
    {
      if vcoFreq >= VCO_MIN && vcoFreq <= vcoMax { break; }
      mixDiv := mixDiv * 2;
      vcoFreq := WrappingMul(freq, mixDiv);
    }
    if freq < 0x800_0000 { InRangeIs(freq, mixDiv); }
  }

  lemma InRangeIs(freq: nat, mixDiv: nat)
    requires freq < 0x800_0000 && mixDiv in {2, 4, 8, 16, 32}
    requires mixDiv <= 16 ==> VcoInRange(WrappingMul(freq, mixDiv))
    requires forall m :: m in {2, 4, 8, 16} && m < mixDiv ==> !VcoInRange(WrappingMul(freq, m))
    ensures WrappingMul(freq, mixDiv) == freq * mixDiv
    ensures 146_875 <= freq <= VCO_MIN <==> mixDiv <= 16
    ensures 587_500 <= freq <= VCO_MIN <==> mixDiv <= 4
  {
    assert mixDiv > 2 ==> !VcoInRange(WrappingMul(freq, 2));
    assert mixDiv > 4 ==> !VcoInRange(WrappingMul(freq, 4));
    assert mixDiv > 8 ==> !VcoInRange(WrappingMul(freq, 8));
    assert mixDiv > 16 ==> !VcoInRange(WrappingMul(freq, 16));
  }

  lemma Quotient(vco: nat)
    requires VcoInRange(vco)
    ensures var q := vco / 2 / XTAL;
            48 <= q <= 97 && 2 * XTAL * q <= vco < 2 * XTAL * q + 2 * XTAL
  {
  }

  // Takes the frequency apart, `nint` in 8 bits.
  method Split(vco: nat) returns (nint: U8, fra: U16)
    ensures VcoInRange(vco) ==> 48 <= nint <= 98 && fra < 2 * XTAL
    ensures VcoInRange(vco) ==> Splits(vco, XTAL, nint, fra) && (fra == 0 <==> Whole(vco))
  {
    if VcoInRange(vco) { Quotient(vco); }
    nint := AsU8(vco / 2 / XTAL);
    fra := AsU16(WrappingSub(vco, XTAL * 2 * nint));
    if VcoInRange(vco) { RestIs(vco, 2 * XTAL, nint, fra); }
    assert VcoInRange(vco) ==> fra == vco % 48_000;
    var up;
    up, fra := Snap(fra, XTAL);
    if up { nint := AsU8(nint + 1); }
  }

  function WithBit0(r: U8, bit: nat): (r': U8)
    requires bit < 2
    ensures r' as int % 2 == bit && r' as int / 2 % 2 == r as int / 2 % 2
  {
    r / 2 * 2 + bit
  }

  function WithBit1(r: U8): (r': U8)
    ensures r' as int % 2 == r as int % 2 && r' as int / 2 % 2 == 1
  {
    r / 4 * 4 + 2 + r % 2
  }

  function WithBit4(r: U8, bit: nat): (r': U8)
    requires bit < 2
    ensures r' as int / 0x10 % 2 == bit
  {
    r / 0x20 * 0x20 + bit * 0x10 + r % 0x10
  }

  function WithTop(r: U8, top: nat): (r': U8)
    requires top < 4
    ensures r' as int % 2 == r as int % 2 && r' as int / 2 % 2 == r as int / 2 % 2
  {
    top * 0x40 + r % 0x40
  }

  class Tuner {
    var freq: nat

    constructor ()
      ensures freq == 0
    {
      freq := 0;
    }

    // The divider of the mixer, in as many bits as the chip has for it.
    method PackMix(chip: ChipType, regs: array<U8>, mixDiv: nat)
      requires regs.Length == NUM_REGS && mixDiv in {2, 4, 8, 16, 32}
      modifies regs
      ensures MixOf(chip, regs[..]) == mixDiv <==> mixDiv <= if chip.Rt720? then 16 else 4
      ensures NoFraction(regs[..]) == old(NoFraction(regs[..]))
    {
      var divNum: U8 := match mixDiv
        case 2 => 1
        case 4 => 0
        case 8 => 2
        case 16 => 3
        case _ => 0;
      regs[0x04] := WithBit0(regs[0x04], divNum % 2);
      if chip.Rt720? {
        regs[0x08] := WithBit4(regs[0x08], divNum / 2);
        regs[0x04] := WithTop(regs[0x04], if divNum <= 1 then 1 else 2);
        regs[0x0c] := WithBit4(regs[0x0c], if divNum <= 1 then 1 else 0);
      }
    }

    // The integer and the fraction in their registers.
    method PackDivider(regs: array<U8>, nint: U8, zero: bool, sdm: U16)
      requires regs.Length == NUM_REGS
      modifies regs
      ensures 48 <= nint <= 98 ==> NintOf(regs[..]) == nint
      ensures SdmOf(regs[..]) == sdm && NoFraction(regs[..]) == (zero || old(NoFraction(regs[..])))
      ensures regs[0x04] as int % 2 == old(regs[0x04]) as int % 2 && regs[0x08] == old(regs[0x08])
    {
      PackNint(regs, nint);
      if zero { regs[0x04] := WithBit1(regs[0x04]); }
      PackSdm(regs, sdm);
    }

    method PackSdm(regs: array<U8>, sdm: U16)
      requires regs.Length == NUM_REGS
      modifies regs
      ensures SdmOf(regs[..]) == sdm
      ensures forall i :: 0 <= i < NUM_REGS && i != 6 && i != 7 ==> regs[i] == old(regs[i])
    {
      regs[0x07] := sdm / 0x100;
      regs[0x06] := sdm % 0x100;
    }

    method PackNint(regs: array<U8>, nint: U8)
      requires regs.Length == NUM_REGS
      modifies regs
      ensures 48 <= nint <= 98 ==> NintOf(regs[..]) == nint
      ensures regs[0x04] == old(regs[0x04]) && regs[0x08] == old(regs[0x08])
    {
      var ni: int := AsU8(nint - 13) / 4;
      var si: int := AsU8(nint - ni * 4 - 13);
      regs[0x05] := ni % 0x40 + si % 4 * 0x40;
    }

    // The divider of the frequency, in its registers.
    method Divide(regs: array<U8>, vcoFreq: nat)
      requires regs.Length == NUM_REGS
      modifies regs
      ensures VcoInRange(vcoFreq) ==>
                && Divides(vcoFreq, XTAL, NintOf(regs[..]), SdmOf(regs[..]))
                && NoFraction(regs[..]) == (Whole(vcoFreq) || old(NoFraction(regs[..])))
                && (!old(NoFraction(regs[..])) ==> Runs(regs[..], vcoFreq))
      ensures regs[0x04] as int % 2 == old(regs[0x04]) as int % 2 && regs[0x08] == old(regs[0x08])
    {
      var nint, fra := Split(vcoFreq);
      var sdm := RtPllSdm(fra, XTAL);
      RtLoopEnds(XTAL);
      ghost var even := SdmIsEven(fra, XTAL, Top());
      PackDivider(regs, nint, fra == 0, sdm.value);
      if VcoInRange(vcoFreq) {
        var half := SdmIsTheFraction(fra, XTAL);
        Adds(XTAL, nint, fra, sdm.value, vcoFreq);
        assert fra == 0 ==> sdm.value == 0;
      }
    }

    // The registers make the oscillator run at the frequency times the divider
    // if one puts it in range; which they tell it is on an RT710 if it is 2 or
    // 4. The bit for no fraction is set, and never taken back, exactly if none is
    // left off the spurs; set before, it has the oscillator ignore the fraction.
    method SetPll(chip: ChipType, regs: array<U8>, freq: U32)
      requires regs.Length == NUM_REGS
      modifies this, regs
      ensures this.freq == freq
      ensures 146_875 <= freq <= VCO_MIN ==>
                exists mix :: mix in {2, 4, 8, 16} && VcoInRange(freq * mix)
                              && (MixOf(chip, regs[..]) == mix <==> chip.Rt720? || 587_500 <= freq)
                              && Divides(freq * mix, XTAL, NintOf(regs[..]), SdmOf(regs[..]))
                              && NoFraction(regs[..]) == (Whole(freq * mix) || old(NoFraction(regs[..])))
                              && (!old(NoFraction(regs[..])) ==> Runs(regs[..], freq * mix))
    {
      this.freq := 0;
      var mixDiv, vcoFreq := FindDivider(freq);
      PackMix(chip, regs, mixDiv);
      ghost var mixOf := MixOf(chip, regs[..]);
      Divide(regs, vcoFreq);
      assert MixOf(chip, regs[..]) == mixOf;
      assert 146_875 <= freq <= VCO_MIN ==> vcoFreq == freq * mixDiv && VcoInRange(freq * mixDiv);
      this.freq := freq;
    }
  }
}
