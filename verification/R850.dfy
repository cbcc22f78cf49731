/** The R850 tuner, as far as it synthesises its local oscillator. */
module R850 {
  // What set_frequency makes of a frequency, in kHz, down to the bits of the
  // registers.

  import opened Options
  import opened Ints
  import opened Pll

  datatype System = DvbT | DvbT2 | DvbT2_1 | DvbC | J83b | IsdbT | Dtmb | Atsc | Fm
  datatype Bandwidth = M6 | M7 | M8
  datatype SystemConfig = SystemConfig(system: System, bandwidth: Bandwidth, ifFreq: nat)

  // The rows of the tables of system parameters: bandwidth and intermediate
  // frequency, the same for either chip.
  function Rows(system: System): set<(Bandwidth, nat)> {
    match system
    case DvbT => {(M6, 4570), (M7, 4570), (M8, 4570), (M6, 5000), (M7, 5000), (M8, 5000)}
    case DvbT2 => {(M6, 4570), (M7, 4570), (M8, 4570), (M6, 5000), (M7, 5000), (M8, 5000)}
    case DvbT2_1 => {(M7, 1900), (M7, 5000)}
    case DvbC => {(M6, 5070), (M8, 5070), (M6, 5000), (M8, 5000)}
    case J83b => {(M6, 5070), (M6, 5000)}
    case IsdbT => {(M6, 4063), (M6, 4570), (M6, 5000)}
    case Dtmb => {(M6, 4500), (M8, 4570), (M6, 5000), (M8, 5000)}
    case Atsc => {(M6, 5070), (M6, 5000)}
    case Fm => {}
  }

  predicate Supported(sys: SystemConfig) {
    (sys.bandwidth, sys.ifFreq) in Rows(sys.system)
  }

  lemma IfIsSmall(sys: SystemConfig)
    requires Supported(sys)
    ensures 1900 <= sys.ifFreq <= 5070
  {
  }

  // Whether the local oscillator is below the signal rather than above.
  predicate MixesBelow(system: System) {
    !system.J83b? && !system.Dtmb? && !system.Atsc?
  }

  predicate InRange(freq: nat) {
    40_000 <= freq <= 1_002_000
  }

  /* What the registers say */

  type Regs = seq<U8>

  const NUM_REGS: nat := 0x30

  // The crystal, divided as the low bits of register 0x22 have it.
  function XtalOf(r: Regs): nat
    requires |r| == NUM_REGS
  {
    match r[0x22] as int % 4
    case 0 => XTAL
    case 2 => XTAL / 2
    case 3 => XTAL / 4
    case _ => 0
  }

  function NintOf(r: Regs): nat
    requires |r| == NUM_REGS
  {
    4 * (r[0x1b] as int % 0x80) + r[0x1e] as int % 4 + 13
  }

  function SdmOf(r: Regs): nat
    requires |r| == NUM_REGS
  {
    r[0x1c] as int + 0x100 * r[0x1d] as int
  }

  function DivOf(r: Regs): nat
    requires |r| == NUM_REGS
  {
    r[0x1e] as int / 4 % 8
  }

  function Mix(div: nat): nat {
    if div == 0 then 2 else 2 * Mix(div - 1)
  }

  // 65536 times the frequency the oscillator is made to run at.
  function VcoOf(r: Regs): nat
    requires |r| == NUM_REGS
  {
    2 * XtalOf(r) * (0x1_0000 * NintOf(r) + SdmOf(r))
  }

  function VcoMin(chip: bool): nat {
    if chip then 2_200_000 else 2_270_000
  }

  // Whether the registers make the oscillator run at `lo` times what it is
  // divided by, but for a 64th of the crystal and 16 kHz; that is in range, as
  // it is for no other divider.
  ghost predicate Encodes(r: Regs, chip: bool, lo: nat) {
    && |r| == NUM_REGS && XtalOf(r) > 0 && DivOf(r) <= 6
    && VcoMin(chip) <= lo * Mix(DivOf(r)) < 2 * VcoMin(chip)
    && (forall div: nat :: VcoMin(chip) <= lo * Mix(div) < 2 * VcoMin(chip) ==> div == DivOf(r))
    && Divides(lo * Mix(DivOf(r)), XtalOf(r), NintOf(r), SdmOf(r))
    && var off := VcoOf(r) - 0x1_0000 * (lo * Mix(DivOf(r)));
       -0x1_0000 * (XtalOf(r) + 64 * 16) <= 64 * off <= 0x1_0000 * (XtalOf(r) + 64 * 16)
  }

  // Whether the local oscillator is the intermediate frequency off the signal:
  // above it for cable after J.83B, DTMB and ATSC, and below it for the others.
  ghost predicate Plays(r: Regs, chip: bool, sys: SystemConfig, freq: nat) {
    if sys.system in {J83b, Dtmb, Atsc} then Encodes(r, chip, freq + sys.ifFreq)
    else freq >= sys.ifFreq && Encodes(r, chip, freq - sys.ifFreq)
  }

  /* The divider */

  predicate Reaches(lo: nat, vcoMin: nat) {
    vcoMin <= lo * 128 && lo < vcoMin
  }

  lemma {:induction false} MixGrows(a: nat, b: nat)
    requires a < b
    ensures 2 * Mix(a) <= Mix(b)
    decreases b
  {
    if a < b - 1 { MixGrows(a, b - 1); }
  }

  lemma DoublesProduct(x: nat, m: nat, n: nat)
    requires 2 * m <= n
    ensures 2 * (x * m) <= x * n
  {
    assert x * n == 2 * (x * m) + x * (n - 2 * m);
  }

  lemma NoneAbove(lo: nat, vcoMin: nat, a: nat, b: nat)
    requires a < b && vcoMin <= lo * Mix(a)
    ensures 2 * vcoMin <= lo * Mix(b)
  {
    MixGrows(a, b);
    DoublesProduct(lo, Mix(a), Mix(b));
  }

  lemma OneDivider(lo: nat, vcoMin: nat, a: nat, b: nat)
    requires vcoMin <= lo * Mix(a) < 2 * vcoMin && vcoMin <= lo * Mix(b) < 2 * vcoMin
    ensures a == b
  {
    if a < b { NoneAbove(lo, vcoMin, a, b); }
    if b < a { NoneAbove(lo, vcoMin, b, a); }
  }

  method FindDivider(lo: nat, vcoMin: nat) returns (mixDiv: nat, div: nat, vcoFreq: nat)
    requires Reaches(lo, vcoMin)
    ensures div <= 6 && mixDiv == Mix(div) && vcoFreq == lo * mixDiv
    ensures vcoMin <= vcoFreq < 2 * vcoMin
  {
    var vcoMax := vcoMin * 2;
    mixDiv, div := 2, 0;
    vcoFreq := lo * mixDiv;
    while div < 6
      invariant div <= 6 && mixDiv == Mix(div) && vcoFreq == lo * mixDiv && vcoFreq < vcoMax
      invariant div == 6 ==> mixDiv == 128
    {
      if vcoMin <= vcoFreq < vcoMax { break; }
      mixDiv := mixDiv * 2;
      vcoFreq := lo * mixDiv;
      div := div + 1;
      assert lo * (mixDiv / 2 * 2) == 2 * (lo * (mixDiv / 2));
      assert div == 6 ==> Mix(6) == 128;
    }
  }

  /* The crystal's divider, which keeps its harmonics off the channel */

  method PickXtal(lo: nat, ifFreq: nat, sys: Option<System>) returns (xtal: nat, bits: U8)
    ensures (xtal == XTAL && bits == 0) || (xtal == XTAL / 2 && bits == 2) || (xtal == XTAL / 4 && bits == 3)
    ensures xtal == XTAL / 2 <==> sys.Some? && lo < 380_500 && (lo + ifFreq) / 1000 / 12 % 2 == 0
    ensures xtal == XTAL / 4 <==>
              sys == Some(IsdbT) && lo >= 380_500 && 478_000 <= (lo + ifFreq) % 0x1_0000_0000 < 482_000
  {
    var divJudge := (lo + ifFreq) / 1000 / 12;
    xtal, bits := XTAL, 0;
    if sys.Some? {
      if lo < 380_500 {
        if divJudge % 2 == 0 { xtal, bits := xtal / 2, 2; }
      } else if WrappingSub(lo + ifFreq, 478_000) < 4000 && sys.value == IsdbT {
        xtal, bits := xtal / 4, 3;
      }
    }
  }

  /* The integer and the fraction */

  lemma Quotient(vco: nat, xtal: nat)
    requires xtal in {XTAL, XTAL / 2, XTAL / 4} && 2_200_000 <= vco < 4_540_000
    ensures var q := vco / 2 / xtal;
            45 <= q <= 378 && 2 * xtal * q <= vco < 2 * xtal * q + 2 * xtal
  {
    var h := vco / 2;
    var q := h / xtal;
    var product := xtal * q;
    assert h == product + h % xtal;
    assert q <= 44 ==> product <= xtal * 44;
    assert q >= 379 ==> product >= xtal * 379;
    assert 2 * xtal * q == 2 * product;
  }

  // Takes the frequency apart.
  method Split(vco: nat, xtal: nat) returns (nint: nat, fra: U16)
    requires xtal in {XTAL, XTAL / 2, XTAL / 4} && 2_200_000 <= vco < 4_540_000
    ensures 45 <= nint <= 379 && fra < 2 * xtal
    ensures Splits(vco, xtal, nint, fra)
  {
    Quotient(vco, xtal);
    nint := AsU16(vco / 2 / xtal);
    var whole := xtal * 2 * nint;
    assert whole == 2 * xtal * nint;
    var was := AsU16(vco - whole);
    var up;
    up, fra := Snap(was, xtal);
    MovedSplits(vco, xtal, nint, was, up, fra);
    if up { nint := nint + 1; }
  }

  /* The registers */

  function WithDiv(r: U8, div: nat): (r': U8)
    requires div <= 6
    ensures r' as int / 4 % 8 == div
  {
    var high: int, low: int := r / 0x20, r % 4;
    assert (high * 0x20 + div * 4 + low) / 4 == high * 8 + div;
    high * 0x20 + div % 8 * 4 + low
  }

  lemma LowBits(r: U8, v: nat)
    requires v < 4
    ensures var r' := r as int / 4 * 4 + v; r' % 4 == v && r' / 4 == r as int / 4 && r' < 0x100
  {
  }

  datatype Result = Tuned | Fails(error: string)

  class Tuner {
    const regs: array<U8>
    var init: bool
    var chip: bool
    var sys: Option<SystemConfig>

    ghost predicate Valid()
      reads this
    {
      regs.Length == NUM_REGS
    }

    constructor ()
      ensures Valid() && !init && sys == None && fresh(regs)
    {
      regs := new U8[NUM_REGS](_ => 0);
      init, chip, sys := false, false, None;
    }

    method SetSystem(system: SystemConfig) returns (r: Result)
      requires Valid()
      modifies this
      ensures Valid() && init == old(init) && chip == old(chip) && regs[..] == old(regs[..])
      ensures if init then r == Result.Tuned && sys == Some(system) else r.Fails? && sys == old(sys)
    {
      if !init { return Fails("R850 is not initialised"); }
      sys := Some(system);
      r := Result.Tuned;
    }

    // Packs the dividers into their registers, no cast losing anything.
    method Pack(div: nat, nint: nat, sdm: U16)
      requires Valid() && div <= 6 && 45 <= nint <= 379
      modifies regs
      ensures DivOf(regs[..]) == div && NintOf(regs[..]) == nint && SdmOf(regs[..]) == sdm
      ensures regs[0x22] == old(regs[0x22])
    {
      var ni: int := AsU8((nint - 13) / 4);
      var si: int := AsU8(nint - 13 - ni * 4);
      PackDivs(div, ni, si);
      regs[0x1c] := sdm % 0x100;
      regs[0x1d] := sdm / 0x100;
    }

    method PackDivs(div: nat, ni: nat, si: nat)
      requires Valid() && div <= 6 && ni < 0x80 && si < 4
      modifies regs
      ensures DivOf(regs[..]) == div && NintOf(regs[..]) == 4 * ni + si + 13
      ensures regs[0x22] == old(regs[0x22])
    {
      // Bits 2 to 4.
      regs[0x1e] := WithDiv(regs[0x1e], div);
      // All but the top bit, and bits 0 and 1.
      regs[0x1b] := regs[0x1b] / 0x80 * 0x80 + ni % 0x80;
      LowBits(regs[0x1e], si);
      regs[0x1e] := regs[0x1e] / 4 * 4 + si % 4;
    }

    // The divider of the frequency, in its registers.
    method Divide(div: nat, vcoFreq: nat, xtal: nat)
      requires Valid() && div <= 6
      requires xtal in {XTAL, XTAL / 2, XTAL / 4} && 2_200_000 <= vcoFreq < 4_540_000
      modifies regs
      ensures DivOf(regs[..]) == div && regs[0x22] == old(regs[0x22])
      ensures Divides(vcoFreq, xtal, NintOf(regs[..]), SdmOf(regs[..]))
      ensures var off := 2 * xtal * (0x1_0000 * NintOf(regs[..]) + SdmOf(regs[..])) - 0x1_0000 * vcoFreq;
              -0x1_0000 * (xtal + 64 * 16) <= 64 * off <= 0x1_0000 * (xtal + 64 * 16)
    {
      var nint, fra := Split(vcoFreq, xtal);
      var sdm := PllSdm(fra, xtal);
      var half := SdmIsTheFraction(fra, xtal);
      Pack(div, nint, sdm);
      Adds(xtal, nint, fra, sdm, vcoFreq);
    }

    // The crystal's divider, in its register.
    method SetXtal(lo: nat, ifFreq: nat, system: Option<System>) returns (xtal: nat)
      requires Valid()
      modifies regs
      ensures XtalOf(regs[..]) == xtal && xtal in {XTAL, XTAL / 2, XTAL / 4}
      ensures xtal == XTAL / 2 <==> system.Some? && lo < 380_500 && (lo + ifFreq) / 1000 / 12 % 2 == 0
      ensures xtal == XTAL / 4 <==>
                system == Some(IsdbT) && lo >= 380_500 && 478_000 <= (lo + ifFreq) % 0x1_0000_0000 < 482_000
    {
      var bits;
      xtal, bits := PickXtal(lo, ifFreq, system);
      LowBits(regs[0x22], bits);
      regs[0x22] := regs[0x22] / 4 * 4 + bits;
    }

    method SetPll(lo: nat, ifFreq: nat, system: Option<System>)
      requires Valid() && Reaches(lo, VcoMin(chip))
      modifies regs
      ensures Encodes(regs[..], chip, lo)
      ensures if chip then 2_200_000 <= lo * Mix(DivOf(regs[..])) < 4_400_000
              else 2_270_000 <= lo * Mix(DivOf(regs[..])) < 4_540_000
      ensures XtalOf(regs[..]) == XTAL / 2 <==> system.Some? && lo < 380_500 && (lo + ifFreq) / 1000 / 12 % 2 == 0
      ensures XtalOf(regs[..]) == XTAL / 4 <==>
                system == Some(IsdbT) && lo >= 380_500 && 478_000 <= (lo + ifFreq) % 0x1_0000_0000 < 482_000
    {
      var mixDiv, div, vcoFreq := FindDivider(lo, VcoMin(chip));
      var xtal := SetXtal(lo, ifFreq, system);
      Divide(div, vcoFreq, xtal);
      forall other: nat | VcoMin(chip) <= lo * Mix(other) < 2 * VcoMin(chip) ensures other == div {
        OneDivider(lo, VcoMin(chip), other, div);
      }
    }

    method SetFrequency(freq: nat) returns (r: Result)
      requires Valid()
      modifies regs
      ensures r.Tuned? <==> init && InRange(freq) && sys.Some? && Supported(sys.value)
      ensures r.Tuned? ==> Plays(regs[..], chip, sys.value, freq)
    {
      if !init { return Fails("R850 is not initialised"); }
      if !(40_000 <= freq <= 1_002_000) { return Fails("R850: frequency out of range"); }
      if sys.None? { return Fails("R850: no system is set"); }
      var system := sys.value;
      if !((system.bandwidth, system.ifFreq) in Rows(system.system)) { return Fails("R850: unsupported system"); }
      SetSystemFrequency(system, freq);
      r := Result.Tuned;
    }

    method SetSystemFrequency(system: SystemConfig, freq: nat)
      requires Valid() && InRange(freq) && Supported(system)
      modifies regs
      ensures Plays(regs[..], chip, system, freq)
    {
      IfIsSmall(system);
      var lo := if MixesBelow(system.system) then freq - system.ifFreq else freq + system.ifFreq;
      SetPll(lo, system.ifFreq, Some(system.system));
    }
  }
}
