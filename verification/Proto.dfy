/** The protocol between tunelithd and its clients. */
module Proto {
  // Envelopes in frames, and the parameters of a tuning in a message. How a
  // message is laid out in bytes is the codec's business.

  import opened Options
  import opened Ints

  type Bytes = seq<U8>

  const MAX_FRAME: nat := 0x10_0000

  // How envelopes are written and parsed.
  datatype Codec<!E> = Codec(write: E -> Bytes, parse: Bytes -> Option<E>)

  ghost predicate RoundTrips<E(!new)>(codec: Codec<E>) {
    forall e :: codec.parse(codec.write(e)) == Some(e)
  }

  /* Frames */

  function Big32(n: nat): (b: Bytes)
    ensures |b| == 4
  {
    [n / 0x100_0000 % 0x100, n / 0x1_0000 % 0x100, n / 0x100 % 0x100, n % 0x100]
  }

  function OfBig32(b: Bytes): nat
    requires |b| >= 4
  {
    0x100_0000 * b[0] as nat + 0x1_0000 * b[1] as nat + 0x100 * b[2] as nat + b[3] as nat
  }

  lemma Big32Back(n: nat)
    requires n < 0x1_0000_0000
    ensures OfBig32(Big32(n)) == n
  {
  }

  function Encode<E>(codec: Codec<E>, e: E): Bytes {
    var body := codec.write(e);
    Big32(|body| % 0x1_0000_0000) + body
  }

  datatype Failure = Truncated | TooLarge | Malformed

  // What comes of reading: an envelope, with what is left to read; the end; or
  // a failure.
  datatype Reading<+E> = Got(envelope: E, rest: Bytes) | End | Fails(why: Failure)

  function ReadFrame<E>(codec: Codec<E>, data: Bytes): Reading<E> {
    if data == [] then End
    else if |data| < 4 then Fails(Truncated)
    else
      var n := OfBig32(data);
      if n > MAX_FRAME then Fails(TooLarge)
      else if |data| < 4 + n then Fails(Truncated)
      else match codec.parse(data[4..4 + n])
        case None => Fails(Malformed)
        case Some(e) => Got(e, data[4 + n..])
  }

  predicate Fits<E>(codec: Codec<E>, e: E) {
    |codec.write(e)| <= MAX_FRAME
  }

  // An envelope is read back exactly if its body is not above MAX_FRAME.
  lemma ReadsBack<E(!new)>(codec: Codec<E>, e: E, rest: Bytes)
    requires RoundTrips(codec) && |codec.write(e)| < 0x1_0000_0000
    ensures ReadFrame(codec, Encode(codec, e) + rest) == if Fits(codec, e) then Got(e, rest) else Fails(TooLarge)
  {
    var body := codec.write(e);
    var data := Encode(codec, e) + rest;
    Big32Back(|body|);
    assert data[..4] == Big32(|body|);
    assert OfBig32(data) == OfBig32(data[..4]);
    if Fits(codec, e) {
      assert data[4..4 + |body|] == body && data[4 + |body|..] == rest;
    }
  }

  // A frame: the length of the body, high byte first, and the body.
  lemma FrameBytes<E>(codec: Codec<E>, e: E)
    requires |codec.write(e)| < 0x1_0000_0000
    ensures var frame, body := Encode(codec, e), codec.write(e);
            && |frame| == 4 + |body| && frame[4..] == body
            && 0x100_0000 * frame[0] as nat + 0x1_0000 * frame[1] as nat + 0x100 * frame[2] as nat + frame[3] as nat
                 == |body|
    ensures Fits(codec, e) <==> |codec.write(e)| <= 1_048_576
  {
    Big32Back(|codec.write(e)|);
  }

  function EncodeAll<E>(codec: Codec<E>, es: seq<E>): Bytes {
    if es == [] then [] else Encode(codec, es[0]) + EncodeAll(codec, es[1..])
  }

  // What comes of reading to the end: the envelopes read, and why no more are.
  datatype All<+E> = All(envelopes: seq<E>, failure: Option<Failure>)

  function ReadAll<E>(codec: Codec<E>, data: Bytes): All<E>
    decreases |data|
  {
    match ReadFrame(codec, data)
    case End => All([], None)
    case Fails(why) => All([], Some(why))
    case Got(e, rest) =>
      var more := ReadAll(codec, rest);
      All([e] + more.envelopes, more.failure)
  }

  predicate AllFit<E>(codec: Codec<E>, es: seq<E>) {
    forall i :: 0 <= i < |es| ==> Fits(codec, es[i])
  }

  // Envelopes written one after the other are read back, and then the end.
  lemma {:induction false} AllReadBack<E(!new)>(codec: Codec<E>, es: seq<E>)
    requires RoundTrips(codec) && AllFit(codec, es)
    ensures ReadAll(codec, EncodeAll(codec, es)) == All(es, None)
    decreases |es|
  {
    if es == [] {
    } else {
      assert Fits(codec, es[0]);
      ReadsBack(codec, es[0], EncodeAll(codec, es[1..]));
      assert forall i :: 0 <= i < |es| - 1 ==> es[1..][i] == es[i + 1];
      AllReadBack(codec, es[1..]);
      assert es == [es[0]] + es[1..];
    }
  }

  // A frame cut short is a failure, unless nothing of it is there.
  lemma CutFrame<E>(codec: Codec<E>, e: E, rest: Bytes, n: nat)
    requires Fits(codec, e) && n < |Encode(codec, e)|
    ensures ReadFrame(codec, (Encode(codec, e) + rest)[..n]) == if n == 0 then End else Fails(Truncated)
  {
    var body := codec.write(e);
    var data := (Encode(codec, e) + rest)[..n];
    Big32Back(|body|);
    if n >= 4 {
      assert data[..4] == Big32(|body|);
      assert OfBig32(data) == OfBig32(data[..4]);
    }
  }

  // Cut anywhere, as many envelopes are read as are whole, `k`, and then the
  // end, if it was cut between two of them, or a truncated frame.
  lemma {:induction false} PrefixReads<E(!new)>(codec: Codec<E>, es: seq<E>, n: nat) returns (k: nat)
    requires RoundTrips(codec) && AllFit(codec, es) && n < |EncodeAll(codec, es)|
    ensures k < |es| && |EncodeAll(codec, es[..k])| <= n < |EncodeAll(codec, es[..k + 1])|
    ensures ReadAll(codec, EncodeAll(codec, es)[..n])
              == All(es[..k], if n == |EncodeAll(codec, es[..k])| then None else Some(Truncated))
    decreases |es|
  {
    var first, rest := Encode(codec, es[0]), EncodeAll(codec, es[1..]);
    assert es != [] && Fits(codec, es[0]);
    assert forall i :: 0 <= i < |es| - 1 ==> es[1..][i] == es[i + 1];
    if n < |first| {
      k := 0;
      CutFrame(codec, es[0], rest, n);
      assert es[..1][1..] == [] && es[..0] == [];
      assert EncodeAll(codec, es[..1]) == first + [];
    } else {
      var j := PrefixReads(codec, es[1..], n - |first|);
      k := j + 1;
      FirstReads(codec, es, n);
      Unfold(codec, es, k);
      Unfold(codec, es, k + 1);
      assert es[..k] == [es[0]] + es[1..][..j];
    }
  }

  lemma FirstReads<E(!new)>(codec: Codec<E>, es: seq<E>, n: nat)
    requires RoundTrips(codec) && es != [] && Fits(codec, es[0])
    requires |Encode(codec, es[0])| <= n <= |EncodeAll(codec, es)|
    ensures var more := ReadAll(codec, EncodeAll(codec, es[1..])[..n - |Encode(codec, es[0])|]);
            ReadAll(codec, EncodeAll(codec, es)[..n]) == All([es[0]] + more.envelopes, more.failure)
  {
    var first, rest := Encode(codec, es[0]), EncodeAll(codec, es[1..]);
    assert (first + rest)[..n] == first + rest[..n - |first|];
    ReadsBack(codec, es[0], rest[..n - |first|]);
  }

  lemma Unfold<E>(codec: Codec<E>, es: seq<E>, k: nat)
    requires 0 < k <= |es|
    ensures EncodeAll(codec, es[..k]) == Encode(codec, es[0]) + EncodeAll(codec, es[1..][..k - 1])
  {
    assert es[..k][1..] == es[1..][..k - 1];
  }

  /* Reading from a connection */

  class Reader {
    var left: Bytes

    constructor (data: Bytes)
      ensures left == data
    {
      left := data;
    }

    // Fills a buffer of `n` bytes, or fails having taken what there is.
    method ReadExact(n: nat) returns (r: Option<Bytes>)
      modifies this
      ensures n <= |old(left)| ==> r == Some(old(left)[..n]) && left == old(left)[n..]
      ensures n > |old(left)| ==> r.None? && left == []
    {
      if n > |left| {
        left := [];
        return None;
      }
      r := Some(left[..n]);
      left := left[n..];
    }

    method Read<E>(codec: Codec<E>) returns (r: Reading<E>)
      modifies this
      ensures r == ReadFrame(codec, old(left))
      ensures r.Got? ==> left == r.rest
    {
      ghost var data := left;
      if left == [] { return End; }
      var first := ReadExact(1);
      var others := ReadExact(3);
      if others.None? { return Fails(Truncated); }
      var len := first.value + others.value;
      assert len == data[..4] && left == data[4..];
      var n := OfBig32(len);
      if n > MAX_FRAME { return Fails(TooLarge); }
      var body := ReadExact(n);
      if body.None? { return Fails(Truncated); }
      assert body.value == data[4..4 + n] && left == data[4 + n..];
      match codec.parse(body.value)
      case None => return Fails(Malformed);
      case Some(e) => return Got(e, left);
    }
  }

  /* The parameters of a tuning */

  datatype System = IsdbT | IsdbS | IsdbS3
  datatype Polarization = Right | Left

  datatype TuneParams = TuneParams(system: System, frequencyKhz: nat, streamId: Option<U16>,
                                   polarization: Option<Polarization>)

  // The message; its enumerations may hold numbers they have no name for.
  datatype WireParams = WireParams(system: int, frequencyKhz: nat, streamId: Option<nat>, polarization: int)

  function SystemNumber(system: System): int {
    match system case IsdbT => 1 case IsdbS => 2 case IsdbS3 => 3
  }

  function SystemOf(number: int): Option<System> {
    if number == 1 then Some(IsdbT) else if number == 2 then Some(IsdbS) else if number == 3 then Some(IsdbS3) else None
  }

  function ToWire(p: TuneParams): WireParams {
    WireParams(
      SystemNumber(p.system), p.frequencyKhz,
      match p.streamId case None => None case Some(id) => Some(id),
      match p.polarization case None => 0 case Some(Right) => 1 case Some(Left) => 2)
  }

  function FromWire(w: WireParams): Result<TuneParams, string> {
    if w.streamId.Some? && w.streamId.value >= 0x1_0000 then Err("the stream id is out of range")
    else if SystemOf(w.system).None? then Err("unknown system")
    else if w.polarization != 0 && w.polarization != 1 && w.polarization != 2 then Err("unknown polarization")
    else
      Ok(TuneParams(
        SystemOf(w.system).value, w.frequencyKhz,
        match w.streamId case None => None case Some(id) => Some(AsU16(id)),
        if w.polarization == 0 then None else if w.polarization == 1 then Some(Right) else Some(Left)))
  }

  // Parameters come back as they were, and a message that is taken is the one
  // its parameters make.
  lemma ParamsRoundTrip(p: TuneParams, w: WireParams)
    ensures FromWire(ToWire(p)) == Ok(p)
    ensures FromWire(w).Ok? ==> ToWire(FromWire(w).value) == w
    ensures FromWire(w).Ok? <==> exists q :: ToWire(q) == w
    ensures FromWire(w).Ok? <==> w.system in {1, 2, 3} && w.polarization in {0, 1, 2}
                                 && (w.streamId.Some? ==> w.streamId.value < 0x1_0000)
    ensures ToWire(p).system == 1 <==> p.system == IsdbT
    ensures ToWire(p).system == 2 <==> p.system == IsdbS
    ensures ToWire(p).polarization == 0 <==> p.polarization == None
    ensures ToWire(p).polarization == 1 <==> p.polarization == Some(Right)
  {
    if FromWire(w).Ok? {
      assert w.streamId.Some? ==> AsU16(w.streamId.value) == w.streamId.value;
      assert ToWire(FromWire(w).value) == w;
    }
    if q :| ToWire(q) == w { assert q.streamId.Some? ==> w.streamId == Some(q.streamId.value as nat); }
  }

  predicate IsSatellite(system: System) { !system.IsdbT? }

  predicate IsValid(p: TuneParams) {
    IsSatellite(p.system) <==> p.streamId.Some?
  }

  function Normalized(p: TuneParams): TuneParams {
    p.(polarization := if !IsSatellite(p.system) then None
                       else if p.polarization.None? then Some(Right) else p.polarization)
  }

  // What a tuning depends on: the polarization only of a satellite, where it is
  // right unless said to be left.
  predicate TuneToTheSame(p: TuneParams, q: TuneParams) {
    && p.system == q.system && p.frequencyKhz == q.frequencyKhz && p.streamId == q.streamId
    && (p.system in {IsdbS, IsdbS3} ==> (p.polarization == Some(Left) <==> q.polarization == Some(Left)))
  }

  lemma PolarizationIs(polarization: Option<Polarization>)
    ensures polarization == None || polarization == Some(Right) || polarization == Some(Left)
  {
    match polarization
    case None =>
    case Some(Right) =>
    case Some(Left) =>
  }

  // Two acquires share a tuner exactly if they tune to the same.
  lemma NormalizedTellsTheSame(p: TuneParams, q: TuneParams)
    ensures Normalized(p) == Normalized(q) <==> TuneToTheSame(p, q)
    ensures Normalized(Normalized(p)) == Normalized(p) && (IsValid(Normalized(p)) <==> IsValid(p))
    ensures IsValid(p) <==> (p.system in {IsdbS, IsdbS3} <==> p.streamId.Some?)
  {
    PolarizationIs(p.polarization);
    PolarizationIs(q.polarization);
  }
}
