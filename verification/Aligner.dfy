/** The aligner of the BDA tuners. */
module BdaAligner {
  // It cuts a transport stream, which comes in frames of any size, into packets
  // of 188 bytes (section 2.4.3.2 of ISO/IEC 13818-1), and finds where a TLV
  // stream starts.

  import opened Options
  import opened Chunks

  const TS_PACKET: nat := 188
  const SYNC: bv8 := 0x47

  datatype Format = Ts | Tlv

  /* Where packets start */

  // The end of the packet that starts at `at`, as far as its head tells.
  function PacketEnd(format: Format, data: Bytes, at: nat): (r: Option<nat>)
    ensures r.Some? ==> at < r.value
  {
    if at >= |data| then None
    else match format
      case Ts => if data[at] == SYNC then Some(at + TS_PACKET) else None
      case Tlv =>
        if data[at] == 0x7f && at + 4 <= |data|
        then Some(at + 4 + data[at + 2] as nat * 256 + data[at + 3] as nat) else None
  }

  // Whether `n` packets in a row start at `at`.
  predicate PacketsAt(format: Format, data: Bytes, at: nat, n: nat)
    decreases n
  {
    n == 0 || (PacketEnd(format, data, at).Some?
               && PacketsAt(format, data, PacketEnd(format, data, at).value, n - 1))
  }

  // Three sync bytes a packet apart.
  predicate TripleAt(data: Bytes, p: nat) {
    && p + 376 < |data|
    && data[p] == 0x47 && data[p + 188] == 0x47 && data[p + 376] == 0x47
  }

  lemma TsStartsAt(data: Bytes, p: nat)
    ensures StartsAt(Ts, data, p) <==> TripleAt(data, p)
  {
    assert StartsAt(Ts, data, p) <==>
             PacketEnd(Ts, data, p).Some? && PacketsAt(Ts, data, p + TS_PACKET, 2);
    assert PacketsAt(Ts, data, p + TS_PACKET, 2) <==>
             PacketEnd(Ts, data, p + TS_PACKET).Some? && PacketsAt(Ts, data, p + 2 * TS_PACKET, 1);
    assert PacketsAt(Ts, data, p + 2 * TS_PACKET, 1) <==>
             PacketEnd(Ts, data, p + 2 * TS_PACKET).Some? && PacketsAt(Ts, data, p + 3 * TS_PACKET, 0);
  }

  predicate StartsAt(format: Format, data: Bytes, at: nat) {
    PacketsAt(format, data, at, 3)
  }

  function StartFrom(format: Format, data: Bytes, from: nat): (r: Option<nat>)
    ensures r.Some? ==> r.value < |data|
    decreases |data| - from
  {
    if from >= |data| then None
    else if StartsAt(format, data, from) then Some(from)
    else StartFrom(format, data, from + 1)
  }

  lemma {:induction false} StartIsFirst(format: Format, data: Bytes, from: nat)
    ensures match StartFrom(format, data, from)
            case Some(s) =>
              && from <= s < |data| && StartsAt(format, data, s)
              && forall p :: from <= p < s ==> !StartsAt(format, data, p)
            case None => forall p :: from <= p < |data| ==> !StartsAt(format, data, p)
    decreases |data| - from
  {
    if from < |data| && !StartsAt(format, data, from) { StartIsFirst(format, data, from + 1); }
  }

  function PacketStart(format: Format, data: Bytes): Option<nat> {
    StartFrom(format, data, 0)
  }

  // Of a transport stream, the first place three sync bytes are a packet apart.
  lemma TsStart(data: Bytes)
    ensures match PacketStart(Ts, data)
            case Some(p) => TripleAt(data, p) && forall q :: 0 <= q < p ==> !TripleAt(data, q)
            case None => forall q: nat :: !TripleAt(data, q)
  {
    StartIsFirst(Ts, data, 0);
    forall p: nat ensures StartsAt(Ts, data, p) <==> TripleAt(data, p) { TsStartsAt(data, p); }
  }

  /* Where TLV packets start */

  // A TLV packet: the type of its payload, the length, high byte first, and the
  // payload.
  predicate IsTlvPacket(b: Bytes) {
    |b| >= 4 && b[0] == 0x7f && |b| == 4 + 256 * b[2] as nat + b[3] as nat
  }

  // Two packets with the head of a third behind them.
  predicate TlvRow(data: Bytes, a: Bytes, b: Bytes, rest: Bytes) {
    IsTlvPacket(a) && IsTlvPacket(b) && |rest| >= 4 && rest[0] == 0x7f && data == a + b + rest
  }

  ghost predicate TlvTripleAt(data: Bytes, p: nat) {
    p <= |data| && exists a, b, rest :: TlvRow(data[p..], a, b, rest)
  }

  lemma TlvIsRead(data: Bytes, at: nat, b: Bytes, rest: Bytes)
    requires IsTlvPacket(b) && at <= |data| && data[at..] == b + rest
    ensures PacketEnd(Tlv, data, at) == Some(at + |b|) && data[at + |b|..] == rest
  {
    var from := data[at..];
    assert data[at] == from[0] && data[at + 2] == from[2] && data[at + 3] == from[3];
    assert data[at + |b|..] == from[|b|..];
  }

  lemma TlvIsThere(data: Bytes, at: nat)
    requires PacketEnd(Tlv, data, at).Some? && PacketEnd(Tlv, data, at).value <= |data|
    ensures IsTlvPacket(data[at..PacketEnd(Tlv, data, at).value])
  {
  }

  lemma TlvStartsAt(data: Bytes, p: nat)
    ensures StartsAt(Tlv, data, p) <==> TlvTripleAt(data, p)
  {
    if StartsAt(Tlv, data, p) { TlvRowIsThere(data, p); }
    if TlvTripleAt(data, p) { TlvRowStarts(data, p); }
  }

  lemma TlvRowIsThere(data: Bytes, p: nat)
    requires StartsAt(Tlv, data, p)
    ensures TlvTripleAt(data, p)
  {
    var q := PacketEnd(Tlv, data, p).value;
    assert PacketsAt(Tlv, data, q, 2);
    var r := PacketEnd(Tlv, data, q).value;
    assert PacketsAt(Tlv, data, r, 1);
    TlvIsThere(data, p);
    TlvIsThere(data, q);
    assert TlvRow(data[p..], data[p..q], data[q..r], data[r..]);
  }

  lemma TlvRowStarts(data: Bytes, p: nat)
    requires TlvTripleAt(data, p)
    ensures StartsAt(Tlv, data, p)
  {
    var a, b, rest :| TlvRow(data[p..], a, b, rest);
    PacketsJoin(a, b, rest);
    TlvIsRead(data, p, a, b + rest);
    TlvRowGoesOn(data, p + |a|, b, rest);
  }

  lemma PacketsJoin(a: Bytes, b: Bytes, rest: Bytes)
    ensures a + b + rest == a + (b + rest)
  {
  }

  lemma TlvRowGoesOn(data: Bytes, q: nat, b: Bytes, rest: Bytes)
    requires IsTlvPacket(b) && |rest| >= 4 && rest[0] == 0x7f && q <= |data| && data[q..] == b + rest
    ensures PacketsAt(Tlv, data, q, 2)
  {
    TlvIsRead(data, q, b, rest);
    var r := q + |b|;
    assert data[r..][0] == rest[0];
    assert PacketsAt(Tlv, data, r, 1);
  }

  // Of a TLV stream, the first place with two packets and the head of a third.
  lemma TlvStart(data: Bytes)
    ensures match PacketStart(Tlv, data)
            case Some(p) => TlvTripleAt(data, p) && forall q :: 0 <= q < p ==> !TlvTripleAt(data, q)
            case None => forall q: nat :: !TlvTripleAt(data, q)
  {
    StartIsFirst(Tlv, data, 0);
    forall p: nat ensures StartsAt(Tlv, data, p) <==> TlvTripleAt(data, p) { TlvStartsAt(data, p); }
  }

  /* Cutting a transport stream */

  // The packets given out, and what is left: whether packets are being cut, and
  // the bytes yet to be.
  datatype Cutting = Cutting(out: Bytes, aligned: bool, rest: Bytes)

  function After(out: Bytes, c: Cutting): Cutting {
    c.(out := out + c.out)
  }

  function Rank(aligned: bool, buf: Bytes): nat {
    if !aligned then 1 else if buf != [] && buf[0] == SYNC then 0 else 2
  }

  // What is cut of `buf`.
  function Cut(aligned: bool, buf: Bytes): Cutting
    decreases |buf|, Rank(aligned, buf)
  {
    if |buf| < TS_PACKET || (!aligned && |buf| < 3 * TS_PACKET) then Cutting([], aligned, buf)
    else if !aligned then
      TsStart(buf);
      match PacketStart(Ts, buf)
      case Some(start) => Cut(true, buf[start..])
      case None => Cutting([], false, buf[|buf| - (3 * TS_PACKET - 1)..])
    else if buf[0] != SYNC then Cut(false, buf)
    else After(buf[..TS_PACKET], Cut(true, buf[TS_PACKET..]))
  }

  // What is kept between frames is less than three packets, and less than one
  // while packets are being cut.
  lemma {:induction false} CarryIsSmall(aligned: bool, buf: Bytes)
    ensures |Cut(aligned, buf).rest| <= if Cut(aligned, buf).aligned then TS_PACKET - 1 else 3 * TS_PACKET - 1
    decreases |buf|, Rank(aligned, buf)
  {
    if |buf| < TS_PACKET || (!aligned && |buf| < 3 * TS_PACKET) {
    } else if !aligned {
      TsStart(buf);
      if PacketStart(Ts, buf).Some? { CarryIsSmall(true, buf[PacketStart(Ts, buf).value..]); }
    } else if buf[0] != SYNC {
      CarryIsSmall(false, buf);
    } else {
      CarryIsSmall(true, buf[TS_PACKET..]);
    }
  }

  /* The frames are of no account */

  // A start found stays the first as more comes.
  lemma StartStays(a: Bytes, b: Bytes)
    requires PacketStart(Ts, a).Some?
    ensures PacketStart(Ts, a + b) == PacketStart(Ts, a)
  {
    TsStart(a);
    TsStart(a + b);
    var p := PacketStart(Ts, a).value;
    assert TripleAt(a + b, p);
    assert forall q :: 0 <= q < p ==> TripleAt(a + b, q) == TripleAt(a, q);
  }

  // Bytes no packet starts at may be skipped, three packets but one byte kept.
  lemma Skipped(buf: Bytes, k: nat)
    requires k <= |buf| - (3 * TS_PACKET - 1)
    requires forall p :: 0 <= p < k ==> !TripleAt(buf, p)
    requires |buf| - k == 3 * TS_PACKET - 1 ==> forall p: nat :: !TripleAt(buf, p)
    ensures Cut(false, buf) == Cut(false, buf[k..])
  {
    TsStart(buf);
    if k == 0 {
      assert buf[k..] == buf;
    } else if PacketStart(Ts, buf).None? {
      SkippedForGood(buf, k);
    } else {
      SkippedUntil(buf, k, PacketStart(Ts, buf).value);
    }
  }

  lemma SkippedUntil(buf: Bytes, k: nat, p: nat)
    requires k <= p && k + 3 * TS_PACKET <= |buf| && PacketStart(Ts, buf) == Some(p)
    ensures Cut(false, buf) == Cut(false, buf[k..])
  {
    var kept := buf[k..];
    TsStart(buf);
    TsStart(kept);
    TriplesFrom(buf, k);
    assert TripleAt(kept, p - k);
    assert forall q :: 0 <= q < p - k ==> TripleAt(kept, q) == TripleAt(buf, k + q);
    assert PacketStart(Ts, kept) == Some(p - k);
    assert buf[p..] == kept[p - k..];
  }

  lemma SkippedForGood(buf: Bytes, k: nat)
    requires k <= |buf| - (3 * TS_PACKET - 1) && |buf| >= 3 * TS_PACKET
    requires PacketStart(Ts, buf).None?
    ensures Cut(false, buf) == Cut(false, buf[k..])
  {
    var kept, end := buf[k..], |buf| - (3 * TS_PACKET - 1);
    TsStart(buf);
    TsStart(kept);
    TriplesFrom(buf, k);
    assert Cut(false, buf) == Cutting([], false, buf[end..]);
    assert buf[end..] == kept[|kept| - (3 * TS_PACKET - 1)..];
  }

  lemma TriplesFrom(buf: Bytes, from: nat)
    requires from <= |buf|
    ensures forall p: nat :: TripleAt(buf[from..], p) == TripleAt(buf, from + p)
  {
  }

  // What is cut of `a`, then of what is left of it and `b`.
  function CutTwice(aligned: bool, a: Bytes, b: Bytes): Cutting {
    var first := Cut(aligned, a);
    After(first.out, Cut(first.aligned, first.rest + b))
  }

  // However the bytes are parted, the same is cut of them.
  lemma {:induction false} ChunkIndependent(aligned: bool, a: Bytes, b: Bytes)
    ensures CutTwice(aligned, a, b) == Cut(aligned, a + b)
    decreases |a|, Rank(aligned, a)
  {
    if |a| < TS_PACKET || (!aligned && |a| < 3 * TS_PACKET) {
      assert [] + Cut(aligned, a + b).out == Cut(aligned, a + b).out;
    } else if !aligned {
      TsStart(a);
      match PacketStart(Ts, a)
      case Some(start) =>
        StartStays(a, b);
        assert (a + b)[start..] == a[start..] + b;
        ChunkIndependent(true, a[start..], b);
      case None => NoneFoundIndependent(a, b);
    } else if a[0] != SYNC {
      ChunkIndependent(false, a, b);
    } else {
      assert (a + b)[TS_PACKET..] == a[TS_PACKET..] + b && (a + b)[..TS_PACKET] == a[..TS_PACKET];
      ChunkIndependent(true, a[TS_PACKET..], b);
      var first := Cut(true, a[TS_PACKET..]);
      var second := Cut(first.aligned, first.rest + b);
      assert (a[..TS_PACKET] + first.out) + second.out == a[..TS_PACKET] + (first.out + second.out);
    }
  }

  lemma NoneFoundIndependent(a: Bytes, b: Bytes)
    requires |a| >= 3 * TS_PACKET && PacketStart(Ts, a).None?
    ensures CutTwice(false, a, b) == Cut(false, a + b)
  {
    TsStart(a);
    var k := |a| - (3 * TS_PACKET - 1);
    assert (a + b)[k..] == a[k..] + b;
    assert forall p :: 0 <= p < k ==> TripleAt(a + b, p) == TripleAt(a, p);
    assert b == [] ==> a + b == a;
    Skipped(a + b, k);
    assert [] + Cut(false, a[k..] + b).out == Cut(false, a[k..] + b).out;
  }

  /* What the packets cut are */

  function Windows(buf: Bytes, starts: seq<nat>): Bytes
    requires forall i :: 0 <= i < |starts| ==> starts[i] + TS_PACKET <= |buf|
  {
    if starts == [] then [] else buf[starts[0]..starts[0] + TS_PACKET] + Windows(buf, starts[1..])
  }

  // Whether packets go on at `from`.
  predicate GoesOn(buf: Bytes, aligned: bool, from: nat) {
    aligned && from + TS_PACKET <= |buf| && buf[from] == SYNC
  }

  // Where the packet after `from` is: there, or, once there is none, where three
  // in a row start again, looked for once there are three packets of bytes.
  ghost predicate NextAt(buf: Bytes, aligned: bool, from: nat, p: nat) {
    if GoesOn(buf, aligned, from) then p == from
    else
      && (aligned ==> from + TS_PACKET <= |buf|) && from + 3 * TS_PACKET <= |buf|
      && from <= p && TripleAt(buf, p) && forall q :: from <= q < p ==> !TripleAt(buf, q)
  }

  // Whether no packet can be cut after `from`, what is from `end` being kept.
  ghost predicate StopsAt(buf: Bytes, aligned: bool, from: nat, aligned': bool, end: nat) {
    && from <= |buf| && !GoesOn(buf, aligned, from)
    && if aligned && from + TS_PACKET > |buf| then aligned' && end == from
       else if from + 3 * TS_PACKET > |buf| then !aligned' && end == from
       else !aligned' && end == |buf| - (3 * TS_PACKET - 1) && forall q :: from <= q ==> !TripleAt(buf, q)
  }

  // The packets of `buf` from `from` are those at `starts`, in order.
  ghost predicate Packets(buf: Bytes, aligned: bool, from: nat, starts: seq<nat>, aligned': bool, end: nat)
    decreases |starts|
  {
    if starts == [] then StopsAt(buf, aligned, from, aligned', end)
    else
      && NextAt(buf, aligned, from, starts[0]) && starts[0] + TS_PACKET <= |buf|
      && Packets(buf, true, starts[0] + TS_PACKET, starts[1..], aligned', end)
  }

  // The packets cut are those, and what is left is what is kept.
  ghost predicate IsCut(buf: Bytes, aligned: bool, from: nat, starts: seq<nat>, c: Cutting) {
    && from <= |buf| && |c.rest| <= |buf|
    && Packets(buf, aligned, from, starts, c.aligned, |buf| - |c.rest|)
    && (forall i :: 0 <= i < |starts| ==> starts[i] + TS_PACKET <= |buf|)
    && c.out == Windows(buf, starts) && c.rest == buf[|buf| - |c.rest|..]
  }

  lemma LosesStep(buf: Bytes, from: nat, starts: seq<nat>, c: Cutting)
    requires from + TS_PACKET <= |buf| && buf[from] != SYNC && IsCut(buf, false, from, starts, c)
    ensures IsCut(buf, true, from, starts, c)
  {
  }

  lemma LocksStep(buf: Bytes, from: nat, p: nat, starts: seq<nat>, c: Cutting)
    requires from + 3 * TS_PACKET <= |buf| && from <= p
    requires TripleAt(buf, p) && forall q :: from <= q < p ==> !TripleAt(buf, q)
    requires IsCut(buf, true, p, starts, c)
    ensures IsCut(buf, false, from, starts, c)
  {
    assert GoesOn(buf, true, p);
    assert starts != [] && starts[0] == p;
  }

  lemma CutStep(buf: Bytes, from: nat, starts: seq<nat>, c: Cutting)
    requires GoesOn(buf, true, from) && IsCut(buf, true, from + TS_PACKET, starts, c)
    ensures IsCut(buf, true, from, [from] + starts, After(buf[from..from + TS_PACKET], c))
  {
    assert ([from] + starts)[1..] == starts;
  }

  lemma StopStep(buf: Bytes, aligned: bool, from: nat)
    requires from <= |buf| && (|buf| - from < TS_PACKET || (!aligned && |buf| - from < 3 * TS_PACKET))
    ensures IsCut(buf, aligned, from, [], Cutting([], aligned, buf[from..]))
  {
  }

  lemma NothingStep(buf: Bytes, from: nat)
    requires from + 3 * TS_PACKET <= |buf| && PacketStart(Ts, buf[from..]).None?
    ensures IsCut(buf, false, from, [], Cut(false, buf[from..]))
  {
    TsStart(buf[from..]);
    TriplesFrom(buf, from);
    forall q | from <= q ensures !TripleAt(buf, q) { assert !TripleAt(buf[from..], q - from); }
    var end := |buf| - (3 * TS_PACKET - 1);
    assert buf[from..][end - from..] == buf[end..];
  }

  lemma FoundAt(buf: Bytes, from: nat, p: nat)
    requires from <= |buf| && PacketStart(Ts, buf[from..]) == Some(p)
    ensures TripleAt(buf, from + p) && forall q :: from <= q < from + p ==> !TripleAt(buf, q)
    ensures buf[from..][p..] == buf[from + p..]
  {
    TsStart(buf[from..]);
    TriplesFrom(buf, from);
    forall q | from <= q < from + p ensures !TripleAt(buf, q) { assert !TripleAt(buf[from..], q - from); }
  }

  // What is cut is the packets of the stream, whatever came before `from`.
  lemma {:induction false} CutsPackets(aligned: bool, buf: Bytes, from: nat) returns (starts: seq<nat>)
    requires from <= |buf|
    ensures IsCut(buf, aligned, from, starts, Cut(aligned, buf[from..]))
    decreases |buf| - from, Rank(aligned, buf[from..])
  {
    var b := buf[from..];
    if |b| < TS_PACKET || (!aligned && |b| < 3 * TS_PACKET) {
      StopStep(buf, aligned, from);
      starts := [];
    } else if !aligned {
      starts := LocksOrStops(buf, from);
    } else if b[0] != SYNC {
      starts := CutsPackets(false, buf, from);
      LosesStep(buf, from, starts, Cut(true, b));
    } else {
      assert b[TS_PACKET..] == buf[from + TS_PACKET..] && b[..TS_PACKET] == buf[from..from + TS_PACKET];
      var more := CutsPackets(true, buf, from + TS_PACKET);
      CutStep(buf, from, more, Cut(true, b[TS_PACKET..]));
      starts := [from] + more;
    }
  }

  lemma {:induction false} LocksOrStops(buf: Bytes, from: nat) returns (starts: seq<nat>)
    requires from + 3 * TS_PACKET <= |buf|
    ensures IsCut(buf, false, from, starts, Cut(false, buf[from..]))
    decreases |buf| - from, 1, 0
  {
    match PacketStart(Ts, buf[from..])
    case Some(p) =>
      FoundAt(buf, from, p);
      starts := CutsPackets(true, buf, from + p);
      LocksStep(buf, from, from + p, starts, Cut(true, buf[from + p..]));
    case None =>
      NothingStep(buf, from);
      starts := [];
  }

  // So packets come in order and apart, each headed by a sync byte; one not
  // right after the one before starts where three do, the first that does.
  lemma {:induction false} PacketsInOrder(buf: Bytes, aligned: bool, from: nat, starts: seq<nat>, aligned': bool,
                                          end: nat)
    requires Packets(buf, aligned, from, starts, aligned', end)
    ensures from <= end <= |buf|
    ensures forall i :: 0 <= i < |starts| ==> PacketIn(buf, from, starts[i], end)
    ensures starts != [] ==> NextAt(buf, aligned, from, starts[0])
    ensures forall i :: 1 <= i < |starts| ==> NextAt(buf, true, starts[i - 1] + TS_PACKET, starts[i])
    decreases |starts|
  {
    if starts == [] {
    } else {
      var rest := starts[1..];
      PacketsInOrder(buf, true, starts[0] + TS_PACKET, rest, aligned', end);
      forall i | 0 <= i < |starts| ensures PacketIn(buf, from, starts[i], end) {
        assert i > 0 ==> PacketIn(buf, starts[0] + TS_PACKET, rest[i - 1], end);
      }
      forall i | 1 <= i < |starts| ensures NextAt(buf, true, starts[i - 1] + TS_PACKET, starts[i]) {
        assert i > 1 ==> NextAt(buf, true, rest[i - 2] + TS_PACKET, rest[i - 1]);
      }
    }
  }

  predicate PacketIn(buf: Bytes, from: nat, p: nat, end: nat) {
    from <= p && p + TS_PACKET <= end <= |buf| && buf[p] == SYNC
  }

  /* A stream in frames */

  datatype State = State(frames: nat, aligned: bool, carry: Bytes)

  const START := State(0, false, [])

  function FedTs(s: State, data: Bytes): (Bytes, State) {
    var c := Cut(s.aligned, s.carry + data);
    (c.out, s.(aligned := c.aligned, carry := c.rest))
  }

  function FedTlv(s: State, data: Bytes): (Bytes, State) {
    if s.aligned then (data, s)
    else match PacketStart(Tlv, data)
      case Some(start) => (data[start..], s.(aligned := true))
      case None => ([], s)
  }

  // The first frame is left out.
  function Fed(format: Format, s: State, data: Bytes): (Bytes, State) {
    var s := s.(frames := s.frames + 1);
    if s.frames == 1 then ([], s)
    else if format.Ts? then FedTs(s, data)
    else FedTlv(s, data)
  }

  function FedAll(format: Format, s: State, chunks: seq<Bytes>): (Bytes, State) {
    if chunks == [] then ([], s)
    else
      var (out, s') := FedAll(format, s, chunks[..|chunks| - 1]);
      var (more, s'') := Fed(format, s', chunks[|chunks| - 1]);
      (out + more, s'')
  }

  // What comes out of a transport stream is what is cut of all its frames but
  // the first taken together, and what is kept is what is left of them.
  lemma {:induction false} TsIsCutAsAWhole(chunks: seq<Bytes>)
    requires chunks != []
    ensures var (out, s) := FedAll(Ts, START, chunks);
            Cutting(out, s.aligned, s.carry) == Cut(false, Join(chunks[1..])) && s.frames == |chunks|
    decreases |chunks|
  {
    var init, last := chunks[..|chunks| - 1], chunks[|chunks| - 1];
    if init == [] {
      assert FedAll(Ts, START, init) == ([], START);
      assert chunks[1..] == [];
    } else {
      TsIsCutAsAWhole(init);
      assert chunks[1..][..|chunks| - 2] == init[1..];
      ChunkIndependent(false, Join(init[1..]), last);
    }
  }

  // Two frames are worth the one they make up, in any state.
  lemma TwoFramesAreOne(s: State, a: Bytes, b: Bytes)
    ensures var (out, s') := FedTs(s, a);
            var (more, s'') := FedTs(s', b);
            (out + more, s'') == FedTs(s, a + b)
  {
    ChunkIndependent(s.aligned, s.carry + a, b);
    assert (s.carry + a) + b == s.carry + (a + b);
  }

  // All told: the packets of the frames but the first, from where three sync
  // bytes are first a packet apart, in order, and fewer than 564 bytes kept.
  lemma TsPacketsComeOut(chunks: seq<Bytes>) returns (starts: seq<nat>)
    requires chunks != []
    ensures var (out, s) := FedAll(Ts, START, chunks);
            IsCut(Join(chunks[1..]), false, 0, starts, Cutting(out, s.aligned, s.carry)) && |s.carry| <= 563
  {
    var stream := Join(chunks[1..]);
    TsIsCutAsAWhole(chunks);
    starts := CutsPackets(false, stream, 0);
    assert stream[0..] == stream;
    CarryIsSmall(false, stream);
  }

  // Frames in which no TLV packet starts are dropped; the first other gives the
  // stream from where it does, and all that follow come out whole.
  lemma {:induction false} TlvComesWhole(chunks: seq<Bytes>, k: nat)
    requires 1 <= k < |chunks| && PacketStart(Tlv, chunks[k]).Some?
    requires forall i :: 1 <= i < k ==> PacketStart(Tlv, chunks[i]).None?
    ensures FedAll(Tlv, START, chunks).0 == chunks[k][PacketStart(Tlv, chunks[k]).value..] + Join(chunks[k + 1..])
    ensures FedAll(Tlv, START, chunks).1 == State(|chunks|, true, [])
    decreases |chunks|
  {
    var init, last := chunks[..|chunks| - 1], chunks[|chunks| - 1];
    if k == |chunks| - 1 {
      NothingStarts(init);
      assert chunks[k + 1..] == [];
    } else {
      TlvComesWhole(init, k);
      assert chunks[k + 1..][..|chunks| - k - 2] == init[k + 1..];
    }
  }

  lemma {:induction false} NothingStarts(chunks: seq<Bytes>)
    requires forall i :: 1 <= i < |chunks| ==> PacketStart(Tlv, chunks[i]).None?
    ensures FedAll(Tlv, START, chunks) == ([], State(|chunks|, false, []))
    decreases |chunks|
  {
    if chunks == [] {
    } else {
      var init, last := chunks[..|chunks| - 1], chunks[|chunks| - 1];
      NothingStarts(init);
      assert |chunks| > 1 ==> PacketStart(Tlv, last).None?;
      var s := State(|init|, false, []);
      assert Fed(Tlv, s, last).1 == State(|chunks|, false, []);
      assert Fed(Tlv, s, last).0 == [];
      var none: Bytes := [];
      assert none + none == none;
    }
  }

  /* The aligner itself */

  method FindPacketStart(format: Format, data: Bytes) returns (r: Option<nat>)
    ensures r == PacketStart(format, data)
  {
    var start := 0;
    while start < |data|
      invariant start <= |data| && PacketStart(format, data) == StartFrom(format, data, start)
    {
      var at: nat, n: nat := start, 0;
      while n < 3 && PacketEnd(format, data, at).Some?
        invariant n <= 3 && StartsAt(format, data, start) == PacketsAt(format, data, at, 3 - n)
      {
        at, n := PacketEnd(format, data, at).value, n + 1;
      }
      if n == 3 { return Some(start); }
      start := start + 1;
    }
    return None;
  }

  // Cutting goes on from `at` with what is left, `out` being cut before it.
  ghost predicate CutSoFar(c: Cutting, out: Bytes, aligned: bool, buf: Bytes, at: nat) {
    at <= |buf| && c == After(out, Cut(aligned, buf[at..]))
  }

  lemma StartSoFar(aligned: bool, buf: Bytes)
    ensures CutSoFar(Cut(aligned, buf), [], aligned, buf, 0)
  {
    assert buf[0..] == buf;
    assert [] + Cut(aligned, buf).out == Cut(aligned, buf).out;
  }

  lemma LockSoFar(c: Cutting, out: Bytes, buf: Bytes, at: nat, start: nat)
    requires CutSoFar(c, out, false, buf, at) && at + 3 * TS_PACKET <= |buf|
    requires PacketStart(Ts, buf[at..]) == Some(start)
    ensures CutSoFar(c, out, true, buf, at + start) && RankAt(true, buf, at + start) == 0 && RankAt(false, buf, at) == 1
  {
    FoundAt(buf, at, start);
  }

  lemma StopSoFar(c: Cutting, out: Bytes, buf: Bytes, at: nat)
    requires CutSoFar(c, out, false, buf, at) && at + 3 * TS_PACKET <= |buf| && PacketStart(Ts, buf[at..]).None?
    ensures c == Cutting(out, false, buf[|buf| - (3 * TS_PACKET - 1)..])
  {
    assert buf[at..][|buf| - at - (3 * TS_PACKET - 1)..] == buf[|buf| - (3 * TS_PACKET - 1)..];
    assert out + [] == out;
  }

  lemma LoseSoFar(c: Cutting, out: Bytes, buf: Bytes, at: nat)
    requires CutSoFar(c, out, true, buf, at) && at + TS_PACKET <= |buf| && buf[at] != SYNC
    ensures CutSoFar(c, out, false, buf, at) && RankAt(false, buf, at) < RankAt(true, buf, at)
  {
  }

  function RankAt(aligned: bool, buf: Bytes, at: nat): nat
    requires at <= |buf|
  {
    Rank(aligned, buf[at..])
  }

  lemma EndSoFar(c: Cutting, out: Bytes, aligned: bool, buf: Bytes, at: nat)
    requires CutSoFar(c, out, aligned, buf, at)
    requires |buf| - at < TS_PACKET || (!aligned && |buf| - at < 3 * TS_PACKET)
    ensures c == Cutting(out, aligned, buf[at..])
  {
    assert out + [] == out;
  }

  lemma PacketSoFar(c: Cutting, out: Bytes, buf: Bytes, at: nat)
    requires CutSoFar(c, out, true, buf, at) && GoesOn(buf, true, at)
    ensures CutSoFar(c, out + buf[at..at + TS_PACKET], true, buf, at + TS_PACKET)
  {
    assert buf[at..][TS_PACKET..] == buf[at + TS_PACKET..] && buf[at..][..TS_PACKET] == buf[at..at + TS_PACKET];
    var more := Cut(true, buf[at + TS_PACKET..]).out;
    assert out + (buf[at..at + TS_PACKET] + more) == (out + buf[at..at + TS_PACKET]) + more;
  }

  class Aligner {
    const format: Format
    var frames: nat
    var aligned: bool
    var carry: Bytes

    ghost function View(): State
      reads this
    {
      State(frames, aligned, carry)
    }

    constructor (format: Format)
      ensures this.format == format && View() == START
    {
      this.format, frames, aligned, carry := format, 0, false, [];
    }

    method Feed(data: Bytes) returns (out: Bytes)
      modifies this
      ensures (out, View()) == Fed(format, old(View()), data)
    {
      frames := frames + 1;
      if frames == 1 { return []; }
      match format
      case Ts => out := FeedTs(data);
      case Tlv => out := FeedTlv(data);
    }

    method FeedTlv(data: Bytes) returns (out: Bytes)
      modifies this
      ensures (out, View()) == FedTlv(old(View()), data)
    {
      if aligned { return data; }
      var found := FindPacketStart(Tlv, data);
      match found
      case Some(start) => aligned := true; return data[start..];
      case None => return [];
    }

    method FeedTs(data: Bytes) returns (out: Bytes)
      modifies this
      ensures (out, View()) == FedTs(old(View()), data)
    {
      carry := carry + data;
      var at;
      out, at := CutCarry(Cut(aligned, carry));
      carry := carry[at..];
    }

    // Cuts the packets of what is carried, up to `at`.
    method CutCarry(ghost c: Cutting) returns (out: Bytes, at: nat)
      requires c == Cut(aligned, carry)
      modifies this`aligned
      ensures at <= |carry| && c == Cutting(out, aligned, carry[at..])
    {
      var buf := carry;
      out, at := [], 0;
      StartSoFar(aligned, buf);
      while |buf| - at >= TS_PACKET
        invariant at <= |buf| && CutSoFar(c, out, aligned, buf, at)
        decreases |buf| - at, RankAt(aligned, buf, at)
      {
        if !aligned {
          if |buf| - at < TS_PACKET * 3 { break; }
          var found := FindPacketStart(Ts, buf[at..]);
          match found {
            case Some(start) =>
              LockSoFar(c, out, buf, at, start);
              at, aligned := at + start, true;
            case None =>
              StopSoFar(c, out, buf, at);
              at := |buf| - (TS_PACKET * 3 - 1);
              return;
          }
        } else if buf[at] != SYNC {
          LoseSoFar(c, out, buf, at);
          aligned := false;
        } else {
          PacketSoFar(c, out, buf, at);
          out, at := out + buf[at..at + TS_PACKET], at + TS_PACKET;
        }
      }
      EndSoFar(c, out, aligned, buf, at);
    }
  }
}
