/** The stream of a bridge, split in place into packets. */
module Demux {
  // Packets are of 188 bytes (section 2.4.3.2 of ISO/IEC 13818-1), and the sync
  // byte tells the tuner.

  import opened Chunks

  const PACKET: nat := 188
  // Packets in a row with a sync byte it takes to lock back on the stream.
  const SYNC_COUNT: nat := 4
  const LOCK: nat := SYNC_COUNT * PACKET

  predicate Sync(tagged: bool, byte: bv8) {
    if tagged then byte & 0x8f == 0x07 else byte == 0x47
  }

  // The input a sync byte tells.
  function Id(tagged: bool, byte: bv8): nat {
    if tagged then ((byte & 0x70) >> 4) as nat else 1
  }

  // The tags of a sync byte.
  lemma TagsAre(byte: bv8)
    ensures Sync(true, byte) <==> byte in [0x07, 0x17, 0x27, 0x37, 0x47, 0x57, 0x67, 0x77]
    ensures Sync(true, byte) ==> byte as nat == Id(true, byte) * 16 + 7
  {
  }

  // Whether `SYNC_COUNT` packets in a row start at `p`.
  predicate Locks(tagged: bool, buf: Bytes, p: nat) {
    && p + LOCK <= |buf|
    && forall k :: 0 <= k < SYNC_COUNT ==> Sync(tagged, buf[p + PACKET * k])
  }

  // Whether a packet in a row of them starts at `p`.
  predicate GoesOn(tagged: bool, buf: Bytes, p: nat) {
    p + PACKET <= |buf| && Sync(tagged, buf[p])
  }

  /* What is cut */

  // Where the packets cut start, and how far they were looked for.
  datatype Cutting = Cutting(starts: seq<nat>, end: nat)

  function Rank(tagged: bool, buf: Bytes, p: nat, locked: bool): nat {
    if !locked then 1 else if GoesOn(tagged, buf, p) then 0 else 2
  }

  function Cut(tagged: bool, buf: Bytes, p: nat, locked: bool): Cutting
    requires p <= |buf|
    decreases |buf| - p, Rank(tagged, buf, p, locked)
  {
    if locked then
      if GoesOn(tagged, buf, p)
      then var c := Cut(tagged, buf, p + PACKET, true); c.(starts := [p] + c.starts)
      else Cut(tagged, buf, p, false)
    else if p + LOCK > |buf| then Cutting([], p)
    else if Locks(tagged, buf, p) then
      assert Sync(tagged, buf[p + PACKET * 0]);
      Cut(tagged, buf, p, true)
    else Cut(tagged, buf, p + 1, false)
  }

  // A packet for a tuner, its sync byte restored.
  datatype Packet = Packet(slot: nat, bytes: Bytes)

  predicate IsWindow(buf: Bytes, start: nat) {
    start + PACKET <= |buf|
  }

  // What is given out for the packet at `start`: nothing without a tuner to.
  function Out(tagged: bool, buf: Bytes, start: nat): seq<Packet> {
    if IsWindow(buf, start) && 1 <= Id(tagged, buf[start]) <= 5
    then [Packet(Id(tagged, buf[start]) - 1, [0x47] + buf[start + 1..start + PACKET])] else []
  }

  function Outs(tagged: bool, buf: Bytes, starts: seq<nat>): seq<Packet> {
    if starts == [] then []
    else Outs(tagged, buf, starts[..|starts| - 1]) + Out(tagged, buf, starts[|starts| - 1])
  }

  /* Where packets are cut */

  // The packet after `p` is there, or where packets lock again.
  ghost predicate NextAt(tagged: bool, buf: Bytes, p: nat, locked: bool, start: nat) {
    if locked && GoesOn(tagged, buf, p) then start == p
    else p <= start && Locks(tagged, buf, start) && forall q :: p <= q < start ==> !Locks(tagged, buf, q)
  }

  ghost predicate Packets(tagged: bool, buf: Bytes, p: nat, locked: bool, c: Cutting)
    decreases |c.starts|
  {
    if c.starts == [] then
      && p <= c.end <= |buf| && |buf| - c.end < LOCK && !(locked && GoesOn(tagged, buf, p))
      && forall q :: p <= q ==> !Locks(tagged, buf, q)
    else
      && NextAt(tagged, buf, p, locked, c.starts[0]) && GoesOn(tagged, buf, c.starts[0])
      && Packets(tagged, buf, c.starts[0] + PACKET, true, c.(starts := c.starts[1..]))
  }

  lemma {:induction false} CutsPackets(tagged: bool, buf: Bytes, p: nat, locked: bool)
    requires p <= |buf|
    ensures Packets(tagged, buf, p, locked, Cut(tagged, buf, p, locked))
    decreases |buf| - p, Rank(tagged, buf, p, locked)
  {
    if locked {
      if GoesOn(tagged, buf, p) {
        CutsPackets(tagged, buf, p + PACKET, true);
        var more := Cut(tagged, buf, p + PACKET, true);
        assert ([p] + more.starts)[1..] == more.starts;
      } else {
        CutsPackets(tagged, buf, p, false);
      }
    } else if p + LOCK <= |buf| {
      if Locks(tagged, buf, p) {
        assert Sync(tagged, buf[p + PACKET * 0]);
        CutsPackets(tagged, buf, p, true);
      } else {
        CutsPackets(tagged, buf, p + 1, false);
      }
    }
  }

  predicate Apart(starts: seq<nat>) {
    forall i :: 1 <= i < |starts| ==> starts[i - 1] + PACKET <= starts[i]
  }

  // So they come in order and apart, up to where bytes are kept from.
  lemma {:induction false} PacketsInOrder(tagged: bool, buf: Bytes, p: nat, locked: bool, c: Cutting)
    requires p <= |buf| && Packets(tagged, buf, p, locked, c)
    ensures p <= c.end <= |buf| && |buf| - c.end < LOCK
    ensures forall s :: s in c.starts ==> p <= s && s + PACKET <= c.end && Sync(tagged, buf[s])
    ensures Apart(c.starts)
    ensures c.starts != [] ==> NextAt(tagged, buf, p, locked, c.starts[0])
    ensures forall i :: 1 <= i < |c.starts| ==> NextAt(tagged, buf, c.starts[i - 1] + PACKET, true, c.starts[i])
    decreases |c.starts|
  {
    if c.starts == [] {
    } else {
      var rest := c.starts[1..];
      PacketsInOrder(tagged, buf, c.starts[0] + PACKET, true, c.(starts := rest));
      forall s | s in c.starts ensures p <= s && s + PACKET <= c.end && Sync(tagged, buf[s]) {
        if s != c.starts[0] { assert s in rest; }
      }
      forall i | 1 <= i < |c.starts|
        ensures c.starts[i - 1] + PACKET <= c.starts[i]
        ensures NextAt(tagged, buf, c.starts[i - 1] + PACKET, true, c.starts[i])
      {
        assert c.starts[i] == rest[i - 1] && rest[i - 1] in rest;
        assert i > 1 ==> c.starts[i - 1] == rest[i - 2];
      }
    }
  }

  // What one call cuts of what it was left and given.
  lemma CutIsFine(tagged: bool, buf: Bytes)
    ensures var c := Cut(tagged, buf, 0, false);
            && c.end <= |buf| && |buf| - c.end < LOCK && Apart(c.starts)
            && forall i :: 0 <= i < |c.starts| ==> c.starts[i] + PACKET <= c.end && Sync(tagged, buf[c.starts[i]])
  {
    CutsPackets(tagged, buf, 0, false);
    var c := Cut(tagged, buf, 0, false);
    PacketsInOrder(tagged, buf, 0, false, c);
    assert forall i :: 0 <= i < |c.starts| ==> c.starts[i] in c.starts;
  }

  /* Calls in a row */

  // What was given out so far, and what is left over.
  datatype State = State(out: seq<Packet>, carry: Bytes)

  function Fed(tagged: bool, carry: Bytes, data: Bytes): State {
    var buf := carry + data;
    CutIsFine(tagged, buf);
    var c := Cut(tagged, buf, 0, false);
    State(Outs(tagged, buf, c.starts), buf[c.end..])
  }

  function FedAll(tagged: bool, chunks: seq<Bytes>): State {
    if chunks == [] then State([], [])
    else
      var before := FedAll(tagged, chunks[..|chunks| - 1]);
      var now := Fed(tagged, before.carry, chunks[|chunks| - 1]);
      State(before.out + now.out, now.carry)
  }

  function Shifted(starts: seq<nat>, off: nat): seq<nat> {
    seq(|starts|, i requires 0 <= i < |starts| => starts[i] + off)
  }

  lemma {:induction false} SameOuts(tagged: bool, a: Bytes, at: seq<nat>, b: Bytes, bt: seq<nat>)
    requires |at| == |bt| && forall i :: 0 <= i < |at| ==> Out(tagged, a, at[i]) == Out(tagged, b, bt[i])
    ensures Outs(tagged, a, at) == Outs(tagged, b, bt)
    decreases |at|
  {
    if at == [] {
    } else {
      SameOuts(tagged, a, at[..|at| - 1], b, bt[..|bt| - 1]);
    }
  }

  lemma OutInside(tagged: bool, buf: Bytes, from: nat, to: nat, start: nat)
    requires from <= to <= |buf| && IsWindow(buf[from..to], start)
    ensures Out(tagged, buf, start + from) == Out(tagged, buf[from..to], start)
  {
    SliceOfSlice(buf, from, to, start + 1, start + PACKET);
  }

  lemma SliceOfSlice(s: Bytes, a: nat, b: nat, c: nat, d: nat)
    requires a <= b <= |s| && c <= d <= b - a
    ensures s[a..b][c..d] == s[a + c..a + d]
  {
    forall k | 0 <= k < d - c ensures s[a..b][c..d][k] == s[a + c..a + d][k] {}
  }

  // The packets of a part are those of the whole.
  lemma OutsInside(tagged: bool, buf: Bytes, from: nat, to: nat, starts: seq<nat>)
    requires from <= to <= |buf| && forall i :: 0 <= i < |starts| ==> IsWindow(buf[from..to], starts[i])
    ensures Outs(tagged, buf, Shifted(starts, from)) == Outs(tagged, buf[from..to], starts)
  {
    forall i | 0 <= i < |starts| ensures Out(tagged, buf, starts[i] + from) == Out(tagged, buf[from..to], starts[i]) {
      OutInside(tagged, buf, from, to, starts[i]);
    }
    SameOuts(tagged, buf, Shifted(starts, from), buf[from..to], starts);
  }

  lemma {:induction false} OutsJoin(tagged: bool, buf: Bytes, a: seq<nat>, b: seq<nat>)
    ensures Outs(tagged, buf, a + b) == Outs(tagged, buf, a) + Outs(tagged, buf, b)
    decreases |b|
  {
    if b == [] {
      assert a + b == a;
    } else {
      assert (a + b)[..|a + b| - 1] == a + b[..|b| - 1];
      OutsJoin(tagged, buf, a, b[..|b| - 1]);
    }
  }

  // A call goes on from `base`, up to which `starts` are the packets.
  lemma CallsJoin(tagged: bool, stream: Bytes, data: Bytes, base: nat, starts: seq<nat>, more: seq<nat>)
    requires base <= |stream| && forall i :: 0 <= i < |starts| ==> IsWindow(stream, starts[i])
    requires forall i :: 0 <= i < |more| ==> IsWindow(stream[base..] + data, more[i])
    ensures Outs(tagged, stream + data, starts + Shifted(more, base))
              == Outs(tagged, stream, starts) + Outs(tagged, stream[base..] + data, more)
  {
    var all := stream + data;
    assert all[base..|all|] == stream[base..] + data && all[0..|stream|] == stream && Shifted(starts, 0) == starts;
    OutsInside(tagged, all, base, |all|, more);
    OutsInside(tagged, all, 0, |stream|, starts);
    OutsJoin(tagged, all, starts, Shifted(more, base));
  }

  // Whether what came of `stream` is the packets at `starts`, in order and
  // apart, and the bytes past the last ones are kept.
  ghost predicate IsSplit(tagged: bool, stream: Bytes, starts: seq<nat>, s: State) {
    && |s.carry| < LOCK && |s.carry| <= |stream| && s.carry == stream[|stream| - |s.carry|..]
    && Apart(starts)
    && (forall i :: 0 <= i < |starts| ==>
          starts[i] + PACKET <= |stream| - |s.carry| && Sync(tagged, stream[starts[i]]))
    && s.out == Outs(tagged, stream, starts)
  }

  lemma SplitOn(tagged: bool, stream: Bytes, starts: seq<nat>, s: State, data: Bytes) returns (more: seq<nat>)
    requires IsSplit(tagged, stream, starts, s)
    ensures var now := Fed(tagged, s.carry, data);
            IsSplit(tagged, stream + data, starts + more, State(s.out + now.out, now.carry))
  {
    var base, buf := |stream| - |s.carry|, s.carry + data;
    CutIsFine(tagged, buf);
    var c := Cut(tagged, buf, 0, false);
    more := Shifted(c.starts, base);
    CallsJoin(tagged, stream, data, base, starts, c.starts);
    ApartJoined(starts, c.starts, base);
    WindowsJoin(tagged, stream, data, base, starts, c);
  }

  lemma WindowsJoin(tagged: bool, stream: Bytes, data: Bytes, base: nat, starts: seq<nat>, c: Cutting)
    requires base <= |stream|
    requires forall i :: 0 <= i < |starts| ==> starts[i] + PACKET <= base && Sync(tagged, stream[starts[i]])
    requires var buf := stream[base..] + data;
             && c.end <= |buf|
             && forall i :: 0 <= i < |c.starts| ==> c.starts[i] + PACKET <= c.end && Sync(tagged, buf[c.starts[i]])
    ensures var all, now := starts + Shifted(c.starts, base), stream + data;
            && base + c.end <= |now| && now[base + c.end..] == (stream[base..] + data)[c.end..]
            && forall i :: 0 <= i < |all| ==> all[i] + PACKET <= base + c.end && Sync(tagged, now[all[i]])
  {
    var all, now, buf := starts + Shifted(c.starts, base), stream + data, stream[base..] + data;
    forall i | 0 <= i < |all| ensures all[i] + PACKET <= base + c.end && Sync(tagged, now[all[i]]) {
      assert i >= |starts| ==> now[all[i]] == buf[c.starts[i - |starts|]];
    }
  }

  lemma ApartJoined(a: seq<nat>, b: seq<nat>, base: nat)
    requires Apart(a) && Apart(b) && forall i :: 0 <= i < |a| ==> a[i] + PACKET <= base
    ensures Apart(a + Shifted(b, base))
  {
  }

  // Whatever the input and however it is parted, what comes out is packets of
  // it, in order and apart, and fewer than 752 bytes are kept.
  lemma {:induction false} AllIsSplit(tagged: bool, chunks: seq<Bytes>) returns (starts: seq<nat>)
    ensures IsSplit(tagged, Join(chunks), starts, FedAll(tagged, chunks))
    decreases |chunks|
  {
    if chunks == [] {
      starts := [];
    } else {
      var init := chunks[..|chunks| - 1];
      var before := AllIsSplit(tagged, init);
      var more := SplitOn(tagged, Join(init), before, FedAll(tagged, init), chunks[|chunks| - 1]);
      starts := before + more;
    }
  }

  /* Which packets come out, and what they are */

  // The five tuners of a bridge are tagged 0x17 to 0x57; without tags there is one.
  predicate ForTuner(tagged: bool, byte: bv8) {
    if tagged then byte in [0x17, 0x27, 0x37, 0x47, 0x57] else byte == 0x47
  }

  function ForTuners(tagged: bool, buf: Bytes, starts: seq<nat>): seq<nat> {
    if starts == [] then []
    else
      var last := starts[|starts| - 1];
      ForTuners(tagged, buf, starts[..|starts| - 1])
        + if last < |buf| && ForTuner(tagged, buf[last]) then [last] else []
  }

  // Whether the packet at `start` is for the tuner of its tag, as it came but for
  // its sync byte.
  predicate IsPacketAt(tagged: bool, buf: Bytes, start: nat, packet: Packet) {
    && start + 188 <= |buf|
    && (if tagged then packet.slot < 5 && buf[start] as nat == 0x10 * (packet.slot + 1) + 7
        else packet.slot == 0 && buf[start] == 0x47)
    && |packet.bytes| == 188 && packet.bytes[0] == 0x47 && packet.bytes[1..] == buf[start + 1..start + 188]
  }

  ghost predicate ArePackets(tagged: bool, buf: Bytes, starts: seq<nat>, out: seq<Packet>) {
    |out| == |starts| && forall i :: 0 <= i < |out| ==> IsPacketAt(tagged, buf, starts[i], out[i])
  }

  lemma OutIsPacket(tagged: bool, buf: Bytes, start: nat)
    requires IsWindow(buf, start) && Sync(tagged, buf[start])
    ensures var out := Out(tagged, buf, start);
            if ForTuner(tagged, buf[start]) then |out| == 1 && IsPacketAt(tagged, buf, start, out[0]) else out == []
  {
    if tagged { TagsAre(buf[start]); }
  }

  lemma {:induction false} OutsArePackets(tagged: bool, buf: Bytes, starts: seq<nat>)
    requires forall i :: 0 <= i < |starts| ==> IsWindow(buf, starts[i]) && Sync(tagged, buf[starts[i]])
    ensures ArePackets(tagged, buf, ForTuners(tagged, buf, starts), Outs(tagged, buf, starts))
    decreases |starts|
  {
    if starts == [] {
    } else {
      OutsArePackets(tagged, buf, starts[..|starts| - 1]);
      OutIsPacket(tagged, buf, starts[|starts| - 1]);
    }
  }

  // Whatever the input and however it is parted: of the packets found in it,
  // which are apart and start with a sync byte, those tagged for a tuner are
  // given out in order, each to the tuner of its tag, and fewer than 752 bytes
  // are kept.
  lemma EachToItsTuner(tagged: bool, chunks: seq<Bytes>) returns (starts: seq<nat>)
    ensures Apart(starts)
    ensures var stream, s := Join(chunks), FedAll(tagged, chunks);
            && |s.carry| < 752 && |s.carry| <= |stream| && s.carry == stream[|stream| - |s.carry|..]
            && (forall i :: 0 <= i < |starts| ==>
                  starts[i] + 188 <= |stream| - |s.carry| && Sync(tagged, stream[starts[i]]))
            && ArePackets(tagged, stream, ForTuners(tagged, stream, starts), s.out)
  {
    starts := AllIsSplit(tagged, chunks);
    OutsArePackets(tagged, Join(chunks), starts);
  }

  /* A stream that stays in sync */

  // The starts of `n` packets in a row.
  function Row(n: nat): seq<nat> {
    seq(n, i => i * PACKET)
  }

  ghost predicate InSync(tagged: bool, buf: Bytes) {
    forall i: nat :: InSyncAt(tagged, buf, i)
  }

  predicate InSyncAt(tagged: bool, buf: Bytes, i: nat) {
    i * PACKET < |buf| ==> Sync(tagged, buf[i * PACKET])
  }

  lemma {:induction false} RunsToTheEnd(tagged: bool, buf: Bytes, i: nat)
    requires InSync(tagged, buf) && i * PACKET <= |buf|
    ensures var c := Cut(tagged, buf, i * PACKET, true);
            && c.end == |buf| / PACKET * PACKET
            && c.starts == Row(|buf| / PACKET)[i..]
    decreases |buf| - i * PACKET
  {
    assert InSyncAt(tagged, buf, i);
    if (i + 1) * PACKET <= |buf| {
      RunsToTheEnd(tagged, buf, i + 1);
      assert Row(|buf| / PACKET)[i..] == [i * PACKET] + Row(|buf| / PACKET)[i + 1..];
    } else {
      assert |buf| / PACKET == i;
    }
  }

  // Once four packets are there, all the whole ones are cut.
  lemma CutsThemAll(tagged: bool, buf: Bytes)
    requires InSync(tagged, buf)
    ensures var n := if |buf| < LOCK then 0 else |buf| / PACKET;
            Cut(tagged, buf, 0, false) == Cutting(Row(n), n * PACKET)
  {
    if |buf| >= LOCK {
      forall k | 0 <= k < SYNC_COUNT ensures Sync(tagged, buf[PACKET * k]) { assert InSyncAt(tagged, buf, k); }
      assert Locks(tagged, buf, 0);
      RunsToTheEnd(tagged, buf, 0);
      assert Row(|buf| / PACKET)[0..] == Row(|buf| / PACKET);
    }
  }

  lemma InSyncFrom(tagged: bool, buf: Bytes, n: nat)
    requires InSync(tagged, buf) && n * PACKET <= |buf|
    ensures InSync(tagged, buf[n * PACKET..])
  {
    forall i: nat ensures InSyncAt(tagged, buf[n * PACKET..], i) {
      assert InSyncAt(tagged, buf, n + i);
      assert (n + i) * PACKET == n * PACKET + i * PACKET;
    }
  }

  lemma InSyncUpTo(tagged: bool, buf: Bytes, more: Bytes)
    requires InSync(tagged, buf + more)
    ensures InSync(tagged, buf)
  {
    forall i: nat ensures InSyncAt(tagged, buf, i) { assert InSyncAt(tagged, buf + more, i); }
  }

  lemma RowsJoin(m: nat, n: nat)
    ensures Row(m) + Shifted(Row(n), m * PACKET) == Row(m + n)
  {
    assert forall i: nat :: m * PACKET + i * PACKET == (m + i) * PACKET;
  }

  // Of a stream made of tagged packets only, however parted, every packet of a
  // first part comes out, but those for no tuner, and the rest, fewer than
  // four, is kept.
  lemma {:induction false} InSyncNothingIsLost(tagged: bool, chunks: seq<Bytes>) returns (n: nat)
    requires InSync(tagged, Join(chunks))
    ensures n * PACKET <= |Join(chunks)| < n * PACKET + LOCK
    ensures FedAll(tagged, chunks) == State(Outs(tagged, Join(chunks), Row(n)), Join(chunks)[n * PACKET..])
    decreases |chunks|
  {
    if chunks == [] {
      n := 0;
    } else {
      var init, last := chunks[..|chunks| - 1], chunks[|chunks| - 1];
      InSyncUpTo(tagged, Join(init), last);
      var m := InSyncNothingIsLost(tagged, init);
      n := OneMoreInSync(tagged, Join(init), last, m, FedAll(tagged, init));
    }
  }

  lemma OneMoreInSync(tagged: bool, stream: Bytes, data: Bytes, m: nat, before: State) returns (n: nat)
    requires InSync(tagged, stream + data) && m * PACKET <= |stream|
    requires before == State(Outs(tagged, stream, Row(m)), stream[m * PACKET..])
    ensures n * PACKET <= |stream + data| < n * PACKET + LOCK
    ensures var now := Fed(tagged, before.carry, data);
            State(before.out + now.out, now.carry)
              == State(Outs(tagged, stream + data, Row(n)), (stream + data)[n * PACKET..])
  {
    var k := FedRest(tagged, stream, data, m);
    InSyncOn(tagged, stream, data, m, k, before, Fed(tagged, before.carry, data));
    n := m + k;
  }

  lemma FedRest(tagged: bool, stream: Bytes, data: Bytes, m: nat) returns (k: nat)
    requires InSync(tagged, stream + data) && m * PACKET <= |stream|
    ensures var buf := stream[m * PACKET..] + data;
            && k * PACKET <= |buf| < k * PACKET + LOCK
            && Fed(tagged, stream[m * PACKET..], data) == State(Outs(tagged, buf, Row(k)), buf[k * PACKET..])
  {
    RestInSync(tagged, stream, data, m);
    k := FedInSync(tagged, stream[m * PACKET..], data);
  }

  // Each whole packet of the first part tagged for a tuner is given to it.
  lemma InSyncEachToItsTuner(tagged: bool, chunks: seq<Bytes>) returns (n: nat)
    requires InSync(tagged, Join(chunks))
    ensures n * 188 <= |Join(chunks)| < n * 188 + 752
    ensures ArePackets(tagged, Join(chunks), ForTuners(tagged, Join(chunks), Row(n)), FedAll(tagged, chunks).out)
  {
    n := InSyncNothingIsLost(tagged, chunks);
    var stream, starts := Join(chunks), Row(n);
    RowFits(n);
    forall i | 0 <= i < n ensures IsWindow(stream, starts[i]) && Sync(tagged, stream[starts[i]]) {
      assert InSyncAt(tagged, stream, i);
    }
    OutsArePackets(tagged, stream, starts);
  }

  lemma RestInSync(tagged: bool, stream: Bytes, data: Bytes, m: nat)
    requires InSync(tagged, stream + data) && m * PACKET <= |stream|
    ensures InSync(tagged, stream[m * PACKET..] + data)
  {
    assert (stream + data)[m * PACKET..] == stream[m * PACKET..] + data;
    InSyncFrom(tagged, stream + data, m);
  }

  lemma InSyncOn(tagged: bool, stream: Bytes, data: Bytes, m: nat, k: nat, before: State, now: State)
    requires m * PACKET <= |stream| && before == State(Outs(tagged, stream, Row(m)), stream[m * PACKET..])
    requires k * PACKET <= |before.carry + data| < k * PACKET + LOCK
    requires now == State(Outs(tagged, before.carry + data, Row(k)), (before.carry + data)[k * PACKET..])
    ensures (m + k) * PACKET <= |stream + data| < (m + k) * PACKET + LOCK
    ensures State(before.out + now.out, now.carry)
              == State(Outs(tagged, stream + data, Row(m + k)), (stream + data)[(m + k) * PACKET..])
  {
    RowIsJoined(tagged, stream, data, m, k);
    RestIsLeft(stream, data, m * PACKET, k * PACKET);
  }

  // How many whole packets one call cuts.
  lemma FedInSync(tagged: bool, carry: Bytes, data: Bytes) returns (k: nat)
    requires InSync(tagged, carry + data)
    ensures k * PACKET <= |carry + data| < k * PACKET + LOCK
    ensures Fed(tagged, carry, data) == State(Outs(tagged, carry + data, Row(k)), (carry + data)[k * PACKET..])
  {
    var buf := carry + data;
    CutsThemAll(tagged, buf);
    k := if |buf| < LOCK then 0 else |buf| / PACKET;
  }

  lemma RestIsLeft(stream: Bytes, data: Bytes, base: nat, cut: nat)
    requires base <= |stream| && base + cut <= |stream + data|
    ensures (stream[base..] + data)[cut..] == (stream + data)[base + cut..]
  {
  }

  lemma RowIsJoined(tagged: bool, stream: Bytes, data: Bytes, m: nat, k: nat)
    requires m * PACKET <= |stream| && k * PACKET <= |stream[m * PACKET..] + data|
    ensures Outs(tagged, stream + data, Row(m + k))
              == Outs(tagged, stream, Row(m)) + Outs(tagged, stream[m * PACKET..] + data, Row(k))
  {
    RowsJoin(m, k);
    RowFits(m);
    RowFits(k);
    CallsJoin(tagged, stream, data, m * PACKET, Row(m), Row(k));
  }

  lemma RowFits(n: nat)
    ensures forall i :: 0 <= i < n ==> Row(n)[i] + PACKET <= n * PACKET
  {
    forall i | 0 <= i < n ensures Row(n)[i] + PACKET <= n * PACKET { assert (i + 1) * PACKET <= n * PACKET; }
  }

  /* The splitter itself */

  // What is yet to be cut is what would be from `end`, where the bytes are as
  // they were.
  ghost predicate SoFar(tagged: bool, was: Bytes, now: Bytes, starts: seq<nat>, end: nat, locked: bool) {
    && end <= |was| && Cut(tagged, was, 0, false) == Joined(starts, Cut(tagged, was, end, locked))
    && (forall s :: s in starts ==> s + PACKET <= end)
    && now == Rewritten(tagged, was, starts)
  }

  function Joined(starts: seq<nat>, c: Cutting): Cutting {
    c.(starts := starts + c.starts)
  }

  // The sync bytes of the packets given out are restored.
  function Rewritten(tagged: bool, was: Bytes, starts: seq<nat>): (r: Bytes)
    ensures |r| == |was|
  {
    seq(|was|, i requires 0 <= i < |was| => if i in starts && 1 <= Id(tagged, was[i]) <= 5 then 0x47 else was[i])
  }

  lemma StartSoFar(tagged: bool, was: Bytes)
    ensures SoFar(tagged, was, was, [], 0, false)
  {
    assert [] + Cut(tagged, was, 0, false).starts == Cut(tagged, was, 0, false).starts;
  }

  lemma SkipSoFar(tagged: bool, was: Bytes, now: Bytes, starts: seq<nat>, end: nat)
    requires SoFar(tagged, was, now, starts, end, false) && end + LOCK <= |was| && !Locks(tagged, now, end)
    ensures SoFar(tagged, was, now, starts, end + 1, false)
  {
    assert Locks(tagged, now, end) == Locks(tagged, was, end);
  }

  lemma LockSoFar(tagged: bool, was: Bytes, now: Bytes, starts: seq<nat>, end: nat)
    requires SoFar(tagged, was, now, starts, end, false) && Locks(tagged, now, end)
    ensures SoFar(tagged, was, now, starts, end, true) && GoesOn(tagged, now, end)
  {
    assert Locks(tagged, now, end) == Locks(tagged, was, end);
    assert Sync(tagged, now[end + PACKET * 0]);
  }

  lemma PacketSoFar(tagged: bool, was: Bytes, now: Bytes, starts: seq<nat>, end: nat)
    requires SoFar(tagged, was, now, starts, end, true) && GoesOn(tagged, now, end)
    ensures SoFar(tagged, was, WithPacket(tagged, now, end), starts + [end], end + PACKET, true)
    ensures Outs(tagged, was, starts + [end]) == Outs(tagged, was, starts) + Out(tagged, now, end)
  {
    SameFrom(tagged, was, starts, end);
    JoinsOneMore(starts, end, Cut(tagged, was, end + PACKET, true));
    RewrittenOn(tagged, was, starts, end);
    assert (starts + [end])[..|starts|] == starts;
    assert now[end + 1..end + PACKET] == now[end..][1..PACKET];
    assert was[end + 1..end + PACKET] == was[end..][1..PACKET];
  }

  lemma JoinsOneMore(starts: seq<nat>, end: nat, c: Cutting)
    ensures Joined(starts, c.(starts := [end] + c.starts)) == Joined(starts + [end], c)
  {
    assert starts + ([end] + c.starts) == (starts + [end]) + c.starts;
  }

  function WithPacket(tagged: bool, now: Bytes, p: nat): Bytes
    requires p < |now|
  {
    if 1 <= Id(tagged, now[p]) <= 5 then now[p := 0x47] else now
  }

  lemma SameFrom(tagged: bool, was: Bytes, starts: seq<nat>, end: nat)
    requires end <= |was| && forall s :: s in starts ==> s + PACKET <= end
    ensures Rewritten(tagged, was, starts)[end..] == was[end..]
    ensures end < |was| ==> Rewritten(tagged, was, starts)[end] == was[end]
  {
  }

  lemma RewrittenOn(tagged: bool, was: Bytes, starts: seq<nat>, end: nat)
    requires end < |was| && forall s :: s in starts ==> s < end
    ensures WithPacket(tagged, Rewritten(tagged, was, starts), end) == Rewritten(tagged, was, starts + [end])
  {
  }

  lemma UnlockSoFar(tagged: bool, was: Bytes, now: Bytes, starts: seq<nat>, end: nat)
    requires SoFar(tagged, was, now, starts, end, true) && !GoesOn(tagged, now, end)
    ensures SoFar(tagged, was, now, starts, end, false)
  {
  }

  lemma EndSoFar(tagged: bool, was: Bytes, now: Bytes, starts: seq<nat>, end: nat)
    requires SoFar(tagged, was, now, starts, end, false) && |was| - end < LOCK
    ensures Cut(tagged, was, 0, false) == Cutting(starts, end)
    ensures now[end..] == was[end..]
  {
    assert starts + [] == starts;
  }

  // Cuts the packets of `buf` in place, up to `end`: of the bytes only the sync
  // bytes of the packets given out change, and none is looked at after.
  method CutInPlace(buf: array<bv8>, tagged: bool) returns (out: seq<Packet>, end: nat)
    modifies buf
    ensures var was := old(buf[..]); var c := Cut(tagged, was, 0, false);
            && end == c.end <= buf.Length && buf[end..] == was[end..]
            && out == Outs(tagged, was, c.starts) && buf[..] == Rewritten(tagged, was, c.starts)
  {
    ghost var was := buf[..];
    ghost var starts: seq<nat> := [];
    StartSoFar(tagged, was);
    out, end := [], 0;
    while buf.Length - end >= PACKET * SYNC_COUNT
      invariant SoFar(tagged, was, buf[..], starts, end, false) && out == Outs(tagged, was, starts)
      decreases buf.Length - end
    {
      var locks := LocksAt(buf, tagged, end);
      if locks {
        LockSoFar(tagged, was, buf[..], starts, end);
        out, starts, end := CutRow(buf, tagged, was, starts, out, end);
      } else {
        SkipSoFar(tagged, was, buf[..], starts, end);
        end := end + 1;
      }
    }
    EndSoFar(tagged, was, buf[..], starts, end);
  }

  // Cuts the packets in a row from `p`.
  method CutRow(buf: array<bv8>, tagged: bool, ghost was: Bytes, ghost before: seq<nat>, given: seq<Packet>, p: nat)
      returns (out: seq<Packet>, ghost starts: seq<nat>, end: nat)
    requires SoFar(tagged, was, buf[..], before, p, true) && GoesOn(tagged, buf[..], p)
    requires given == Outs(tagged, was, before)
    modifies buf
    ensures SoFar(tagged, was, buf[..], starts, end, false) && out == Outs(tagged, was, starts) && p < end
  {
    out, starts, end := given, before, p;
    while buf.Length - end >= PACKET && Sync(tagged, buf[end])
      invariant SoFar(tagged, was, buf[..], starts, end, true) && out == Outs(tagged, was, starts)
      invariant p < end || (p == end && GoesOn(tagged, buf[..], end))
      decreases buf.Length - end
    {
      var packet := CutOne(buf, tagged, was, starts, end);
      out, starts, end := out + packet, starts + [end], end + PACKET;
    }
    UnlockSoFar(tagged, was, buf[..], starts, end);
  }

  method CutOne(buf: array<bv8>, tagged: bool, ghost was: Bytes, ghost starts: seq<nat>, p: nat)
      returns (out: seq<Packet>)
    requires SoFar(tagged, was, buf[..], starts, p, true) && GoesOn(tagged, buf[..], p)
    modifies buf
    ensures SoFar(tagged, was, buf[..], starts + [p], p + PACKET, true)
    ensures Outs(tagged, was, starts) + out == Outs(tagged, was, starts + [p])
  {
    PacketSoFar(tagged, was, buf[..], starts, p);
    out := GiveOut(buf, tagged, p);
  }

  // Restores the sync byte of a packet for a tuner, and gives it out.
  method GiveOut(buf: array<bv8>, tagged: bool, p: nat) returns (out: seq<Packet>)
    requires p + PACKET <= buf.Length
    modifies buf
    ensures out == Out(tagged, old(buf[..]), p) && buf[..] == WithPacket(tagged, old(buf[..]), p)
    ensures Sync(tagged, old(buf[p])) ==>
              if ForTuner(tagged, old(buf[p]))
              then |out| == 1 && IsPacketAt(tagged, old(buf[..]), p, out[0]) && buf[..] == old(buf[..])[p := 0x47]
              else out == [] && buf[..] == old(buf[..])
  {
    ghost var was := buf[..];
    if Sync(tagged, was[p]) { OutIsPacket(tagged, was, p); }
    var id := Id(tagged, buf[p]);
    out := [];
    if 1 <= id <= 5 {
      buf[p] := 0x47;
      out := [Packet(id - 1, buf[p..p + PACKET])];
      assert buf[p..p + PACKET] == [0x47] + old(buf[..])[p + 1..p + PACKET];
    }
  }

  method LocksAt(buf: array<bv8>, tagged: bool, p: nat) returns (locks: bool)
    requires p + LOCK <= buf.Length
    ensures locks == Locks(tagged, buf[..], p)
    ensures locks <==> Sync(tagged, buf[p]) && Sync(tagged, buf[p + 188]) && Sync(tagged, buf[p + 376])
                       && Sync(tagged, buf[p + 564])
  {
    var k := 0;
    while k < SYNC_COUNT && Sync(tagged, buf[p + PACKET * k])
      invariant k <= SYNC_COUNT
      invariant forall j :: 0 <= j < k ==> Sync(tagged, buf[..][p + PACKET * j])
    {
      k := k + 1;
    }
    locks := k == SYNC_COUNT;
    assert k < SYNC_COUNT ==> !Sync(tagged, buf[..][p + PACKET * k]);
    assert [Sync(tagged, buf[..][p + PACKET * 0]), Sync(tagged, buf[..][p + PACKET * 1]),
            Sync(tagged, buf[..][p + PACKET * 2]), Sync(tagged, buf[..][p + PACKET * 3])]
           == [Sync(tagged, buf[p]), Sync(tagged, buf[p + 188]),
               Sync(tagged, buf[p + 376]), Sync(tagged, buf[p + 564])];
  }

  method Demux(carry: Bytes, data: Bytes, tagged: bool) returns (out: seq<Packet>, left: Bytes)
    ensures State(out, left) == Fed(tagged, carry, data)
  {
    var all := carry + data;
    var buf := new bv8[|all|](i requires 0 <= i < |all| => all[i]);
    assert buf[..] == all;
    var end;
    out, end := CutInPlace(buf, tagged);
    left := buf[end..];
  }
}
