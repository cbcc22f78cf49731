/**
 The IT930x bridge: the frames of its control commands, and its firmware, a run
 of blocks each sent as one command.
 */
module It930x {
  import opened Options
  import opened Ints

  type Bytes = seq<U8>

  const MAX_PAYLOAD: nat := 255 - 3 - 2

  /* The checksum */

  // The sum of the big-endian words, the last byte of an odd number being the
  // high one of its word.
  function Sum(buf: Bytes): nat {
    if buf == [] then 0
    else if |buf| == 1 then 256 * buf[0] as int
    else 256 * buf[0] as int + buf[1] as int + Sum(buf[2..])
  }

  // Its one's complement, in 16 bits.
  function Checksum(buf: Bytes): U16 {
    0xffff - Sum(buf) % 0x1_0000
  }

  lemma WrapsOnce(total: nat, word: nat)
    ensures (total % 0x1_0000 + word) % 0x1_0000 == (total + word) % 0x1_0000
  {
  }

  method ComputeChecksum(buf: Bytes) returns (r: U16)
    ensures r == Checksum(buf) && (r as int + Sum(buf)) % 0x1_0000 == 0xffff
  {
    var sum: int, i := 0, 0;
    ghost var total: nat := 0;
    assert buf[0..] == buf;
    while i < |buf|
      invariant i <= |buf| + 1 && sum == total % 0x1_0000
      invariant Sum(buf) == total + if i <= |buf| then Sum(buf[i..]) else 0
      invariant i == |buf| + 1 ==> Sum(buf) == total
    {
      var high: nat, low: nat := buf[i], if i + 1 < |buf| then buf[i + 1] else 0;
      assert |buf[i..]| >= 2 ==> buf[i..][2..] == buf[i + 2..];
      WrapsOnce(total, 256 * high + low);
      sum := (sum + (256 * high + low)) % 0x1_0000;
      total := total + (256 * high + low);
      i := i + 2;
    }
    r := 0xffff - sum;
  }

  lemma {:induction false} SumOfChange(buf: Bytes, i: nat, v: U8)
    requires i < |buf|
    ensures Sum(buf[i := v]) - Sum(buf) == (v as int - buf[i] as int) * if i % 2 == 0 then 256 else 1
  {
    if i >= 2 {
      assert buf[i := v][2..] == buf[2..][i - 2 := v];
      SumOfChange(buf[2..], i - 2, v);
    } else if |buf| > 1 {
      assert buf[i := v][2..] == buf[2..];
    }
  }

  // Bytes are high and low in turn.
  lemma {:induction false} SumOfOneMore(buf: Bytes, v: U8)
    ensures Sum(buf + [v]) == Sum(buf) + v as int * if |buf| % 2 == 0 then 256 else 1
    decreases |buf|
  {
    if |buf| >= 2 {
      assert (buf + [v])[2..] == buf[2..] + [v];
      SumOfOneMore(buf[2..], v);
    } else if |buf| == 1 {
      assert (buf + [v])[2..] == [];
    }
  }

  // A byte changed, however long the message, changes the checksum.
  lemma ChangeIsSeen(buf: Bytes, i: nat, v: U8)
    requires i < |buf| && v != buf[i]
    ensures Checksum(buf[i := v]) != Checksum(buf)
  {
    SumOfChange(buf, i, v);
    var diff := Sum(buf[i := v]) - Sum(buf);
    assert -0x1_0000 < diff < 0x1_0000 && diff != 0;
  }

  /* The frames */

  function Word(x: U16): Bytes { [x / 0x100, x % 0x100] }

  function WordAt(buf: Bytes, i: nat): nat
    requires i + 2 <= |buf|
  {
    256 * buf[i] as int + buf[i + 1] as int
  }

  // What a command is sent as.
  function Frame(cmd: U16, seqNo: U8, payload: Bytes): Bytes
    requires |payload| <= MAX_PAYLOAD
  {
    var body := Word(cmd) + [seqNo] + payload;
    [AsU8(|body| + 2)] + body + Word(Checksum(body))
  }

  datatype Command = Command(cmd: nat, seqNo: U8, payload: Bytes)

  // What the bridge reads of a frame: all of it but the byte that gives its
  // length is under the checksum.
  function Read(frame: Bytes): Option<Command> {
    if |frame| < 6 || frame[0] as int != |frame| - 1 then None
    else if Checksum(frame[1..|frame| - 2]) != WordAt(frame, |frame| - 2) then None
    else Some(Command(WordAt(frame, 1), frame[3], frame[4..|frame| - 2]))
  }

  lemma FrameIsRead(cmd: U16, seqNo: U8, payload: Bytes)
    requires |payload| <= MAX_PAYLOAD
    ensures |Frame(cmd, seqNo, payload)| <= 256
    ensures Read(Frame(cmd, seqNo, payload)) == Some(Command(cmd, seqNo, payload))
  {
    var frame := Frame(cmd, seqNo, payload);
    var body := Word(cmd) + [seqNo] + payload;
    assert frame[1..|frame| - 2] == body;
    assert frame[4..|frame| - 2] == payload;
  }

  // Its bytes: how many follow, the command, high byte first, its number, the
  // payload, and what makes up 0xffff with the sum of all that.
  lemma FrameBytes(cmd: U16, seqNo: U8, payload: Bytes)
    requires |payload| <= MAX_PAYLOAD
    ensures var frame := Frame(cmd, seqNo, payload); var n := |payload|;
            && |frame| == n + 6 && frame[0] as int == n + 5
            && 256 * frame[1] as int + frame[2] as int == cmd && frame[3] == seqNo && frame[4..n + 4] == payload
            && (256 * frame[n + 4] as int + frame[n + 5] as int + Sum(frame[1..n + 4])) % 0x1_0000 == 0xffff
  {
    var frame := Frame(cmd, seqNo, payload);
    assert frame[1..|payload| + 4] == Word(cmd) + [seqNo] + payload;
  }

  // What the bridge responds with: the length, the number of the command, whether
  // it failed, and the payload, under the checksum.
  function Reply(seqNo: U8, status: U8, payload: Bytes): Bytes {
    var body := [seqNo, status] + payload;
    [AsU8(|body| + 2)] + body + Word(Checksum(body))
  }

  // What `ctrl` takes of a response to the command `seqNo`.
  function Response(buf: Bytes, seqNo: U8): Result<Bytes, string> {
    if |buf| < 5 then Err("control response too short")
    else if Checksum(buf[1..|buf| - 2]) != WordAt(buf, |buf| - 2) then Err("control response checksum mismatch")
    else if buf[1] != seqNo then Err("control response out of sequence")
    else if buf[2] != 0 then Err("control command failed")
    else Ok(buf[3..|buf| - 2])
  }

  lemma ReplyIsTaken(to: U8, status: U8, payload: Bytes, seqNo: U8)
    ensures Response(Reply(to, status, payload), seqNo)
              == if to != seqNo then Err("control response out of sequence")
                 else if status != 0 then Err("control command failed")
                 else Ok(payload)
  {
    var buf := Reply(to, status, payload);
    assert buf[1..|buf| - 2] == [to, status] + payload;
    assert buf[3..|buf| - 2] == payload;
  }

  // What is taken is a reply, but for its first byte.
  lemma TakenIsReply(buf: Bytes, seqNo: U8)
    requires Response(buf, seqNo).Ok?
    ensures buf[1..] == Reply(seqNo, 0, Response(buf, seqNo).value)[1..]
  {
    var n := |buf| - 2;
    assert buf[1..n] == [buf[1], buf[2]] + buf[3..n];
    assert buf[1..] == buf[1..n] + [buf[n], buf[n + 1]];
  }

  // A response with one byte changed is refused, unless it is the first, which
  // nothing covers.
  lemma ChangedResponse(buf: Bytes, seqNo: U8, i: nat, v: U8)
    requires Response(buf, seqNo).Ok? && i < |buf| && v != buf[i]
    ensures Response(buf[i := v], seqNo).Ok? <==> i == 0
    ensures i == 0 ==> Response(buf[i := v], seqNo) == Response(buf, seqNo)
  {
    var n := |buf| - 2;
    var changed := buf[i := v];
    if i == 0 {
      assert changed[1..n] == buf[1..n] && changed[3..n] == buf[3..n];
    } else if i < n {
      assert changed[1..n] == buf[1..n][i - 1 := v];
      ChangeIsSeen(buf[1..n], i - 1, v);
    } else {
      assert changed[1..n] == buf[1..n];
    }
  }

  /* The firmware */

  // The bytes of the segments of a block, as far as its header is there.
  function DataLength(rest: Bytes, segments: nat): nat {
    if segments == 0 then 0
    else DataLength(rest, segments - 1) + if 3 + 3 * segments < |rest| then rest[3 + 3 * segments] as nat else 0
  }

  function BlockLength(rest: Bytes): nat
    requires |rest| >= 4
  {
    var segments: nat := rest[3];
    4 + 3 * segments + DataLength(rest, segments)
  }

  // A block: 0x03, two bytes, the number of segments, three bytes for each, the
  // last its length, then their data.
  predicate IsBlock(b: Bytes) {
    |b| >= 4 && b[0] == 0x03 && |b| == BlockLength(b)
  }

  // A block the bridge can be sent as one command.
  predicate CanBeSent(b: Bytes) {
    IsBlock(b) && |b| <= MAX_PAYLOAD
  }

  function Join(blocks: seq<Bytes>): Bytes {
    if blocks == [] then [] else blocks[0] + Join(blocks[1..])
  }

  datatype Loading = Loading(sent: seq<Bytes>, error: Option<string>)

  // The blocks sent, and why no more are if any is left.
  function Load(rest: Bytes): Loading
    decreases |rest|
  {
    if rest == [] then Loading([], None)
    else if rest[0] != 0x03 || |rest| < 4 then Loading([], Some("invalid firmware block"))
    else
      var n := BlockLength(rest);
      if n > |rest| then Loading([], Some("truncated firmware block"))
      else if n > MAX_PAYLOAD then Loading([], Some("control message too long"))
      else
        var more := Load(rest[n..]);
        Loading([rest[..n]] + more.sent, more.error)
  }

  // The header alone gives the length.
  lemma {:induction false} DataLengthOf(a: Bytes, b: Bytes, segments: nat)
    requires 4 + 3 * segments <= |a|
    ensures DataLength(a + b, segments) == DataLength(a, segments)
  {
    if segments == 0 {
    } else {
      DataLengthOf(a, b, segments - 1);
    }
  }

  // The header of a block is in it, so what is cut is one.
  lemma BlockIsCut(rest: Bytes)
    requires |rest| >= 4 && rest[0] == 0x03 && BlockLength(rest) <= |rest|
    ensures IsBlock(rest[..BlockLength(rest)])
  {
    var n := BlockLength(rest);
    assert rest == rest[..n] + rest[n..];
    DataLengthOf(rest[..n], rest[n..], rest[3]);
  }

  predicate AllCanBeSent(blocks: seq<Bytes>) {
    forall i :: 0 <= i < |blocks| ==> CanBeSent(blocks[i])
  }

  // What is sent is blocks, and in order what the firmware begins with; all of
  // it if there is no error, and otherwise what is left begins with none.
  ghost predicate Sends(firmware: Bytes, l: Loading) {
    var joined := Join(l.sent);
    && AllCanBeSent(l.sent)
    && |joined| <= |firmware| && joined == firmware[..|joined|]
    && (if l.error.None? then joined == firmware else BeginsWithNone(firmware[|joined|..]))
  }

  lemma SendsOneMore(firmware: Bytes, n: nat, l: Loading)
    requires n <= |firmware| && CanBeSent(firmware[..n]) && Sends(firmware[n..], l)
    ensures Sends(firmware, Loading([firmware[..n]] + l.sent, l.error))
  {
    var rest, more, all := firmware[n..], Join(l.sent), [firmware[..n]] + l.sent;
    assert all[1..] == l.sent;
    assert Join(all) == firmware[..n] + more;
    assert rest[|more|..] == firmware[n + |more|..];
    assert rest[..|more|] == firmware[n..n + |more|];
    assert firmware[..n] + firmware[n..n + |more|] == firmware[..n + |more|];
  }

  lemma {:induction false} LoadSendsBlocks(firmware: Bytes)
    ensures Sends(firmware, Load(firmware))
    decreases |firmware|
  {
    assert firmware[0..] == firmware;
    if firmware != [] && firmware[0] == 0x03 && |firmware| >= 4 {
      var n := BlockLength(firmware);
      if n > |firmware| { BeginsTruncated(firmware); }
      else if n > MAX_PAYLOAD { BeginsTooLong(firmware); }
      else {
        BlockIsCut(firmware);
        LoadSendsBlocks(firmware[n..]);
        SendsOneMore(firmware, n, Load(firmware[n..]));
      }
    }
  }

  ghost predicate BeginsWithNone(rest: Bytes) {
    rest != [] && forall n :: 0 <= n <= |rest| ==> !CanBeSent(rest[..n])
  }

  lemma BeginsTruncated(rest: Bytes)
    requires |rest| >= 4 && BlockLength(rest) > |rest|
    ensures BeginsWithNone(rest)
  {
    forall n | 0 <= n <= |rest| ensures !CanBeSent(rest[..n]) {
      if IsBlock(rest[..n]) { LengthIsTold(rest, n); }
    }
  }

  lemma BeginsTooLong(rest: Bytes)
    requires |rest| >= 4 && BlockLength(rest) > MAX_PAYLOAD
    ensures BeginsWithNone(rest)
  {
    forall n | 0 <= n <= |rest| ensures !CanBeSent(rest[..n]) {
      if IsBlock(rest[..n]) { LengthIsTold(rest, n); }
    }
  }

  lemma LengthIsTold(rest: Bytes, n: nat)
    requires n <= |rest| && IsBlock(rest[..n])
    ensures n == BlockLength(rest)
  {
    assert rest == rest[..n] + rest[n..];
    DataLengthOf(rest[..n], rest[n..], rest[3]);
  }

  // Blocks put together are loaded as they were.
  lemma {:induction false} JoinedIsLoaded(blocks: seq<Bytes>)
    requires AllCanBeSent(blocks)
    ensures Load(Join(blocks)) == Loading(blocks, None)
    decreases |blocks|
  {
    if blocks == [] {
    } else {
      var b, more := blocks[0], Join(blocks[1..]);
      JoinedIsLoaded(blocks[1..]);
      assert (b + more)[..|b|] == b && (b + more)[|b|..] == more;
      LengthIsTold(b + more, |b|);
      assert blocks == [b] + blocks[1..];
    }
  }

  // So loading goes through for exactly the firmware made of such blocks.
  lemma LoadsExactlyBlocks(firmware: Bytes)
    ensures Load(firmware).error.None? <==> exists blocks :: AllCanBeSent(blocks) && Join(blocks) == firmware
  {
    LoadSendsBlocks(firmware);
    if blocks :| AllCanBeSent(blocks) && Join(blocks) == firmware { JoinedIsLoaded(blocks); }
  }

  /* What a block is made of */

  datatype Segment = Segment(first: U8, second: U8, data: Bytes)

  datatype Block = Block(first: U8, second: U8, segments: seq<Segment>)

  // What fits the bytes that count it, and a command.
  predicate Fits(b: Block) {
    && |b.segments| < 0x100 && (forall i :: 0 <= i < |b.segments| ==> |b.segments[i].data| < 0x100)
    && |Written(b)| <= 250
  }

  function Headers(segments: seq<Segment>): (r: Bytes)
    ensures |r| == 3 * |segments|
  {
    if segments == [] then []
    else
      var last := segments[|segments| - 1];
      Headers(segments[..|segments| - 1]) + [last.first, last.second, AsU8(|last.data|)]
  }

  function Contents(segments: seq<Segment>): Bytes {
    if segments == [] then []
    else Contents(segments[..|segments| - 1]) + segments[|segments| - 1].data
  }

  // 0x03, two bytes and the count, then two bytes for each segment and how long
  // its data is, and then the data of them all.
  function Written(b: Block): Bytes {
    [0x03, b.first, b.second, AsU8(|b.segments|)] + Headers(b.segments) + Contents(b.segments)
  }

  function AllWritten(blocks: seq<Block>): (r: seq<Bytes>) {
    seq(|blocks|, i requires 0 <= i < |blocks| => Written(blocks[i]))
  }

  predicate AllFit(blocks: seq<Block>) {
    forall i :: 0 <= i < |blocks| ==> Fits(blocks[i])
  }

  lemma {:induction false} HeaderAt(segments: seq<Segment>, i: nat)
    requires i < |segments| && |segments[i].data| < 0x100
    ensures Headers(segments)[3 * i + 2] as int == |segments[i].data|
    decreases |segments|
  {
    if i == |segments| - 1 {
    } else {
      HeaderAt(segments[..|segments| - 1], i);
    }
  }

  lemma {:induction false} LengthsAreWritten(b: Block, k: nat)
    requires Fits(b) && k <= |b.segments|
    ensures DataLength(Written(b), k) == |Contents(b.segments[..k])|
    decreases k
  {
    if k == 0 {
    } else {
      LengthsAreWritten(b, k - 1);
      HeaderAt(b.segments, k - 1);
      assert Written(b)[4..][3 * (k - 1) + 2] == Headers(b.segments)[3 * (k - 1) + 2];
      assert b.segments[..k][..k - 1] == b.segments[..k - 1];
    }
  }

  lemma WrittenCanBeSent(b: Block)
    requires Fits(b)
    ensures CanBeSent(Written(b))
  {
    LengthsAreWritten(b, |b.segments|);
    assert b.segments[..|b.segments|] == b.segments;
  }

  // Blocks written and put together are sent as they were.
  lemma WrittenIsLoaded(blocks: seq<Block>)
    requires AllFit(blocks)
    ensures Load(Join(AllWritten(blocks))) == Loading(AllWritten(blocks), None)
  {
    forall i | 0 <= i < |blocks| ensures CanBeSent(AllWritten(blocks)[i]) { WrittenCanBeSent(blocks[i]); }
    JoinedIsLoaded(AllWritten(blocks));
  }

  /* Each block is one written */

  // The segment `i` of a block.
  function SegmentAt(b: Bytes, i: nat): (s: Segment)
    requires IsBlock(b) && i < b[3] as nat
    ensures |s.data| == b[6 + 3 * i] as nat
  {
    LengthsGrow(b, i + 1, b[3]);
    Segment(b[4 + 3 * i], b[5 + 3 * i], b[DataAt(b, i)..DataAt(b, i + 1)])
  }

  function SegmentsOf(b: Bytes, k: nat): (r: seq<Segment>)
    requires IsBlock(b) && k <= b[3] as nat
  {
    seq(k, i requires 0 <= i < k => SegmentAt(b, i))
  }

  lemma {:induction false} LengthsGrow(b: Bytes, j: nat, k: nat)
    requires j <= k
    ensures DataLength(b, j) <= DataLength(b, k)
    decreases k
  {
    if j == k {
    } else {
      LengthsGrow(b, j, k - 1);
    }
  }

  lemma {:induction false} HeadersAreThere(b: Bytes, k: nat)
    requires IsBlock(b) && k <= b[3] as nat
    ensures 4 + 3 * k <= |b| && Headers(SegmentsOf(b, k)) == b[4..4 + 3 * k]
    decreases k
  {
    if k == 0 {
    } else {
      HeadersAreThere(b, k - 1);
      HeadersGoOn(b, k);
    }
  }

  lemma HeadersGoOn(b: Bytes, k: nat)
    requires IsBlock(b) && 1 <= k <= b[3] as nat
    requires 1 + 3 * k <= |b| && Headers(SegmentsOf(b, k - 1)) == b[4..1 + 3 * k]
    ensures 4 + 3 * k <= |b| && Headers(SegmentsOf(b, k)) == b[4..4 + 3 * k]
  {
    SegmentsOneMore(b, k);
    HeadersOneMore(SegmentsOf(b, k - 1), SegmentAt(b, k - 1));
    HeaderIsThere(b, k);
    SlicesJoin(b, 4, 1 + 3 * k, 4 + 3 * k);
  }

  lemma HeaderIsThere(b: Bytes, k: nat)
    requires IsBlock(b) && 1 <= k <= b[3] as nat
    ensures 4 + 3 * k <= |b|
    ensures var s := SegmentAt(b, k - 1); b[1 + 3 * k..4 + 3 * k] == [s.first, s.second, AsU8(|s.data|)]
  {
    TripleIs(b, 1 + 3 * k);
  }

  lemma TripleIs(b: Bytes, i: nat)
    requires i + 3 <= |b|
    ensures b[i..i + 3] == [b[i], b[i + 1], b[i + 2]]
  {
  }

  // Where the data of the segment `k` starts.
  function DataAt(b: Bytes, k: nat): nat
    requires IsBlock(b)
  {
    4 + 3 * b[3] as nat + DataLength(b, k)
  }

  lemma {:induction false} ContentsAreThere(b: Bytes, k: nat)
    requires IsBlock(b) && k <= b[3] as nat
    ensures DataAt(b, 0) <= DataAt(b, k) <= |b|
    ensures Contents(SegmentsOf(b, k)) == b[DataAt(b, 0)..DataAt(b, k)]
    decreases k
  {
    LengthsGrow(b, k, b[3]);
    if k == 0 {
    } else {
      ContentsAreThere(b, k - 1);
      SegmentIsThere(b, k);
      SegmentsOneMore(b, k);
      ContentsOneMore(SegmentsOf(b, k - 1), SegmentAt(b, k - 1));
      SlicesJoin(b, DataAt(b, 0), DataAt(b, k - 1), DataAt(b, k));
    }
  }

  lemma SegmentsOneMore(b: Bytes, k: nat)
    requires IsBlock(b) && 1 <= k <= b[3] as nat
    ensures SegmentsOf(b, k) == SegmentsOf(b, k - 1) + [SegmentAt(b, k - 1)]
  {
  }

  lemma SegmentIsThere(b: Bytes, k: nat)
    requires IsBlock(b) && 1 <= k <= b[3] as nat
    ensures DataAt(b, k - 1) <= DataAt(b, k) <= |b|
    ensures SegmentAt(b, k - 1).data == b[DataAt(b, k - 1)..DataAt(b, k)]
  {
    LengthsGrow(b, k, b[3]);
  }

  lemma HeadersOneMore(segments: seq<Segment>, s: Segment)
    ensures Headers(segments + [s]) == Headers(segments) + [s.first, s.second, AsU8(|s.data|)]
  {
    assert (segments + [s])[..|segments|] == segments;
  }

  lemma ContentsOneMore(segments: seq<Segment>, s: Segment)
    ensures Contents(segments + [s]) == Contents(segments) + s.data
  {
    assert (segments + [s])[..|segments|] == segments;
  }

  lemma SlicesJoin(b: Bytes, l: nat, m: nat, n: nat)
    requires l <= m <= n <= |b|
    ensures b[l..m] + b[m..n] == b[l..n]
  {
  }

  lemma PartsJoin(b: Bytes, n: nat)
    requires 4 <= n <= |b|
    ensures b == [b[0], b[1], b[2], b[3]] + b[4..n] + b[n..]
  {
  }

  lemma SegmentsAreWritten(b: Bytes)
    requires IsBlock(b)
    ensures Written(Block(b[1], b[2], SegmentsOf(b, b[3]))) == b
  {
    var n: nat := b[3];
    HeadersAreThere(b, n);
    ContentsAreThere(b, n);
    PartsJoin(b, 4 + 3 * n);
  }

  lemma BlockIsWritten(b: Bytes) returns (block: Block)
    requires CanBeSent(b)
    ensures Fits(block) && Written(block) == b
  {
    block := Block(b[1], b[2], SegmentsOf(b, b[3]));
    SegmentsAreWritten(b);
  }

  lemma {:induction false} BlocksAreWritten(bs: seq<Bytes>) returns (blocks: seq<Block>)
    requires AllCanBeSent(bs)
    ensures AllFit(blocks) && AllWritten(blocks) == bs
    decreases |bs|
  {
    if bs == [] {
      blocks := [];
    } else {
      var init := BlocksAreWritten(bs[..|bs| - 1]);
      var last := BlockIsWritten(bs[|bs| - 1]);
      blocks := init + [last];
      assert AllWritten(blocks)[..|init|] == AllWritten(init);
    }
  }

  // Loading goes through for exactly the firmware that is blocks written, each of
  // them then one command.
  ghost predicate LoadsWritten(firmware: Bytes, l: Loading) {
    && (l.error.None? <==> exists blocks :: AllFit(blocks) && firmware == Join(AllWritten(blocks)))
    && (forall blocks :: AllFit(blocks) && firmware == Join(AllWritten(blocks)) ==> l.sent == AllWritten(blocks))
  }

  lemma LoadsExactlyWritten(firmware: Bytes)
    ensures LoadsWritten(firmware, Load(firmware))
  {
    forall blocks | AllFit(blocks) && firmware == Join(AllWritten(blocks))
      ensures Load(firmware) == Loading(AllWritten(blocks), None)
    {
      WrittenIsLoaded(blocks);
    }
    if Load(firmware).error.None? {
      LoadSendsBlocks(firmware);
      var blocks := BlocksAreWritten(Load(firmware).sent);
      assert AllFit(blocks) && firmware == Join(AllWritten(blocks));
    }
  }

  /* The bridge itself */

  class Bridge {
    var seqNo: U8

    constructor ()
      ensures seqNo == 0
    {
      seqNo := 0;
    }

    // Sends a command; `response` is what the bridge gives back.
    method Ctrl(cmd: U16, payload: Bytes, response: Bytes) returns (sent: Option<Bytes>, r: Result<Bytes, string>)
      modifies this
      ensures |payload| > MAX_PAYLOAD ==> sent.None? && r.Err? && seqNo == old(seqNo)
      ensures |payload| <= MAX_PAYLOAD ==>
                && sent == Some(Frame(cmd, old(seqNo), payload))
                && Read(sent.value) == Some(Command(cmd, old(seqNo), payload))
                && r == Response(response, old(seqNo)) && seqNo as int == (old(seqNo) as int + 1) % 0x100
    {
      if |payload| > 255 - 3 - 2 { return None, Err("control message too long"); }
      var was := seqNo;
      seqNo := AsU8(was as int + 1);
      var body := Word(cmd) + [was] + payload;
      var sum := ComputeChecksum(body);
      var frame := [AsU8(4 + |payload| + 2 - 1)] + body + Word(sum);
      FrameIsRead(cmd, was, payload);
      assert frame == Frame(cmd, was, payload);
      sent := Some(frame);

      var n := |response|;
      if n < 5 { return sent, Err("control response too short"); }
      var check := ComputeChecksum(response[1..n - 2]);
      if check != WordAt(response, n - 2) { return sent, Err("control response checksum mismatch"); }
      if response[1] != was { return sent, Err("control response out of sequence"); }
      if response[2] != 0 { return sent, Err("control command failed"); }
      r := Ok(response[3..n - 2]);
    }
  }

  // The lengths of the segments of a block, as far as its header is there.
  method SumLengths(rest: Bytes) returns (data: nat)
    requires |rest| >= 4
    ensures data == DataLength(rest, rest[3])
  {
    var segments: nat, i := rest[3], 0;
    data := 0;
    while i < segments
      invariant i <= segments && data == DataLength(rest, i)
    {
      data := data + if 6 + i * 3 < |rest| then rest[6 + i * 3] as nat else 0;
      i := i + 1;
    }
  }

  // One block is sent.
  lemma LoadGoesOn(firmware: Bytes, sent: seq<Bytes>, rest: Bytes)
    requires |rest| >= 4 && rest[0] == 0x03 && BlockLength(rest) <= |rest| && BlockLength(rest) <= MAX_PAYLOAD
    requires Load(firmware) == Loading(sent + Load(rest).sent, Load(rest).error)
    ensures var n := BlockLength(rest); var more := Load(rest[n..]);
            Load(firmware) == Loading((sent + [rest[..n]]) + more.sent, more.error)
  {
    BlockIsLoaded(rest);
    Regroup(sent, rest[..BlockLength(rest)], Load(rest[BlockLength(rest)..]).sent);
  }

  lemma BlockIsLoaded(rest: Bytes)
    requires |rest| >= 4 && rest[0] == 0x03 && BlockLength(rest) <= |rest| && BlockLength(rest) <= MAX_PAYLOAD
    ensures var n := BlockLength(rest); var more := Load(rest[n..]);
            Load(rest) == Loading([rest[..n]] + more.sent, more.error)
  {
  }

  lemma Regroup(a: seq<Bytes>, b: Bytes, c: seq<Bytes>)
    ensures a + ([b] + c) == (a + [b]) + c
  {
  }

  // The block loop of load_firmware, every command going through.
  method LoadFirmware(firmware: Bytes) returns (sent: seq<Bytes>, error: Option<string>)
    ensures Loading(sent, error) == Load(firmware)
    ensures LoadsWritten(firmware, Loading(sent, error))
  {
    LoadsExactlyWritten(firmware);
    var rest := firmware;
    sent := [];
    assert [] + Load(firmware).sent == Load(firmware).sent;
    while rest != []
      invariant Load(firmware) == Loading(sent + Load(rest).sent, Load(rest).error)
      decreases |rest|
    {
      assert sent + [] == sent;
      if rest[0] != 0x03 || |rest| < 4 { return sent, Some("invalid firmware block"); }
      var data := SumLengths(rest);
      var n := 4 + rest[3] as nat * 3 + data;
      if n > |rest| { return sent, Some("truncated firmware block"); }
      if n > MAX_PAYLOAD { return sent, Some("control message too long"); }
      LoadGoesOn(firmware, sent, rest);
      sent, rest := sent + [rest[..n]], rest[n..];
    }
    assert sent + [] == sent;
    error := None;
  }
}
