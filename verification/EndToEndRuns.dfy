/** What holds in every run of tunelithd and its clients. */
module EndToEndRuns {
  // Of a stream handed out no event is lost while the control connection stays
  // up, a read that meets the end of the data finds how it came, and the bytes
  // lost are all counted.

  import opened Options
  import opened Tunelithd
  import opened TunelithClient
  import opened EndToEnd
  import opened EndToEndLinks
  import opened EndToEndWatch
  import opened EndToEndReports
  import opened EndToEndReads
  import E = TunelithdEvents
  import X = TunelithdStreams
  import Runs = TunelithdRuns

  ghost predicate Inv(w: World) {
    Runs.Inv(w.d) && Links(w) && Watched(w) && Reported(w) && Reads(w)
  }

  lemma MovedKeeps(w: World, move: Move)
    requires Inv(w) && CanMove(w, move)
    ensures Inv(Moved(w, move))
  {
    MovedKeepsInv(w, move);
    MovedKeepsLinks(w, move);
    MovedKeepsWatched(w, move);
    MovedKeepsReported(w, move);
    MovedKeepsReads(w, move);
  }

  lemma {:induction false} RunKeeps(w: World, moves: seq<Move>)
    requires Inv(w) && EndToEnd.After(w, moves).Some?
    ensures Inv(EndToEnd.After(w, moves).value)
    decreases |moves|
  {
    if moves == [] {
    } else {
      MovedKeeps(w, moves[0]);
      RunKeeps(Moved(w, moves[0]), moves[1..]);
    }
  }

  lemma StartIsFine()
    ensures Inv(START)
  {
    assert forall c :: Heard(START.d, c) == [];
  }

  lemma ReachableInv(w: World)
    requires EndToEnd.Reachable(w)
    ensures Inv(w)
  {
    var moves :| EndToEnd.After(START, moves) == Some(w);
    StartIsFine();
    RunKeeps(START, moves);
  }

  // Its client reads `t`, and its control connection is up.
  predicate HandedOut(w: World, c: ConnId, t: Token) {
    Watches(w, c, t) && w.clients[c].held[t].Handed?
  }

  // Nothing tunelithd says of a stream handed out is lost: what it said so far
  // is what the client knows, and what is still on its way to it.
  lemma NoEventIsLost(w: World, c: ConnId, t: Token)
    requires EndToEnd.Reachable(w) && HandedOut(w, c, t)
    ensures c in w.d.conns && t in w.d.streams && w.d.streams[t].conn == c
    ensures w.d.conns[c].received <= |w.d.conns[c].sent|
    ensures KnowsOf(w.clients[c], t, HeardOf(w.d, c, t))
    ensures HeardOf(w.d, c, t) + E.Events(w.d.conns[c].sent[w.d.conns[c].received..], t) == E.Reports(t, w.d.streams[t])
  {
    ReachableInv(w);
    WatchedSafe(w, c, t);
    assert Minds(w, c, t);
    var ms, n := w.d.conns[c].sent, w.d.conns[c].received;
    assert ms == ms[..n] + ms[n..];
    E.EventsAppend(ms[..n], ms[n..], t);
    assert E.ToldOf(w.d, c, t);
  }

  // A read that finds the data at an end learns how it came: the stream has
  // ended, everything taken from its channel was written, and the client knows
  // or its StreamEndEvent is on its way.
  lemma EndIsFound(w: World, c: ConnId, t: Token)
    requires EndToEnd.Reachable(w) && HandedOut(w, c, t) && !X.Served(w.d, t)
    ensures t in w.d.streams && w.d.streams[t].ended.Some? && w.d.streams[t].queue == []
    ensures c in w.d.conns && w.d.conns[c].received <= |w.d.conns[c].sent| && t in w.clients[c].ends
    ensures var text := w.d.streams[t].ended.value;
            var coming := w.d.conns[c].sent[w.d.conns[c].received..];
            || w.clients[c].ends[t] == EndFor(text)
            || (w.clients[c].ends[t] == Pending && StreamEndEvent(t, text) in coming)
    ensures PollEof(w.clients[c], t) != Waits ==>
              var text := w.d.streams[t].ended.value;
              PollEof(w.clients[c], t) == if text == "" then Ends else Fails(text)
  {
    ReachableInv(w);
    assert WatchedOk(w.d, t);
    NoEventIsLost(w, c, t);
    var y := w.d.streams[t];
    var coming := E.Events(w.d.conns[c].sent[w.d.conns[c].received..], t);
    EndSplits(t, y.drops, y.ended.value, HeardOf(w.d, c, t), coming);
    if StreamEndEvent(t, y.ended.value) in coming {
      EventsAreSent(w.d.conns[c].sent[w.d.conns[c].received..], t, StreamEndEvent(t, y.ended.value));
    }
  }

  lemma {:induction false} EventsAreSent(ms: seq<Message>, t: Token, m: Message)
    requires m in E.Events(ms, t)
    ensures m in ms
    decreases |ms|
  {
    if m !in ms[..|ms| - 1] && m != ms[|ms| - 1] { EventsAreSent(ms[..|ms| - 1], t, m); }
    else if m in E.Events(ms[..|ms| - 1], t) { EventsAreSent(ms[..|ms| - 1], t, m); }
  }

  lemma {:induction false} DropsEndNothing(t: Token, drops: seq<nat>)
    ensures EndOf(E.DropsOf(t, drops)) == Pending && DropTotal(E.DropsOf(t, drops)) == X.Sum(drops)
    ensures forall m :: m in E.DropsOf(t, drops) ==> m.DropEvent?
    decreases |drops|
  {
    if drops == [] {
    } else {
      var init := drops[..|drops| - 1];
      DropsEndNothing(t, init);
      assert (E.DropsOf(t, init) + [DropEvent(t, drops[|drops| - 1])])[..|E.DropsOf(t, init)|] == E.DropsOf(t, init);
    }
  }

  lemma {:induction false} NoEndAmong(events: seq<Message>)
    requires forall m :: m in events ==> m.DropEvent?
    ensures EndOf(events) == Pending
    decreases |events|
  {
    if events == [] {
    } else {
      assert events[|events| - 1] in events;
      NoEndAmong(events[..|events| - 1]);
    }
  }

  // The end is in the second part, or the first is all there is.
  lemma EndSplits(t: Token, drops: seq<nat>, text: string, heard: seq<Message>, coming: seq<Message>)
    requires heard + coming == E.DropsOf(t, drops) + [StreamEndEvent(t, text)]
    ensures coming == [] ==> EndOf(heard) == EndFor(text) && DropTotal(heard) == X.Sum(drops)
    ensures coming != [] ==> EndOf(heard) == Pending && StreamEndEvent(t, text) in coming
  {
    DropsEndNothing(t, drops);
    var all := E.DropsOf(t, drops);
    if coming == [] {
      assert heard == all + [StreamEndEvent(t, text)];
      assert heard[..|heard| - 1] == all;
    } else {
      assert coming[|coming| - 1] == (heard + coming)[|heard + coming| - 1];
      assert heard == (heard + coming)[..|heard|] == all[..|heard|];
      NoEndAmong(heard);
    }
  }

  // Of a stream its client knows the end of, every byte the tuner gave since it
  // joined went to its data connection, is queued for it, or is counted lost.
  lemma AllIsAccountedFor(w: World, c: ConnId, t: Token)
    requires EndToEnd.Reachable(w) && HandedOut(w, c, t) && PollEof(w.clients[c], t) != Waits
    ensures t in w.d.streams && w.d.streams[t].session in w.d.sess && t in w.clients[c].drops
    ensures var y := w.d.streams[t]; var took := w.d.sess[y.session].took;
            && y.since <= |took|
            && X.Taken(y.offers) == y.handed + y.queue
            && Runs.Size(took[y.since..]) == Runs.Size(y.handed) + Runs.Size(y.queue) + w.clients[c].drops[t]
    ensures !X.Served(w.d, t) ==> w.d.streams[t].queue == []
  {
    ReachableInv(w);
    NoEventIsLost(w, c, t);
    assert WatchedOk(w.d, t);
    var y := w.d.streams[t];
    var coming := E.Events(w.d.conns[c].sent[w.d.conns[c].received..], t);
    if y.ended.None? {
      DropsEndNothing(t, y.drops);
      assert forall m :: m in HeardOf(w.d, c, t) ==> m in HeardOf(w.d, c, t) + coming;
      NoEndAmong(HeardOf(w.d, c, t));
    }
    EndSplits(t, y.drops, y.ended.value, HeardOf(w.d, c, t), coming);
    Runs.EndedIsTold(w.d, t);
  }

  // A client reads no more than was written; and once it has read all there is of
  // a data connection at its end, every byte was read, in order, or is counted
  // lost.
  lemma AllIsReadOrCounted(w: World, c: ConnId, t: Token)
    requires EndToEnd.Reachable(w) && HandedOut(w, c, t) && PollEof(w.clients[c], t) != Waits
    ensures t in w.d.streams && w.d.streams[t].session in w.d.sess && t in w.clients[c].drops
    ensures t in w.clients[c].read && w.clients[c].read[t] <= |w.d.streams[t].handed|
    ensures var y, n := w.d.streams[t], w.clients[c].read[t];
            var took := w.d.sess[y.session].took;
            !X.Served(w.d, t) && n == |y.handed| ==>
              && y.since <= |took| && X.Taken(y.offers) == y.handed[..n]
              && Runs.Size(took[y.since..]) == Runs.Size(y.handed[..n]) + w.clients[c].drops[t]
  {
    AllIsAccountedFor(w, c, t);
    ReadsOk(w, c, t);
    var y, n := w.d.streams[t], w.clients[c].read[t];
    assert n == |y.handed| ==> y.handed[..n] == y.handed;
    assert y.handed + [] == y.handed;
  }

  lemma ReadsOk(w: World, c: ConnId, t: Token)
    requires EndToEnd.Reachable(w) && HandedOut(w, c, t)
    ensures t in w.d.streams && t in w.clients[c].read && w.clients[c].read[t] <= |w.d.streams[t].handed|
  {
    ReachableInv(w);
    assert LinkOk(w, c, t) && ReadOk(w, c, t);
  }
}
