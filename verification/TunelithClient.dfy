/**
 The client of tunelithd: what `Inner` keeps of a control connection, and how
 the reader task, the calls and the streams change it.
 */
module TunelithClient {
  import opened Options
  import opened Tunelithd

  const CLOSED := "tunelithd closed the connection"

  // How a stream ended, once tunelithd says.
  datatype End = Pending | Ended(error: Option<string>)

  // A stream acquire has taken the response for: registered, its data
  // connection up, or handed out.
  datatype Hold = Registered | Attached | Handed

  // `pending` says of each request whether its caller still waits, `answers`
  // holds the tokens callers have yet to take, `read` the chunks each stream
  // has given out.
  datatype Inner = Inner(up: bool, nextId: nat, pending: map<nat, bool>, answers: map<nat, Token>,
                         drops: map<Token, nat>, ends: map<Token, End>,
                         held: map<Token, Hold>, read: map<Token, nat>)

  const NEWLY := Inner(true, 1, map[], map[], map[], map[], map[], map[])

  function EndFor(text: string): End {
    Ended(if text == "" then None else Some(text))
  }

  function Forget(x: Inner, t: Token): Inner {
    x.(drops := x.drops - {t}, ends := x.ends - {t})
  }

  // The reader task on one envelope.
  function Took(x: Inner, m: Message): Inner {
    match m
    case DropEvent(t, bytes) => x.(drops := if t in x.drops then x.drops[t := x.drops[t] + bytes] else x.drops)
    case StreamEndEvent(t, text) => x.(ends := if t in x.ends then x.ends[t := EndFor(text)] else x.ends)
    case Acquired(id, t) =>
      if Late(x, m) then Forget(x, t).(pending := x.pending - {id}, nextId := x.nextId + 1)
      else x.(pending := x.pending - {id}, answers := if id in x.pending then x.answers[id := t] else x.answers)
    case Failed(id) => x.(pending := x.pending - {id})
    case Released(id) => x.(pending := x.pending - {id})
  }

  // An acquire that was given up on: its stream is the reader's to release.
  predicate Late(x: Inner, m: Message) {
    m.Acquired? && m.id in x.pending && !x.pending[m.id]
  }

  // acquire takes its response, from when it keeps what tunelithd reports.
  function Resumed(x: Inner, id: nat): Inner
    requires id in x.answers
  {
    var t := x.answers[id];
    x.(answers := x.answers - {id}, drops := x.drops[t := 0], ends := x.ends[t := Pending],
       held := x.held[t := Registered], read := x.read[t := 0])
  }

  function LetGo(x: Inner, t: Token): Inner {
    Forget(x, t).(held := x.held - {t}, read := x.read - {t}, nextId := x.nextId + 1)
  }

  // The connection is lost: the calls fail, and the streams end for it.
  function Lost(x: Inner): Inner {
    x.(up := false, pending := map[], ends := map t | t in x.ends :: Ended(Some(CLOSED)))
  }

  // What a read at the end of the data gives.
  datatype AtEof = Waits | Ends | Fails(error: string)

  function PollEof(x: Inner, t: Token): AtEof {
    if t !in x.ends then Ends
    else match x.ends[t]
      case Pending => Waits
      case Ended(None) => Ends
      case Ended(Some(error)) => Fails(error)
  }

  // The reader task on envelopes in turn.
  function TookAll(x: Inner, ms: seq<Message>): Inner {
    if ms == [] then x else Took(TookAll(x, ms[..|ms| - 1]), ms[|ms| - 1])
  }

  // The tokens the reader task asks to be released, nobody else being there to.
  function Unwanted(x: Inner, ms: seq<Message>): seq<Token> {
    if ms == [] then []
    else
      var init, last := ms[..|ms| - 1], ms[|ms| - 1];
      Unwanted(x, init) + if Late(TookAll(x, init), last) then [last.token] else []
  }

  class Connection {
    var up: bool
    var nextId: nat
    var pending: map<nat, bool>
    var answers: map<nat, Token>
    var drops: map<Token, nat>
    var ends: map<Token, End>
    var held: map<Token, Hold>
    var read: map<Token, nat>
    // What has been asked to be released.
    var asked: seq<Token>

    ghost function View(): Inner
      reads this
    {
      Inner(up, nextId, pending, answers, drops, ends, held, read)
    }

    constructor ()
      ensures View() == NEWLY && asked == []
    {
      up, nextId, pending, answers, drops := true, 1, map[], map[], map[];
      ends, held, read, asked := map[], map[], map[], [];
    }

    method ForgetStream(t: Token)
      modifies this
      ensures View() == Forget(old(View()), t) && asked == old(asked)
    {
      drops := drops - {t};
      ends := ends - {t};
    }

    // Releases a stream, waiting for no answer.
    method Release(t: Token)
      modifies this
      ensures View() == Forget(old(View()), t).(nextId := old(nextId) + 1) && asked == old(asked) + [t]
    {
      ForgetStream(t);
      nextId := nextId + 1;
      asked := asked + [t];
    }

    method End(t: Token, end: End)
      modifies this
      ensures View() == old(View()).(ends := if t in old(ends) then old(ends)[t := end] else old(ends))
      ensures asked == old(asked)
    {
      if t in ends { ends := ends[t := end]; }
    }

    method Take(m: Message)
      modifies this
      ensures View() == Took(old(View()), m)
      ensures asked == old(asked) + if Late(old(View()), m) then [m.token] else []
    {
      match m
      case DropEvent(t, bytes) => if t in drops { drops := drops[t := drops[t] + bytes]; }
      case StreamEndEvent(t, text) => End(t, EndFor(text));
      case Acquired(id, t) =>
        if id in pending {
          var waits := pending[id];
          pending := pending - {id};
          if waits { answers := answers[id := t]; } else { Release(t); }
        } else {
          assert pending - {id} == pending;
        }
      case Failed(id) => pending := pending - {id};
      case Released(id) => pending := pending - {id};
    }

    // The reader task, until the connection is lost.
    method Read(ms: seq<Message>)
      modifies this
      ensures View() == Lost(TookAll(old(View()), ms))
      ensures asked == old(asked) + Unwanted(old(View()), ms)
    {
      ghost var x := View();
      var i := 0;
      while i < |ms|
        invariant i <= |ms| && View() == TookAll(x, ms[..i]) && asked == old(asked) + Unwanted(x, ms[..i])
      {
        assert ms[..i + 1][..i] == ms[..i];
        Take(ms[i]);
        i := i + 1;
      }
      assert ms[..i] == ms;
      Fail();
    }

    // Fails the calls and the streams left waiting.
    method Fail()
      modifies this
      ensures View() == Lost(old(View())) && asked == old(asked)
    {
      up := false;
      pending := map[];
      var tokens := ends.Keys;
      while tokens != {}
        invariant tokens <= ends.Keys == old(ends).Keys && asked == old(asked)
        invariant forall t :: t in ends ==> ends[t] == if t in tokens then old(ends)[t] else Ended(Some(CLOSED))
        invariant View() == Lost(old(View())).(ends := ends)
        decreases tokens
      {
        var t :| t in tokens;
        End(t, Ended(Some(CLOSED)));
        tokens := tokens - {t};
      }
    }

    // acquire takes its response.
    method Resume(id: nat) returns (t: Token)
      requires id in answers
      modifies this
      ensures View() == Resumed(old(View()), id) && t == old(answers)[id] && asked == old(asked)
    {
      t := answers[id];
      answers := answers - {id};
      held := held[t := Registered];
      drops := drops[t := 0];
      ends := ends[t := Pending];
      read := read[t := 0];
    }

    // A stream, or what holds one for acquire, is dropped.
    method Drop(t: Token)
      modifies this
      ensures View() == LetGo(old(View()), t) && asked == old(asked) + [t]
    {
      Release(t);
      held := held - {t};
      read := read - {t};
    }
  }
}
