# tunelith, verified

Models of the parts of tunelith where several things have to stay in step, and
proofs of what they keep. `dafny verify dfyconfig.toml` checks all of it.

- **tunelithd and its clients.** `Tunelithd.dfy` is the daemon as a transition
  system: one step per critical section of `Daemon`, of a fan-out, of a control
  connection and of a data connection, so every interleaving of acquire,
  fan-out, prune, release, end and attach is a run. `TunelithdTuners`,
  `TunelithdSessions`, `TunelithdStreams`, `TunelithdEvents`,
  `TunelithdOwners`, `TunelithdRounds`, `TunelithdAnswers`, `TunelithdWishes`,
  `TunelithdCauses` and `TunelithdPresent` each keep one group of invariants; `TunelithdRuns.dfy` has
  the theorems. `TunelithdDaemon.dfy` is the daemon as a class whose methods
  are the critical sections, each proved to take the steps it stands for.
  `TunelithClient.dfy` is the client's side, and the `EndToEnd` files compose
  the two; `EndToEndExample.dfy` is one run of both.
- **The resynchronisers.** `Aligner.dfy` and `Demux.dfy` cut packets of 188
  bytes (section 2.4.3.2 of ISO/IEC 13818-1) out of streams chunked anyhow.
- **PLL synthesis.** `Pll.dfy`, `R850.dfy` and `Rt710.dfy` follow a frequency
  down to the register bits that encode it.
- **Hub, card and cancellation.** `Hub.dfy`, `Px4.dfy`, `LnbRequests.dfy` and
  `WasmTuner.dfy`.
- **Framing.** `It930x.dfy` and `Proto.dfy`.

Some promises do not hold in full, and the exact condition is proved:

- A `subscribe` that fails for a session just started leaves it running with no
  client, and its tuner busy. When all clients have gone exactly the tuners of
  such sessions are held (`TunelithdRuns.NothingIsLeft`,
  `TunelithdRuns.OrphanKeepsItsTuner`), and none on a run where no session
  started so (`TunelithdRuns.NothingIsLeftAtAll`).
- A `stream` given up on between `attach` and `start` leaves its hub running
  with no receiver for good; a run keeps the hub sound exactly if none was
  (`StreamHub.SoundUnlessGivenUpOn`). The read of tunelith-wasm gives up on one
  so, when `tune` or `close` comes while its stream is opening
  (crates/tunelith-wasm/src/lib.rs:161-206).
- An `open_tuner` given up on midway leaves boards powered, or chips initialised,
  for no tuner; a card stays sound all along a run exactly if none did
  (`Px4.CardIsSound`).
- A client's call to `acquire` given up on with its response sent to it and not
  yet taken leaves its stream with nobody to release it while the client is up,
  and nothing else does (`EndToEndForgotten.ForgottenIsDropped`,
  `EndToEndForgotten.ForgottenOnce`).
- An `acquire` that takes its response only after its control connection was lost
  hands out a stream whose reads wait for good at the end of the data; exactly
  the streams taken so do (`EndToEndLoss.WaitsIfHeldLater`,
  `EndToEndLoss.HandedOutToWait`).
- An LNB request given up on before its command runs leaves the supply as it was
  (`LnbRequests.AsAskedExactlyWhen`).
- The loop of the RT710 comes to divide by zero for some fraction exactly if the
  crystal is 32768 kHz or above (`Pll.RtLoopEnds`), and an RT710's registers
  tell its divider exactly from 587500 kHz on (`Rt710.Tuner.SetPll`).
- A byte changed in a response of the IT930x is noticed exactly if it is not the
  first (`It930x.ChangedResponse`).

Clocks, chips, sources and peers are parameters or free choices of a step: a
timeout, a tuner that fails to open, a channel's receiver going, the frames a
device gives. A `Session` behind an `Arc` is an entry of a map under its number,
and histories (what a stream was offered, what was last asked) are fields no
step looks at.

## Model

| member | source | states |
|---|---|---|
| `EndToEndRuns.NoEventIsLost` | crates/tunelith/src/lib.rs:347-372 | In every run of tunelithd and its clients: of a stream handed out, while the control connection is up, what the client counts dropped and knows of the end is exactly what it has received, and that followed by what is still on its way is all tunelithd ever said of the stream |
| `EndToEndRuns.EndIsFound` | crates/tunelith/src/lib.rs:440-466 | A read that meets the end of the data of such a stream: the stream has ended, nothing is left queued, and the client knows the end or the StreamEndEvent is on its way; once the read stops waiting it gives the end or the very error tunelithd reported |
| `EndToEndRuns.AllIsAccountedFor` | crates/tunelith/src/lib.rs:219-230 | Once the client knows the end, every byte the tuner gave since the client joined was written or queued for its data connection or is in the client's count of dropped bytes |
| `EndToEndRuns.AllIsReadOrCounted` | crates/tunelith/src/lib.rs:440-466 | A client reads no more than was written; once it has read all of a data connection at its end, every byte the tuner gave since it joined was read, in order, or is in its count of dropped bytes |
| `EndToEndCauses.ReadGivesTheCause` | crates/tunelith/src/lib.rs:440-466 | Over every run: a read that meets the end of the data and stops waiting fails with the very error the source of the session gave, if it gave one that is not empty, and ends cleanly if it gave none, was stopped or was left idle |
| `EndToEndCauses.EndedAsTheSource` | crates/tunelith-cli/src/bin/tunelithd/main.rs:372-382 | The same of what the daemon ended the stream with |
| `EndToEndCauses.RunsAsTheDaemon` | crates/tunelith/src/lib.rs:212-248 | A run of daemon and clients is, for the daemon, one of its own |
| `EndToEndLeaks.AnswerAsAsked` | crates/tunelith/src/lib.rs:333-347 | What a caller of acquire is given is a stream of a session with the parameters that call asked for, on the tuner it named if it named one |
| `EndToEndLeaks.AcquiredAsAsked` | crates/tunelith-cli/src/bin/tunelithd/main.rs:157-226 | So is every stream told in response to a request, whatever the client did since |
| `EndToEndLeaks.AnsweredOnce` | crates/tunelith-cli/src/bin/tunelithd/main.rs:437-447 | No request is responded to twice, and none that was is still worked on |
| `EndToEndForgotten.ForgottenIsDropped` | crates/tunelith/src/lib.rs:231-239 | Of the streams told to a client that is up, exactly those whose caller went away with the response, having been sent it, are neither held, nor about to be taken, nor asked to be released |
| `EndToEndForgotten.ForgottenOnce` | crates/tunelith/src/lib.rs:262-265 | A run that comes to it: a stream served to nobody, its client up |
| `EndToEndLeaks.NoStreamIsForgotten` | crates/tunelith/src/lib.rs:231-239 | Every stream told to a client that is up is held, about to be taken, asked to be released, or went away so; an acquire given up on before its response is no exception |
| `EndToEndRequests.MovedKeepsRequests` | crates/tunelith/src/lib.rs:231-239 | Every move keeps: requests are numbered and responded to once, a caller is there for each response with a token, and each token is of a stream of what was asked for |
| `EndToEndLoss.WaitsIfHeldLater` | crates/tunelith/src/lib.rs:244-250 | Over every run after the control connection is lost: at the end of its data a stream held then fails, and one held later, its acquire having had its response but not taken it yet, waits for as long as it is held |
| `EndToEndLoss.HandedOutToWait` | crates/tunelith/src/lib.rs:347-360 | A run that comes to it: a stream handed out whose reads wait, whatever runs after |
| `EndToEndReads.MovedKeepsReads` | crates/tunelith/src/lib.rs:440-466 | Every move keeps what is read within what is written |
| `EndToEndExample.AnEndIsFound` | crates/tunelith/src/lib.rs:334-466 | A whole run, from the connection over a chunk read to the read that finds the end: the streams the theorems speak of come about |
| `EndToEndRuns.ReachableInv` | crates/tunelith/src/lib.rs:63-95 | The links between daemon and clients hold in every state the two reach together |
| `EndToEndRuns.EndSplits` | crates/tunelith/src/lib.rs:224-227 | Of the reports of an ended stream, split anywhere between received and coming, the end is known exactly when none is coming |
| `EndToEndLinks.MovedKeepsLinks` | crates/tunelith/src/lib.rs:231-239 | Every move keeps: a client holds a stream only once its token was told to it, holds none it asked to be released, and no token told is known twice |
| `EndToEndLinks.HeardIsTold` | crates/tunelith-cli/src/bin/tunelithd/main.rs:533-536 | A token is heard at most once, and only on the connection it was acquired through |
| `EndToEndLinks.TokenIsNew` | crates/tunelith/src/lib.rs:231-239 | A token told now was never told, held, awaited, attached or asked to be released by that client before |
| `EndToEndWatch.MovedKeepsWatched` | crates/tunelith-cli/src/bin/tunelithd/main.rs:494-506 | A stream its client has a data connection up for stays subscribed until it has ended, and is served until it has ended and drained |
| `EndToEndWatch.NotGivenBack` | crates/tunelith-cli/src/bin/tunelithd/main.rs:437-447 | A task that gives a stream back late never gives back one its client was told of |
| `EndToEndReports.NothingYet` | crates/tunelith-cli/src/bin/tunelithd/main.rs:315-328 | Until a data connection attaches, nothing is reported of a stream: neither a drop nor its end |
| `EndToEndReports.MovedKeepsReported` | crates/tunelith/src/lib.rs:219-227 | Every move keeps the client's count and end of a held stream those of the events it has heard |
| `EndToEndReports.KnowsMore` | crates/tunelith/src/lib.rs:219-230 | What the reader does with one message is what hearing one event more means |
| `TunelithdTuners.BusyIsHeld` | crates/tunelith-cli/src/bin/tunelithd/main.rs:206-236 | In every reachable state a tuner is busy exactly if an acquire in progress, a live session or one being closed holds it, only one of them does, and closing is within busy |
| `TunelithdTuners.OpenMeetsAClosedTuner` | crates/tunelith-driver-px4/src/board.rs:154-159 | Opening a reserved tuner always meets a slot that is free: its previous holder has closed it |
| `TunelithdTuners.StepKeeps` | crates/tunelith-cli/src/bin/tunelithd/main.rs:386-394 | Every step keeps the holders of tuners as they should be |
| `TunelithdRuns.StepKeeps` | crates/tunelith-cli/src/bin/tunelithd/main.rs:157-410 | Every step of the daemon keeps every invariant the theorems rest on |
| `TunelithdRuns.ReachableInv` | crates/tunelith-cli/src/bin/tunelithd/main.rs:157-410 | So they hold in every reachable state |
| `TunelithdRuns.BytesAccountedFor` | crates/tunelith-cli/src/bin/tunelithd/main.rs:315-328 | For each subscriber at any time: the bytes the tuner gave since it joined, up to the round under way, are those handed over, queued in order, reported dropped, and dropped and yet to be reported; the drops told are those of its history |
| `TunelithdRuns.EndTellsAll` | crates/tunelith-cli/src/bin/tunelithd/main.rs:372-382 | Once a stream has ended nothing is left unreported, and exactly one StreamEndEvent follows its last DropEvent |
| `TunelithdCauses.EndsAsTheSource` | crates/tunelith-cli/src/bin/tunelithd/main.rs:372-382 | Over every run: a stream that has ended has ended with the error its session's source gave, and with an empty one if it gave none, the session was stopped or left idle |
| `TunelithdWishes.GetsWhatItAsksFor` | crates/tunelith-cli/src/bin/tunelithd/main.rs:157-226 | In every reachable state: an acquire that has a stream has one of a session with the parameters it asked for, on the tuner it named if it named one; and the tuner it holds meanwhile is that one |
| `TunelithdWishes.ChoosesWhenNoneSuits` | crates/tunelith-cli/src/bin/tunelithd/main.rs:168-180 | An acquire goes on to choose a tuner exactly if no running session has its parameters and a suitable tuner |
| `TunelithdRuns.OffersAddUp` | crates/tunelith-cli/src/bin/tunelithd/main.rs:317-324 | A chunk offered is either taken or counted lost |
| `TunelithdRuns.TokensMatch` | crates/tunelith-cli/src/bin/tunelithd/main.rs:365-371 | Every parked receiver has its token, every token a live session; a token maps to no other session than the one it is a subscriber of, and to that exactly until it is drained |
| `TunelithdRuns.TeardownLeavesNothing` | crates/tunelith-cli/src/bin/tunelithd/main.rs:526-542 | A control connection gone with its tasks done leaves none of its tokens in tokens or unattached, whatever order they ran in |
| `TunelithdRuns.StopCutsNoClient` | crates/tunelith-cli/src/bin/tunelithd/main.rs:404-409 | A stop permit, or a fan-out that left for want of clients, means a session out of the running ones with no subscriber, now and for good: nobody joins it and its drain ends no stream |
| `TunelithdRuns.NothingIsLeftAtAll` | crates/tunelith-cli/src/bin/tunelithd/main.rs:353-410 | On a run where every session started got its first client: once every client has gone and no step of the daemon's own is enabled, busy, closing, sessions, tokens and unattached are empty |
| `TunelithdRuns.NothingIsLeft` | crates/tunelith-cli/src/bin/tunelithd/main.rs:353-410 | On any run: calls, tokens, unattached and closing are empty then, and busy holds exactly the tuners of sessions that no client ever joined |
| `TunelithdRuns.OrphanKeepsItsTuner` | crates/tunelith-cli/src/bin/tunelithd/main.rs:219-226 | Such a session exists: a run in which a failed subscribe leaves a tuner busy with no client |
| `TunelithdRuns.TokenProgress` | crates/tunelith-cli/src/bin/tunelithd/main.rs:538-541 | A token whose client has gone is released by some step |
| `TunelithdAnswers.ControlKeeps` | crates/tunelith-cli/src/bin/tunelithd/main.rs:533-536 | Answers keep each token told at most once, and on the connection that asked |
| `TunelithdEvents.FanOutKeeps` | crates/tunelith-cli/src/bin/tunelithd/main.rs:547-558 | Each step of a fan-out keeps the events sent on a connection equal to the drops, then the end, of each stream's history |
| `TunelithdOwners.ControlKeeps` | crates/tunelith-cli/src/bin/tunelithd/main.rs:449-455 | Until its token is gone a stream is owned, left to release or in a task's hands by the connection it was acquired through |
| `TunelithdRounds.OfferKeeps` | crates/tunelith-cli/src/bin/tunelithd/main.rs:315-328 | A round offers a subscriber the chunk once, so its offers are the chunks taken since it joined, in order |
| `TunelithdStreams.FanOutKeeps` | crates/tunelith-cli/src/bin/tunelithd/main.rs:315-330 | Each step of a fan-out keeps the account of every stream's bytes |
| `TunelithdPresent.FanOutKeeps` | crates/tunelith-cli/src/bin/tunelithd/main.rs:315-328 | Only a subscriber whose receiver has gone is pruned, so a token with a receiver left has its subscriber |
| `TunelithdSessions.FanOutKeeps` | crates/tunelith-cli/src/bin/tunelithd/main.rs:342-349 | A session past its end, or told to stop, is out of the running ones and has no clients to lose |
| `TunelithdDaemon.Tunelith.Look` | crates/tunelith-cli/src/bin/tunelithd/main.rs:168-177 | Joins the first running session with the same parameters and, if one is named, that tuner, fails for want of a token, or finds there is no such session; it finds one exactly if there is one with those fields |
| `TunelithdDaemon.Tunelith.Reserve` | crates/tunelith-cli/src/bin/tunelithd/main.rs:249-269 | Takes the first candidate neither held nor being closed, all before it being held; none only if all are |
| `TunelithdDaemon.Tunelith.Subscribe` | crates/tunelith-cli/src/bin/tunelithd/main.rs:125-155 | Adds the client, its token and its parked receiver, and changes nothing else |
| `TunelithdDaemon.Tunelith.Start` | crates/tunelith-cli/src/bin/tunelithd/main.rs:208-226 | Starts the session, with its first client if there is a token to be had |
| `TunelithdDaemon.Tunelith.Keep` | crates/tunelith-cli/src/bin/tunelithd/main.rs:437-447 | Keeps the stream for the client, or finds it gone |
| `TunelithdDaemon.Tunelith.DropReceiver` | crates/tunelith-cli/src/bin/tunelithd/main.rs:396-398 | The receiver goes first, as a step of its own |
| `TunelithdDaemon.Tunelith.Release` | crates/tunelith-cli/src/bin/tunelithd/main.rs:396-410 | Lets go of the receiver, then of the token and the subscriber, and with the last one of the session |
| `TunelithdDaemon.Tunelith.Leave` | crates/tunelith-cli/src/bin/tunelithd/main.rs:538-541 | Releases every stream of a client gone, and no other token |
| `TunelithdDaemon.Tunelith.Attach` | crates/tunelith-cli/src/bin/tunelithd/main.rs:494-498 | Takes the receiver of a known token once |
| `TunelithdDaemon.Tunelith.HandOut` | crates/tunelith-cli/src/bin/tunelithd/main.rs:314-330 | One chunk: each subscriber is pruned, has it queued and its drops told, or has it counted dropped, exactly as its channel stands |
| `TunelithdDaemon.Tunelith.Offer` | crates/tunelith-cli/src/bin/tunelithd/main.rs:317-324 | One try_send, and what is told if it goes through |
| `TunelithdDaemon.Tunelith.Tell` | crates/tunelith-cli/src/bin/tunelithd/main.rs:547-558 | Reports what was dropped, if anything, before anything else, and zeroes it |
| `TunelithdDaemon.Tunelith.CloseIfIdle` | crates/tunelith-cli/src/bin/tunelithd/main.rs:342-349 | Takes the session out of the running ones exactly if it has no client |
| `TunelithdDaemon.Tunelith.End` | crates/tunelith-cli/src/bin/tunelithd/main.rs:353-383 | Takes the session and its tokens off the state and ends every stream of it: with the error the source gave if it gave one, with an empty one otherwise |
| `TunelithdDaemon.Tunelith.Finish` | crates/tunelith-cli/src/bin/tunelithd/main.rs:390-393 | Frees the tuner once closed |
| `TunelithClient.Connection.Read` | crates/tunelith/src/lib.rs:212-248 | The reader task over any messages, until the connection is lost: the state it leaves and, in order, the tokens it asks to be released |
| `TunelithClient.Connection.Take` | crates/tunelith/src/lib.rs:218-242 | One message: the drops, end or response it tells, and the release of an acquire given up on |
| `TunelithClient.Connection.Fail` | crates/tunelith/src/lib.rs:244-250 | A lost connection fails every call and ends every stream registered by then |
| `TunelithClient.Connection.Resume` | crates/tunelith/src/lib.rs:345-358 | acquire registers the token for drops and for its end |
| `TunelithClient.Connection.Drop` | crates/tunelith/src/lib.rs:468-472 | A stream dropped is forgotten and asked to be released |
| `BdaAligner.ChunkIndependent` | crates/tunelith-core/src/bda/mod.rs:848-880 | In any state, cutting a then b gives the same packets, lock and carry as cutting a and b together, for all bytes |
| `BdaAligner.TwoFramesAreOne` | crates/tunelith-core/src/bda/mod.rs:848-880 | The same for two frames fed to the aligner |
| `BdaAligner.TsIsCutAsAWhole` | crates/tunelith-core/src/bda/mod.rs:823-832 | What comes out of all frames is what is cut of all but the first taken together |
| `BdaAligner.TsPacketsComeOut` | crates/tunelith-core/src/bda/mod.rs:823-880 | It is the packets from the first place three sync bytes are 188 apart, and at most 563 bytes are kept |
| `BdaAligner.CutsPackets` | crates/tunelith-core/src/bda/mod.rs:848-880 | What is cut is exactly the packets of the reference: the next right after the one before, or where three sync bytes are next a packet apart |
| `BdaAligner.PacketsInOrder` | crates/tunelith-core/src/bda/mod.rs:874-876 | Those are disjoint, in order, each headed by 0x47, none skipped between two |
| `BdaAligner.CarryIsSmall` | crates/tunelith-core/src/bda/mod.rs:853-878 | Fewer than 188 bytes are kept while packets are cut, fewer than 564 otherwise |
| `BdaAligner.TsStart` | crates/tunelith-core/src/bda/mod.rs:883-906 | The search gives the first place of three sync bytes 188 apart, if there is one |
| `BdaAligner.TlvStart` | crates/tunelith-core/src/bda/mod.rs:883-906 | Of a TLV stream, the first place with two packets, 0x7f, a type, a length of two bytes, high one first, and as many bytes, and the head of a third behind them |
| `BdaAligner.StartIsFirst` | crates/tunelith-core/src/bda/mod.rs:883-906 | For either format, the first place where three packets in a row start, the third needing only its head |
| `BdaAligner.TlvComesWhole` | crates/tunelith-core/src/bda/mod.rs:834-846 | Of a TLV stream: from the first packet start of the first frame that has one, everything |
| `BdaAligner.FindPacketStart` | crates/tunelith-core/src/bda/mod.rs:883-906 | The search loop gives the specified start |
| `BdaAligner.Aligner.Feed` | crates/tunelith-core/src/bda/mod.rs:823-832 | One frame fed, the first left out |
| `BdaAligner.Aligner.FeedTs` | crates/tunelith-core/src/bda/mod.rs:848-880 | Feeding a frame of a transport stream cuts what is carried and it, and keeps the rest |
| `BdaAligner.Aligner.CutCarry` | crates/tunelith-core/src/bda/mod.rs:851-877 | The cutting loop comes to the specified packets and place |
| `BdaAligner.Aligner.FeedTlv` | crates/tunelith-core/src/bda/mod.rs:834-846 | Feeding a frame of a TLV stream |
| `Demux.AllIsSplit` | crates/tunelith-driver-px4/src/stream.rs:113-148 | For any input and chunking, what comes out is disjoint windows of the stream in order, each headed by a sync byte, and fewer than 752 bytes are kept, the last ones |
| `Demux.EachToItsTuner` | crates/tunelith-driver-px4/src/stream.rs:109-148 | For any input and chunking: of the packets found, those with a sync byte of 0x17 to 0x57 by sixteens (0x47 untagged) come out, one each and in order, slot k those headed 0x10 * (k + 1) + 7 (slot 0 untagged), as 0x47 and the 187 bytes that follow; fewer than 752 bytes are kept |
| `Demux.InSyncEachToItsTuner` | crates/tunelith-driver-px4/src/stream.rs:126-147 | The same of every packet of the first part of a stream of tagged packets only |
| `Demux.InSyncNothingIsLost` | crates/tunelith-driver-px4/src/stream.rs:126-147 | Of a stream of tagged packets only, however chunked: every packet of a first part comes out, those for no tuner aside, and the rest, fewer than four packets, is kept from a packet boundary |
| `Demux.CutsPackets` | crates/tunelith-driver-px4/src/stream.rs:129-146 | The packets cut are those of the reference: in a row, or from where four sync bytes next are 188 apart |
| `Demux.PacketsInOrder` | crates/tunelith-driver-px4/src/stream.rs:129-146 | Those are disjoint and in order, with sync bytes, up to where bytes are kept from |
| `Demux.TagsAre` | crates/tunelith-driver-px4/src/stream.rs:118-124 | A sync byte is 0x07 to 0x77 by sixteens, and its tag tells which |
| `Demux.CutInPlace` | crates/tunelith-driver-px4/src/stream.rs:126-146 | The loop that rewrites the buffer gives out the packets of the bytes as they were, changes only their sync bytes, and leaves the rest as it was |
| `Demux.GiveOut` | crates/tunelith-driver-px4/src/stream.rs:135-144 | A packet headed 0x17 to 0x57 (0x47 untagged) goes to slot 0 to 4, with 0x47 for its sync byte and the rest as it came, and nothing else changes; one with another sync byte goes nowhere |
| `Demux.LocksAt` | crates/tunelith-driver-px4/src/stream.rs:130-133 | Whether four sync bytes in a row, 188 bytes apart, are there |
| `Demux.Demux` | crates/tunelith-driver-px4/src/stream.rs:113-148 | One call, what it gives out and what it keeps |
| `Pll.RtLoopEnds` | crates/tunelith-driver-px4/src/rt710.rs:262-276 | The RT710 loop ends without dividing by zero for every fraction exactly if the crystal is below 32768 kHz, and then gives what that of the R850 does |
| `Pll.SdmIsTheFraction` | crates/tunelith-driver-px4/src/r850.rs:582-598 | The result is even, at most 65534, and times twice the crystal within 16 * 65536 of 65536 times the fraction |
| `Pll.SdmIsClose` | crates/tunelith-driver-px4/src/r850.rs:587-597 | The same from any step on, with what the steps before owe |
| `Pll.PllSdm` | crates/tunelith-driver-px4/src/r850.rs:582-598 | The loop of the R850 gives the specified sum |
| `Pll.RtPllSdm` | crates/tunelith-driver-px4/src/rt710.rs:262-276 | The 16-bit loop of the RT710 gives its own, or comes to a division by zero |
| `Pll.Snap` | crates/tunelith-driver-px4/src/r850.rs:805-814 | A fraction on a multiple of the crystal or well off it stays; any other moves off the spurs, by at most a 64th of the crystal |
| `R850.Tuner.SetFrequency` | crates/tunelith-driver-px4/src/r850.rs:1727-1738 | Tunes exactly for an initialised tuner, a supported system and 40000 to 1002000 kHz; then the registers encode a local oscillator above the signal by the intermediate frequency for J.83B, DTMB and ATSC, and below it for the others |
| `R850.Tuner.SetPll` | crates/tunelith-driver-px4/src/r850.rs:694-829 | The registers make the oscillator run within a 64th of the crystal and 16 kHz of lo times the divider, the one power of two that puts it in 2200000 to 4400000 kHz (2270000 to 4540000 for chip 0); integer and sum are those of that frequency moved off the spurs; and when the crystal is halved or quartered |
| `R850.FindDivider` | crates/tunelith-driver-px4/src/r850.rs:749-757 | The divider loop finds a power of two that puts the oscillator in range |
| `R850.OneDivider` | crates/tunelith-driver-px4/src/r850.rs:749-757 | No other does |
| `R850.PickXtal` | crates/tunelith-driver-px4/src/r850.rs:739-773 | The crystal is halved or quartered exactly in the cases given |
| `R850.Split` | crates/tunelith-driver-px4/src/r850.rs:802-814 | Integer and fraction are within a 64th of the crystal of the frequency, no 16-bit cast losing anything |
| `R850.Tuner.Pack` | crates/tunelith-driver-px4/src/r850.rs:816-827 | The fields of the registers give the divider, the integer and the sum back |
| `Rt710.Tuner.SetPll` | crates/tunelith-driver-px4/src/rt710.rs:183-285 | For any frequency of 32 bits the registers are set; from 146875 to 2350000 kHz the bit for no fraction is set exactly if the fraction left off the spurs is 0 or it was set before, and if it was not the registers make the oscillator run within a 64th of the crystal and 16 kHz of the frequency times the divider, the fraction counting while that bit is clear; an RT710's tell that divider exactly from 587500 kHz on, an RT720's always |
| `Rt710.FindDivider` | crates/tunelith-driver-px4/src/rt710.rs:192-204 | The first divider that puts the oscillator in range, products wrapping at 32 bits; below 134217728 kHz there is one exactly for 146875 to 2350000 kHz |
| `Rt710.Split` | crates/tunelith-driver-px4/src/rt710.rs:235-249 | Integer and fraction in 8 and 16 bits lose nothing in range, and the fraction is 0 exactly within a 64th of the crystal of a multiple of twice it |
| `Rt710.Tuner.PackNint` | crates/tunelith-driver-px4/src/rt710.rs:251-254 | The register gives the integer back |
| `Rt710.Tuner.PackMix` | crates/tunelith-driver-px4/src/rt710.rs:206-232 | The bits tell the divider exactly if the chip has enough of them, and that for no fraction stays |
| `StreamHub.SoundUnlessGivenUpOn` | crates/tunelith-driver-px4/src/stream.rs:44-60 | A run leaves the hub sound (at most one receiver, running exactly when there is one or one is to start, no sender otherwise) if and only if no `stream` was given up on while it was to start the reception |
| `StreamHub.EveryStreamIsReceived` | crates/tunelith-driver-px4/src/board.rs:252-274 | Otherwise no attach is left without a receiver, and an abort strands no slot |
| `StreamHub.WhoHasASender` | crates/tunelith-driver-px4/src/stream.rs:44-105 | Over every run: a slot has a sender exactly if it was attached and since then neither released, nor failed to start, nor found let go of by a transfer, nor was there a transfer that failed |
| `StreamHub.StrandedForGood` | crates/tunelith-driver-px4/src/stream.rs:48-49 | A hub left running with no receiver never has one again |
| `StreamHub.GivenUpOnOnce` | crates/tunelith-driver-px4/src/board.rs:252-274 | A run that comes to it: a later tuner's stream with no receiver |
| `StreamHub.Hub.Attach` | crates/tunelith-driver-px4/src/stream.rs:44-49 | Takes the slot, and tells whether to start |
| `StreamHub.Hub.Detach` | crates/tunelith-driver-px4/src/stream.rs:51-53 | Lets go of the slot |
| `StreamHub.Hub.Abort` | crates/tunelith-driver-px4/src/stream.rs:56-60 | Lets go of the slot and of the reception to be started |
| `StreamHub.Hub.Receive` | crates/tunelith-driver-px4/src/stream.rs:74-105 | What a transfer does to the senders and to the reception |
| `Px4.CardIsFit` | crates/tunelith-driver-px4/src/px4.rs:328-357 | In every run of opens, failed opens, opens given up on midway, LNB requests and releases: a board counts its open tuners and never below zero, its chips are all initialised while it has any, every board is powered while any tuner of the card is open, and the LNB line is on exactly when some tuner wants it |
| `Px4.CardIsSound` | crates/tunelith-driver-px4/src/px4.rs:328-357 | All along a run every board is powered, and a board's chips initialised, only while tuners are open too, if and only if no open was given up on with a board powered or a chip initialised for no tuner |
| `Px4.GivenUpOnce` | crates/tunelith-driver-px4/src/board.rs:149-168 | A run that comes to it: powered and initialised with no tuner open |
| `Px4.StepKeeps` | crates/tunelith-driver-px4/src/px4.rs:328-357 | Every operation keeps a card fit, whichever chip fails when, and a sound card sound, but for an open given up on that left something, which never does |
| `Px4.OpenIs` | crates/tunelith-driver-px4/src/px4.rs:328-344 | An open counts the tuner if it goes through, and leaves every board as it was otherwise |
| `Px4.CloseIs` | crates/tunelith-driver-px4/src/px4.rs:346-357 | A close counts the tuner out, and rests and powers down what is not used any more |
| `Px4.OpenAllOrNothing` | crates/tunelith-driver-px4/src/board.rs:149-168 | An open goes through exactly if the tuner wakes up and, for the first on its board, no chip fails; a failed one leaves the card as it was |
| `Px4.SetLnbKeeps` | crates/tunelith-driver-px4/src/board.rs:352-362 | The LNB line stays on exactly while a tuner wants it, and a request that goes through is marked |
| `Px4.Board.OpenHalf` | crates/tunelith-driver-px4/src/px4.rs:328-344 | The operation, step by step, is the one specified |
| `Px4.Board.TryOpenHalf` | crates/tunelith-driver-px4/src/px4.rs:252-271 | Opening on one board |
| `Px4.Board.CloseHalf` | crates/tunelith-driver-px4/src/px4.rs:346-357 | Closing, step by step |
| `Px4.Board.Init` | crates/tunelith-driver-px4/src/px4.rs:170-183 | Initialises the chips up to the one that fails |
| `Px4.Board.Term` | crates/tunelith-driver-px4/src/px4.rs:185-194 | Rests all chips of a board |
| `Px4.Board.Power` | crates/tunelith-driver-px4/src/px4.rs:244-250 | Powers every board of the card |
| `Px4.Board.SetLnbFor` | crates/tunelith-driver-px4/src/px4.rs:427-433 | Only satellite tuners have an LNB; the line is written if no other tuner wants it |
| `Px4.Board.HandOutTuner` | crates/tunelith-driver-px4/src/board.rs:149-168 | Hands out a tuner once, and exactly if it opens: it wakes up and, for the first on its board, no chip fails |
| `Px4.Board.ReleaseTuner` | crates/tunelith-driver-px4/src/board.rs:316-324 | Turns off the LNB, closes the tuner and frees its slot |
| `LnbRequests.SupplyIsAsAsked` | crates/tunelith-core/src/bda/mod.rs:717-749 | In every interleaving: once the command last asked for has gone through the supply is as it asked, the supply on is marked, and with the tuner gone it is off |
| `LnbRequests.LastAskedWins` | crates/tunelith-core/src/bda/mod.rs:717-749 | Over any run of requests, commands in any order, ends and calls given up on, the tuner not dropped: with no command cancelled before it ran and none refused, once all have run the supply is as the last request asked |
| `LnbRequests.AsAskedExactlyWhen` | crates/tunelith-core/src/bda/mod.rs:717-749 | Over any run, the tuner not dropped: with no command left, the supply is as last asked if and only if that command was neither cancelled before it ran nor refused, or the supply was that way already when it was asked for |
| `LnbRequests.GoneForGood` | crates/tunelith-core/src/bda/mod.rs:663-670 | After the tuner is dropped the supply is off and no command turns it on |
| `LnbRequests.CancelledInTime` | crates/tunelith-core/src/bda/mod.rs:730-746 | A run where the last command was cancelled before it ran: the supply stays on, marked to be turned off |
| `LnbRequests.Tuner.SetLnb` | crates/tunelith-core/src/bda/mod.rs:717-729 | Marks and numbers the request |
| `LnbRequests.Tuner.Command` | crates/tunelith-core/src/bda/mod.rs:730-741 | Sends the command only if it is the last and the tuner is there |
| `LnbRequests.Tuner.Done` | crates/tunelith-core/src/bda/mod.rs:742-746 | Marks what went through |
| `LnbRequests.Tuner.Release` | crates/tunelith-core/src/bda/mod.rs:663-670 | Turns the supply off if marked, which leaves it off in any case |
| `WasmTuner.HandleIsTheReads` | crates/tunelith-wasm/src/lib.rs:161-179 | In every interleaving the handle kept is that of the one read in flight that was not aborted |
| `WasmTuner.LaterReadKeepsItsHandle` | crates/tunelith-wasm/src/lib.rs:174-177 | An aborted read that resumes leaves a later one its handle |
| `WasmTuner.NoStaleBytes` | crates/tunelith-wasm/src/lib.rs:190-199 | Bytes returned are always of a stream opened since streams were last ended |
| `WasmTuner.EndedForGood` | crates/tunelith-wasm/src/lib.rs:201-206 | Whatever runs after streams are ended, no bytes come of one opened before |
| `WasmTuner.ClosedForGood` | crates/tunelith-wasm/src/lib.rs:181-194 | Once the tuner is closed no stream is opened, whatever runs after |
| `WasmTuner.StepKeeps` | crates/tunelith-wasm/src/lib.rs:161-206 | Every step keeps the cells so |
| `WasmTuner.Tuner.StartReading` | crates/tunelith-wasm/src/lib.rs:161-166 | Starts a read exactly if none is in progress, on the stream kept if there is one |
| `WasmTuner.Tuner.TakeForReading` | crates/tunelith-wasm/src/lib.rs:190-194 | Waits for a stream with the tuner, if that is open |
| `WasmTuner.Tuner.FinishReading` | crates/tunelith-wasm/src/lib.rs:168-173 | Gives the stream and the handle back |
| `WasmTuner.Tuner.SeeAborted` | crates/tunelith-wasm/src/lib.rs:174-177 | Leaves the handle alone |
| `WasmTuner.Tuner.EndStreams` | crates/tunelith-wasm/src/lib.rs:201-206 | Aborts the read in progress and drops the stream kept |
| `It930x.LoadsExactlyBlocks` | crates/tunelith-driver-px4/src/it930x.rs:178-193 | The block loop goes through exactly for a concatenation of blocks of at most 250 bytes |
| `It930x.LoadsExactlyWritten` | crates/tunelith-driver-px4/src/it930x.rs:175-193 | The block loop goes through exactly for blocks written one after the other, 0x03, two bytes, the number of segments, for each two bytes and the length of its data, and then the data, each of at most 250 bytes; and then sends exactly those |
| `It930x.WrittenIsLoaded` | crates/tunelith-driver-px4/src/it930x.rs:175-193 | Any such blocks, written and put together, are sent as they were |
| `It930x.BlockIsWritten` | crates/tunelith-driver-px4/src/it930x.rs:175-187 | Any block the loop sends is one of these written |
| `It930x.LoadSendsBlocks` | crates/tunelith-driver-px4/src/it930x.rs:178-193 | What it sends is blocks and the beginning of the firmware; all of it, or up to where no block starts that can be sent |
| `It930x.JoinedIsLoaded` | crates/tunelith-driver-px4/src/it930x.rs:178-193 | Blocks put together are sent as they were |
| `It930x.LoadFirmware` | crates/tunelith-driver-px4/src/it930x.rs:178-193 | The loop sends exactly the blocks the firmware is written of, goes through exactly if it is, and gives the specified error otherwise |
| `It930x.FrameIsRead` | crates/tunelith-driver-px4/src/it930x.rs:77-84 | A control frame reads back to its command, sequence number and payload, its length byte losing nothing |
| `It930x.FrameBytes` | crates/tunelith-driver-px4/src/it930x.rs:77-84 | The bytes of a frame: how many follow, the command, high byte first, its number, the payload, and what makes up 0xffff with their sum |
| `It930x.ReplyIsTaken` | crates/tunelith-driver-px4/src/it930x.rs:88-103 | A response in its format is taken for its payload exactly with the number of the command and a status of 0 |
| `It930x.TakenIsReply` | crates/tunelith-driver-px4/src/it930x.rs:88-103 | What is taken is such a response, but for its first byte |
| `It930x.ChangedResponse` | crates/tunelith-driver-px4/src/it930x.rs:88-101 | A response with one byte changed is refused exactly if it is not the first, which nothing covers |
| `It930x.ChangeIsSeen` | crates/tunelith-driver-px4/src/it930x.rs:366-371 | A byte changed changes the checksum, for messages of any length |
| `It930x.ComputeChecksum` | crates/tunelith-driver-px4/src/it930x.rs:366-371 | The 16-bit fold gives the checksum |
| `It930x.Bridge.Ctrl` | crates/tunelith-driver-px4/src/it930x.rs:69-104 | Sends a frame that reads back, refuses payloads above 250 bytes, and takes exactly the responses specified |
| `Proto.AllReadBack` | crates/tunelith-core/src/proto.rs:33-65 | For every list of envelopes with bodies up to MAX_FRAME, reading their frames gives it back and then a clean end |
| `Proto.PrefixReads` | crates/tunelith-core/src/proto.rs:44-65 | Of any proper prefix: as many envelopes as are whole, then a clean end exactly if it was cut between two, a truncated frame otherwise |
| `Proto.ReadsBack` | crates/tunelith-core/src/proto.rs:33-65 | A frame is read back exactly if its body is not above MAX_FRAME |
| `Proto.FrameBytes` | crates/tunelith-core/src/proto.rs:33-42 | A frame: the length of the body in four bytes, high one first, and the body |
| `Proto.Reader.Read` | crates/tunelith-core/src/proto.rs:44-65 | Reading step by step gives the same, and leaves what follows the frame |
| `Proto.ParamsRoundTrip` | crates/tunelith-core/src/proto.rs:115-151 | Tuning parameters come back from their message; a message is taken exactly if parameters make it, which is if its numbers have names and its stream id 16 bits |
| `Proto.NormalizedTellsTheSame` | crates/tunelith-core/src/types.rs:80-88 | Equal once normalised exactly if they tune to the same, the polarization counting for ISDB-S and ISDB-S3 only; and normalising is done once |

## Left out

- Sockets, named pipes, systemd, udev, the command line and the example page: plumbing.
- nusb, WinUSB, Kernel Streaming, the DVB ioctls and the BonDriver interface: foreign calls.
- Chip initialisation sequences, C/N conversion, calibration of the R850: constants, floating point, and code every board disables.
- `pxmlt.rs`, `single.rs` and `registry.rs`: simpler cases of what the card and the daemon cover.
- `list` and `signal` of the daemon: they change nothing.
- Access control and the quality of tokens: a new token is taken to be one never used before, as `owned` may keep old ones.
- Protobuf's own encoding: the codec is a parameter with a round trip.
- Timeouts: a wait that ends is a step that may be taken at any time.
- A request of a client reaches the daemon with the move that sends it; messages the other way are received later, one at a time.
- Requests made on a control connection that was lost, and waits for a response to them: a client calls while it is up.
- The time between the purge of a bridge and its first transfer, and transfers dropped by a full channel of the hub.
- The table of frequency parameters of the R850: it only refuses frequencies, before the PLL is set.
- Tunelithd.Daemon: the mutex-held state and the `Arc<Session>` are values under names, so aliasing of a session after it left the state is by number.
- R850.Tuner.SetPll: models the bits the PLL is set by, not the other bits the function writes, nor the writes of the registers to the chip.
- R850.Tuner.SetFrequency: models neither the calibration nor the filter settings, and takes the crystal to be 24 MHz as every board has it.
- Rt710.Tuner.SetPll: takes the crystal to be 24 MHz, and a product above 32 bits to wrap, as it does where overflow is not checked.
- Px4.CardIsFit: a write to the LNB line may fail, and a tuner released then stays marked as wanting the supply; power lines do not fail.
- LnbRequests.SupplyIsAsAsked: turning the supply off as the tuner is dropped is taken to go through.
- It930x.LoadFirmware: every command is taken to go through on the wire.
- WasmTuner.NoStaleBytes: a stream opened after streams were ended and before the tuner is tuned is of the time since.
- TunelithdDaemon.Tunelith.Look: waiting for the subscribers of the session shared is the requirement that they are free, as for every lock a method takes.
- TunelithdDaemon.Tunelith.Leave: the same for the subscribers of the sessions of its streams.
- TunelithdDaemon.Tunelith.Reserve: the pass that waits for a tuner to be closed is the step taken later.
- TunelithdDaemon.Tunelith.Release: in the transition system other tasks may have the state between its two halves, which the source keeps locked; that only adds runs.
- TunelithdDaemon.Tunelith.HandOut: runs a round without another task in between; the steps it takes interleave in the transition system.
