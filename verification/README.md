# terminalX: a verified model

terminalX lets a browser work in terminal sessions that run on a user's
devices. An agent on the device hosts the sessions (a shell or an AI tool in a
PTY), a relay connects agents with browsers, and approvals that a tool asks
for can be answered from the browser. This project models the parts of the
system that are protocols and state machines and proves what they keep, over
all inputs, all runs and all interleavings of their steps.

Check it with `dafny verify dfyconfig.toml`.

## How it is laid out

**The output stream.** `Bytes`, `Frame` (codec and chunking), `Browser` (the
browser's encoder and input), `Ring` (the circular buffer, as a class over an
array), `Session` (batching, as a class), `Batching` (the same with every lock
step on its own), `Pieces` (what a sequence of frames shows on a terminal),
`Delivery` (session, agent queue, relay and any number of terminals as one
machine), `Arrival` (that the output does arrive), `Terminal` (the browser's
end, as classes), `Answers` (one answer and all who wait), `TwoAttaches`.

**The relay.** `Hub` gives every handler as a function on the relay's maps,
with the invariant and its consequences, and `HubEffects` what each handler
does, in terms of what can be observed; `HubServer` has the handlers as methods
with their loops, each equal to its function.

**Approvals.** `Approvals` (the agent's store and its channels) with
`ApprovalStore` (the class), `RelayInbox` (the relay's cache and decisions),
`Verdicts` (both, the wire between them and the blocked hook handlers).

**The rest.** `Heuristic`, `Suspicion` and `HeuristicsPass` (the PTY
heuristic, alone and with the inbox), `Lockout`, `Readers` and `CommandLine`
(printers, the POSIX shell and TOML readers that undo them, and how the tools
read their options), `Decimal` and `Restart` (sessions that outlive the agent),
`Generations` (the processes of one session).

A class method is proved equal to a specification function; the claims about
runs are lemmas about those functions. A machine's `Step` does nothing when
its event is not enabled, so "all runs" means all lists of events.

## Where the code does not do what one would expect

Each of these has a lemma with a concrete run, beside the exact condition.

- `Replay` holds the flush lock but not the session lock, so bytes written
  between its flush and its ring read are in the reply and again in the next
  Output batch (`Batching.ByteSentTwice`). The comments at
  `internal/session/session.go:400-404` and `internal/relay/ws_agent.go:472-477`
  promise exactly-once. `Batching.OverlapIsWhatRaced` says what the overlap is,
  and that there is none if and only if nothing was written in between.
- A snapshot goes to every client whose attach is pending, not to the one that
  asked. With two attaches outstanding a terminal can miss bytes
  (`TwoAttaches.SecondAttachLosesBytes`). `Answers.AnswerReachesPending` says,
  for any number of pending clients, exactly which answers leave a gap or a
  repeat; `Delivery` proves the whole way for one outstanding attach at a time.
- Two decisions on an approval that is not in the relay's cache are both
  forwarded (`RelayInbox.MissForwardsTwice`); `RelayInbox.ForwardedTwiceIff`
  says exactly when more than one is, and with the key cached at most one is
  (`RelayInbox.OnceWhileCached`).
- The text hashed into a prompt's key has nothing between session and line, so
  two sessions can share a key and one closes the other's approval
  (`Suspicion.SharedKeyClosesTheOther`, whatever the hash).
  `Suspicion.PreimagesCollideIff` says exactly which prompts collide,
  `Suspicion.TickIsolatedIff` and `Suspicion.OwnGuessIff` exactly which ticks
  do harm. In every run whose prompts have different keys the sessions are
  independent, and pending if and only if suspected.
- A session can be suspected while it is unknown, and a suspicion can skip the
  debounce, if an output carries the very time of the unknown verdict, and only
  then (`Heuristic.SuspectWhileLostIff`, `Heuristic.DebounceSkippedIff`,
  `Heuristic.ResumedKeepsCandidate`).
- A word with a newline and nothing else to quote is typed unquoted and breaks
  the tool's command line (`CommandLine.NewlineBreaksTheLine`);
  `CommandLine.CommandReadsBack` has the condition. The hook printer is not
  affected.
- If tmux cannot be asked, a starting agent removes the directories of live
  sessions and takes none back, now or later (`Restart.FailedListingLosesSession`,
  `Restart.LiveDirsSurviveIff`);
  and a closed session can come back if only its tmux session was killed
  (`Restart.ClosedForGoodIff`, whose other direction is the run).
- Kill-and-resume during a re-attach can leave two processes running, and
  close during either can leave one (`Generations.KillDuringReattach`,
  `Generations.CloseDuringEither`, from every such state);
  `Generations.StepSingle` is the condition.

## Model

| member | source | states |
|---|---|---|
| `Frames.UnmarshalOfMarshal` | internal/proto/frame.go:84-120 | decoding gives back every frame that fits its header |
| `Frames.MarshalOfUnmarshal` | internal/proto/frame.go:84-120 | whatever decodes is the encoding of what it decodes to, except for the reserved byte |
| `Frames.PeekAgrees` | internal/proto/frame.go:124-136 | the relay's peek accepts a byte string if and only if it is some frame's encoding, up to the reserved byte, and reads the same type and sid as a full decode |
| `Frames.CodecsAgree` | web/src/protocol/frame.ts:47-62 | the browser's decoder and the Go decoder give the same result, or the same error, on every byte string |
| `Frames.Marshal` | internal/proto/frame.go:84-98 | the buffer filled field by field is the frame's encoding, or the payload is too big |
| `Frames.Chunk` | internal/proto/frame.go:142-167 | the chunking loop yields the chunks the lemmas below speak of |
| `Frames.ResizeRoundTrip` | internal/proto/frame.go:170-184 | columns and rows come back from a resize payload |
| `Frames.EOFRoundTrip` | internal/proto/frame.go:186-198 | every 32-bit exit code, negative ones too, comes back; and every four bytes are some code's payload |
| `Frames.ChunksCarryPayload` | internal/proto/frame.go:142-167 | for a payload of any length no chunk is too big to marshal, each has the type and sid asked for, and together they are the payload |
| `Frames.ChunksMarkTheEnd` | internal/proto/frame.go:142-167 | exactly the last chunk lacks the more flag |
| `Frames.ChunksPositions` | internal/proto/frame.go:142-167 | Output offsets are consecutive, other types repeat theirs, only the first chunk can reset |
| `Frames.PipelineRoundTrip` | internal/proto/frame.go:84-167 | chunk, marshal, unmarshal and join is the identity on payloads |
| `BrowserFrames.EncodeFrame` | web/src/protocol/frame.ts:32-45 | the buffer the browser fills with its setters is its encoding of the frame, or the payload is too big |
| `BrowserFrames.EncodersAgree` | web/src/protocol/frame.ts:32-45 | the browser encodes every frame as the Go side does, and the Go decoder reads back every frame that fits its header |
| `BrowserFrames.EOFArrives` | web/src/protocol/frame.ts:80-83 | the browser reads every exit code, negative ones too, as the agent wrote it, and rejects what the Go side rejects |
| `BrowserFrames.ChunkInput` | web/src/protocol/frame.ts:86-93 | the loop yields the input frames the next lemma speaks of, one for no input |
| `BrowserFrames.InputArrives` | web/src/protocol/frame.ts:32-93 | input of any length, chunked and encoded by the browser and decoded by Go, arrives byte for byte |
| `RingBuffer.Ring.constructor` | internal/session/ring.go:17-22 | an empty ring of the given capacity |
| `RingBuffer.Ring.Write` | internal/session/ring.go:26-52 | for data of any length, wrapping or not, the buffer holds the last bytes of everything written and the old seq is returned |
| `RingBuffer.Ring.Tail` | internal/session/ring.go:74-84 | the last min(max, n) bytes of the stream and its end |
| `RingBuffer.Ring.Delta` | internal/session/ring.go:90-98 | succeeds if and only if the offset is still retained, and then is the stream from there on |
| `RingBuffer.Ring.CopyLast` | internal/session/ring.go:101-113 | the last k bytes, across the wrap |
| `Sessions.ContiguousIsStream` | internal/session/session.go:418-431 | contiguous batches are, joined, the piece of the stream between their ends |
| `Sessions.Session.constructor` | internal/session/session.go:190-222 | a fresh session has delivered nothing and holds the captured scrollback |
| `Sessions.Session.Emit` | internal/session/session.go:373-391 | the stream grows by the data, which becomes pending with the timer armed, or is handed over at once with all pending bytes when the batch is full |
| `Sessions.Session.Append` | internal/session/session.go:373-391 | the locked part of it |
| `Sessions.Session.Flush` | internal/session/session.go:418-431 | exactly the pending bytes become one contiguous batch, none if there are none |
| `Sessions.Session.Replay` | internal/session/session.go:405-415 | flushes, then answers the delta if and only if the offset is still in the ring, and otherwise a full snapshot tail: everything the ring holds, up to the tail limit; either ends where the next batch starts |
| `Batching.StepKeeps` | internal/session/session.go:373-431 | delivered, in-flight, pending and just written bytes make up the stream, pending bytes have a flush coming, and every reply is a piece of the stream placed before the batch that follows it |
| `Batching.RunKeeps` | internal/session/session.go:373-431 | the same for every run of the lock steps |
| `Batching.OutputIsTheStream` | internal/session/session.go:373-431 | the batches joined are the stream up to what is delivered; between emits delivered, in-flight and pending add up to the ring's seq; pending bytes have a timer or a flush |
| `Batching.OverlapIsWhatRaced` | internal/session/session.go:405-415 | the batch after any reply starts at or before the reply's end, and what is sent twice is exactly what was emitted between the take and the ring read |
| `Batching.ByteSentTwice` | internal/session/session.go:400-415 | a run in which a byte is sent twice |
| `Batching.AlwaysDrains` | internal/session/session.go:373-431 | from every reachable state the holders finishing and the timer firing delivers everything |
| `Pieces.NoGapShowsAll` | web/src/components/TerminalView.tsx:70-100 | frames without a gap show every byte between the start of the screen and the furthest offset |
| `Pieces.ExactIsStream` | web/src/components/TerminalView.tsx:70-100 | frames without gap or overlap show one piece of the stream, byte for byte |
| `Pieces.ChunkedOutput` | internal/agent/agent.go:340-344 | a batch's chunks are a chain of Output pieces from its seq to its end |
| `Pieces.ChunkedSnapshot` | internal/agent/handle.go:132-160 | a replay's chunks are one snapshot whose last frame carries the end offset |
| `Pieces.SnapshotJoins` | internal/relay/ws_agent.go:496-511 | a snapshot continues a terminal's log without a gap if and only if it resets or starts at or before its reach, and without overlap if and only if it resets or starts at its end |
| `Answers.AnswerArrives` | internal/relay/ws_agent.go:498-511 | in any state, and while others come, go and ask: every pending client gets the frames of an answer and nothing of the Output before it, and is complete after the last |
| `Answers.AnswerReachesPending` | internal/relay/ws_agent.go:498-511 | whoever asked and however many wait: the answer leaves a pending client without a gap if and only if there was none and it resets or starts at or before what the client reached, and without a repeat if and only if it resets or starts at the client's end; after a reset the screen begins a full tail before the end of the stream, otherwise where it did |
| `Delivery.StepKeeps` | internal/relay/ws_agent.go:478-517 | one step of emit, flush, attach, replay, route, apply or detach keeps the invariant of the whole way; terminals close at any time |
| `Delivery.RelayControlKeeps` | internal/relay/ws_client.go:192-233 | the relay takes attaches and detaches in the order sent, also a detach of the client whose answer is on its way |
| `Delivery.ReplayKeeps` | internal/agent/handle.go:132-160 | the agent's answer is queued behind all Output before it |
| `Delivery.RouteOutputKeeps` | internal/relay/ws_agent.go:478-517 | an Output frame reaches the complete clients and moves them on together |
| `Delivery.RouteSnapshotKeeps` | internal/relay/ws_agent.go:496-511 | a snapshot chunk reaches the pending client, which is complete after the last one |
| `Delivery.NoByteMissing` | web/src/components/TerminalView.tsx:70-100 | every mounted terminal has written every byte between where its screen begins and the furthest offset it reached, whatever races |
| `Delivery.OutputInFlight` | internal/session/session.go:418-431 | Output on its way to the relay is the stream between the relay's position and the agent's |
| `Delivery.ExactlyOnce` | internal/relay/ws_agent.go:472-517 | a client whose attaches were quiet shows one piece of the stream with lastSeq at its end; shown, queued and in-flight bytes together end at what the agent delivered |
| `Delivery.QuietMeansUpToDate` | web/src/ws.ts:137-159 | with nothing left to send the screen ends with the stream |
| `Arrival.EverythingArrives` | internal/relay/ws_agent.go:478-517 | whatever careful consoles and races led to: once nothing new begins, letting through what is on its way brings every attached terminal to the end of the stream, without a gap, and without a repeat if its attaches were quiet |
| `Terminals.Terminal.OnData` | web/src/components/TerminalView.tsx:69-87 | a mounted terminal's screen and lastSeq follow the delivery machine, and it acks its offset every 64 KiB of Output |
| `Terminals.Terminal.OnOther` | web/src/components/TerminalView.tsx:88-99 | an EOF leaves a notice with its code, or 0 if it cannot be read, and no bytes of the session; other frames leave nothing |
| `Terminals.RelayClient.Attach` | web/src/ws.ts:137-141 | what the relay was asked for stays exactly what is watched, while connected, and the request is for the last offset applied |
| `Terminals.RelayClient.Detach` | web/src/ws.ts:143-148 | what the relay was asked for stays exactly what is watched, while connected, and the last offset is kept |
| `Terminals.RelayClient.Reconnect` | web/src/ws.ts:36-44 | a new connection asks for each watched session once, from where it stopped, whatever was dropped in between |
| `Terminals.RelayClient.DeviceSeen` | web/src/ws.ts:93-107 | a device that comes back online is asked again for exactly its watched sessions |
| `TwoAttaches.SecondAttachLosesBytes` | internal/relay/ws_agent.go:498-504 | a run with two attaches outstanding in which the answer to one leaves a gap in the other, by that condition |
| `TwoAttaches.LostForGood` | internal/relay/ws_agent.go:498-504 | and the terminal with the gap has a lastSeq beyond it |
| `Hub.StepKeeps` | internal/relay/ws_agent.go:243-395 | each handler keeps sid owners and device sessions, attachments and clients' attached sets, and online flags in agreement |
| `Hub.ConnectKeeps` | internal/relay/ws_agent.go:135-150 | a connection that replaces another keeps it |
| `Hub.DisconnectKeeps` | internal/relay/ws_agent.go:150-173 | also when the replaced connection unregisters late |
| `Hub.HelloKeeps` | internal/relay/ws_agent.go:243-284 | also when a hello brings sids that another device owns, or drops some |
| `Hub.RevokeKeeps` | internal/relay/hub.go:236-257 | revoking a device frees its sids and their attachments |
| `Hub.ClientDisconnectKeeps` | internal/relay/ws_client.go:128-138 | a client that leaves is in no attachment, and no attachment is left empty |
| `Hub.EveryRunKeeps` | internal/relay/hub.go:68-84 | the invariant holds in every reachable state |
| `Hub.OneOwner` | internal/relay/hub.go:68-84 | a sid has an owner if and only if a device has it, namely the owner and no other; everything attached is owned by a device that has it; no attachment map is empty |
| `Hub.AgentFramesIsolated` | internal/relay/ws_agent.go:478-517 | an agent's frame reaches only clients attached to its sid, and only if its device owns the sid; no Output to a pending client, no Snapshot to a complete one |
| `Hub.ClientFramesIsolated` | internal/relay/ws_client.go:270-295 | a client's frame goes only to the current connection of the owner of a sid it is attached to |
| `Hub.MessagesReachTheOwner` | internal/relay/ws_client.go:171-182 | a control message goes to the current connection of the named device or, if none is named, of the device that has the session |
| `Hub.AttachReachesTheOwner` | internal/relay/ws_client.go:192-210 | whatever happens between the lookup and the second lock: an accepted attach was looked up at the device that has the session, whose connection it still is unless it ended |
| `Hub.StaysOnline` | internal/relay/ws_agent.go:150-173 | nothing but a newer connection, its own end or a revocation ends a connection |
| `Hub.SnapshotCompletes` | internal/relay/ws_agent.go:496-511 | a pending client gets every chunk of a replay of any length and is complete after the last one and not before |
| `HubEffects.ConnectDoes` | internal/relay/ws_agent.go:135-150 | the newest connection is current, the device keeps its sessions, and nobody's attachment changes |
| `HubEffects.DisconnectDoes` | internal/relay/ws_agent.go:150-173 | if it was the current connection, every client of the device's sessions waits for a snapshot again and no other does; otherwise nothing happens |
| `HubEffects.HelloDoes` | internal/relay/ws_agent.go:243-284 | on the current connection the device then has exactly the announced sessions that no other device has, each as its last entry says; only clients of sessions it no longer has are detached |
| `HubEffects.UpsertDoes` | internal/relay/ws_agent.go:320-344 | the device has the session, as announced, if no other device has it; otherwise nothing happens |
| `HubEffects.CloseDoes` | internal/relay/ws_agent.go:385-395 | the device loses the session and, if it had it, everyone attached to it is detached; all else stays |
| `HubEffects.RevokeDoes` | internal/relay/hub.go:236-257 | the device goes, its sessions are nobody's and nobody is attached to them; all else stays |
| `HubEffects.ClientsDo` | internal/relay/ws_client.go:97-138 | a client comes with nothing attached and leaves nothing behind, and others stay attached as they were |
| `HubEffects.AttachDoes` | internal/relay/ws_client.go:192-210 | attached and pending if the named device has the session, otherwise nothing |
| `HubEffects.DetachDoes` | internal/relay/ws_client.go:212-233 | detached, and nobody else |
| `HubEffects.FrameDoes` | internal/relay/ws_agent.go:478-517 | a pending client becomes complete exactly on the last chunk of a snapshot from the device that has the session |
| `HubServer.Server.RegisterSid` | internal/relay/hub.go:68-76 | refuses a sid of another device, and otherwise makes the device its owner |
| `HubServer.Server.ForgetSid` | internal/relay/hub.go:78-84 | the loop over clients removes the sid everywhere |
| `HubServer.Server.Connect` | internal/relay/ws_agent.go:135-150 | the state after a connection registers |
| `HubServer.Server.Disconnect` | internal/relay/ws_agent.go:150-173 | the state after it unregisters, if it is still the current one |
| `HubServer.Server.Hello` | internal/relay/ws_agent.go:243-284 | the loops over the new list and the vanished sids lead to the state that `HubEffects.HelloDoes` describes |
| `HubServer.Server.Upsert` | internal/relay/ws_agent.go:320-344 | a session is added if its sid is free or the device's own |
| `HubServer.Server.Close` | internal/relay/ws_agent.go:385-395 | a closed session's sid is forgotten, if the device owns it |
| `HubServer.Server.Revoke` | internal/relay/hub.go:236-257 | the loop over the device's sids |
| `HubServer.Server.ClientDisconnect` | internal/relay/ws_client.go:128-138 | the loop over the client's attached sids |
| `HubServer.Server.Attach` | internal/relay/ws_client.go:192-210 | an attach is pending on both sides, or refused |
| `HubServer.Server.Detach` | internal/relay/ws_client.go:212-233 | a detach clears both sides |
| `HubServer.Server.RouteClientFrame` | internal/relay/ws_client.go:270-295 | the connection a client's frame goes to, if any |
| `HubServer.Server.RouteAgentFrame` | internal/relay/ws_agent.go:478-517 | the loop over attachments sends to exactly the targets and clears the pending flags |
| `Approvals.StepKeeps` | internal/hooks/approvals.go:40-176 | every store operation keeps: an object's channel is empty while it is pending, and was sent exactly one matching value afterwards |
| `Approvals.RunKeeps` | internal/hooks/approvals.go:40-176 | the same for every run |
| `Approvals.SettledIsFinal` | internal/hooks/approvals.go:97-142 | a settled object keeps its approval and what was sent, whatever happens |
| `Approvals.SingleOutcome` | internal/hooks/approvals.go:97-142 | at most one Decide or Close succeeds on an object, and exactly one value, the one that goes with the status, was sent |
| `Approvals.SendNeverDrops` | internal/hooks/approvals.go:112-117 | the non-blocking send always finds room |
| `Approvals.AddIsExact` | internal/hooks/approvals.go:40-55 | a key pending for less than 60 seconds stays as it is, otherwise a new pending object takes its place and nothing else changes |
| `Approvals.DecideIsExact` | internal/hooks/approvals.go:97-119 | only the key's pending object changes: the status is that of the word, with who and when, and its hook handler can read the decision |
| `Approvals.CloseIsExact` | internal/hooks/approvals.go:124-142 | likewise with the given status, and the handler reads that there is no decision |
| `Approvals.SweepIsExact` | internal/hooks/approvals.go:168-176 | a key stays if and only if it is pending or was settled no longer ago than the age |
| `Approvals.CloseSessionIsExact` | internal/hooks/approvals.go:146-154 | closes the pending items of its session and changes nothing else |
| `ApprovalStore.Store.Add` | internal/hooks/approvals.go:40-55 | returns the pending item of the last 60 seconds, or stores a new object in its place |
| `ApprovalStore.Store.Decide` | internal/hooks/approvals.go:97-119 | succeeds if and only if the key is pending |
| `ApprovalStore.Store.Close` | internal/hooks/approvals.go:124-142 | likewise, with an empty decision |
| `ApprovalStore.Store.Wait` | internal/hooks/approvals.go:157-165 | the current object's channel, for hook approvals only |
| `ApprovalStore.Store.PendingForSession` | internal/hooks/approvals.go:83-91 | exactly the keys of the session's current pending objects |
| `ApprovalStore.Store.CloseSession` | internal/hooks/approvals.go:146-154 | the loop of closes amounts to closing them all with the given status, and reports exactly those |
| `ApprovalStore.Store.Sweep` | internal/hooks/approvals.go:168-176 | forgets exactly the keys that were settled too long ago |
| `RelayInbox.SettlesOnce` | internal/relay/hub.go:167-232 | an item settles, by a decision or a close, at most once for each time it was made pending, and no more decisions are forwarded |
| `RelayInbox.OnceWhileCached` | internal/relay/ws_agent.go:397-470 | between two announcements of a cached key: at most one settlement, one exactly if it is no longer pending, at most one forward, none once settled |
| `RelayInbox.MissForwardsTwice` | internal/relay/hub.go:171-182 | two decisions that both miss the cache are both forwarded |
| `RelayInbox.ForwardedTwiceIff` | internal/relay/hub.go:167-232 | more than one decision on a key is forwarded if and only if, after an accepted one, the key is announced or loaded as pending again and then another acceptable one comes |
| `RelayInbox.OnlyHooksAreDecided` | internal/relay/hub.go:188-194 | items of level B and C never become allowed or denied |
| `RelayInbox.DecisionRecorded` | internal/relay/hub.go:167-232 | a forwarded decision leaves the item allowed for allow and denied for deny, with who decided, and goes to the item's own device, which is online; level, device and all other items stay |
| `RelayInbox.RefusalSaysWhy` | internal/relay/hub.go:167-232 | every refusal names what holds of the item it found, cached or loaded, and leaves it as found |
| `RelayInbox.WordStays` | internal/relay/hub.go:205-232 | until the key is announced or loaded again, whatever else happens, the item keeps the status of the forwarded word and who gave it |
| `RelayInbox.OthersRecorded` | internal/relay/ws_agent.go:397-470 | an announcement replaces just its key's item; a close settles just a pending item, with the status it names |
| `RelayInbox.Inbox.OnNew` | internal/relay/ws_agent.go:397-433 | the announced item is cached |
| `RelayInbox.Inbox.OnClosed` | internal/relay/ws_agent.go:435-470 | a pending item is closed, a settled one stays |
| `RelayInbox.Inbox.DecideApproval` | internal/relay/hub.go:167-232 | the method's answer and cache are those of the decision that `RelayInbox.DecisionRecorded` and `RelayInbox.RefusalSaysWhy` describe, and no refusal touches a cached item |
| `Verdicts.StepKeeps` | internal/agent/handle.go:80-93 | every decision is in one place on its way: unsent, on the wire, in a channel or answered |
| `Verdicts.VerdictsHaveCauses` | internal/hooks/server.go:277-313 | each verdict given to a tool has its own earlier successful decision with the same key and word; that decision left the relay's item in the word's status, and the agent's object ends in it, too |
| `Verdicts.NoVerdictFromNowhere` | internal/hooks/server.go:277-313 | in every run no more verdicts of a key and word are given than consoles successfully took |
| `Verdicts.OneVerdictPerAnnouncement` | internal/relay/hub.go:167-232 | and at most one verdict of either word for each time the key was made pending |
| `Verdicts.RequestWaits` | internal/hooks/server.go:250-289 | a permission request leaves its handler waiting for the key's pending item, unless an item of another level is already pending for it |
| `Verdicts.VerdictGetsThrough` | internal/hooks/server.go:277-313 | a decision taken while a handler waits, with nothing else on the wire, is what the handler answers, word for word, once |
| `Verdicts.GivingUpFallsBack` | internal/hooks/server.go:297-312 | a handler that times out, or whose tool gives up, answers nothing and leaves its item to the local dialog |
| `Heuristic.TracesFollow` | internal/session/heuristic.go:76-122 | for all readings at non-zero times the verdicts follow the three-state automaton, and suspect and unknown are never both active |
| `Heuristic.TraceLanguage` | internal/session/heuristic.go:76-122 | the verdict traces of real sessions are exactly the words in which unknown is only followed by resumed; if an output may carry the time of an earlier evaluation, exactly those in which a suspicion may follow it, too |
| `Heuristic.VerdictsExactly` | internal/session/heuristic.go:76-122 | in every invariant state: exactly when each verdict is given, with the limits in minutes and a structured signal counting as life, and what it leaves of suspicion, unknown and candidate times |
| `Heuristic.SuspectWhileLostIff` | internal/session/heuristic.go:92-115 | a real session is suspected while unknown if and only if its last output carries the time of the unknown verdict and the debounce has run |
| `Heuristic.SuspectNeedsTwoPrompts` | internal/session/heuristic.go:103-116 | a suspect verdict has a silent prompt at least 15 seconds before it, with no evaluation in between that reset the candidate |
| `Heuristic.DebounceSkippedIff` | internal/session/heuristic.go:92-115 | a suspicion skips evaluations without a prompt if and only if its candidate was started while unknown and is used when no longer unknown; without ties never |
| `Heuristic.ResumedKeepsCandidate` | internal/session/heuristic.go:92-98 | a real session, with such a tie, suspected at the first evaluation of a silent prompt after it resumed |
| `Heuristic.HeurState.EvaluateNow` | internal/session/heuristic.go:76-122 | the method's verdict and new fields are those of the automaton's evaluation |
| `Suspicion.StepKeeps` | internal/agent/agent.go:346-373 | a pending level C item belongs to a suspecting session that holds its key, after every step and with any keys |
| `Suspicion.OneGuessPerSession` | internal/agent/agent.go:476-522 | in every run a session has at most one pending level C item, and one only while its heuristic suspects it |
| `Suspicion.TickIsolatedIff` | internal/agent/agent.go:476-522 | with any keys: a tick leaves all other sessions' approvals alone if and only if it neither raises a guess over another session's item nor closes another session's pending item |
| `Suspicion.OwnGuessIff` | internal/agent/agent.go:476-500 | with any keys: a suspected session gets a pending guess of its own if and only if its key is not already pending since less than a minute |
| `Suspicion.EndsCloseLocally` | internal/agent/agent.go:346-373 | new output closes the session's own guess and ends the suspicion, closing or ending a session closes its pending approvals, all as closed locally and by whom |
| `Suspicion.TickIsolated` | internal/agent/agent.go:476-522 | in a run in which prompts of different sessions have different keys, a tick leaves other sessions' approvals as they are |
| `Suspicion.SuspectedIffPending` | internal/agent/agent.go:476-522 | in such a run, with nobody else answering, a session has a pending guess if and only if it is suspected |
| `Suspicion.PreimagesCollideIff` | internal/agent/agent.go:524-527 | prompts of two sessions are the same text to hash if and only if one number begins with the other and the shorter one's line with the missing digits and the other line |
| `Suspicion.HashedDistinct` | internal/agent/agent.go:524-527 | so a run of the program has different keys if no two of its prompts run into each other like that and the hash does not collide on them |
| `Suspicion.SharedKeyClosesTheOther` | internal/agent/agent.go:476-527 | for every hash, a run in which one session closes the other's approval |
| `HeuristicsPass.Agent.RunHeuristics` | internal/agent/agent.go:476-522 | the loop over sessions is the run of their ticks |
| `Lockout.WindowBound` | internal/relay/auth.go:162-205 | no half-open window of the lockout's length holds more accepted failures than the limit |
| `Lockout.RefusedExactly` | internal/relay/auth.go:162-205 | after any run a key is refused exactly for that |
| `Lockout.Limiter.IsLocked` | internal/relay/auth.go:162-177 | the answer, and the stale entry dropped |
| `Lockout.Limiter.RecordFailure` | internal/relay/auth.go:180-198 | the entry after a failure, and whether it just locked |
| `CommandLine.SingleQuotedReadsBack` | internal/session/persist.go:184-186 | what is single-quoted is one word to the shell, whatever it is and whatever follows |
| `CommandLine.ArgReadsBack` | internal/session/cmdline.go:99-113 | a quoted argument is read back whole, unless it is unsafe |
| `CommandLine.LineReadsBackIff` | internal/session/cmdline.go:24-69 | a line of quoted words gives back exactly those words if and only if each is newline-safe |
| `CommandLine.ArrayReadsBackIff` | internal/session/cmdline.go:72-96 | a TOML reader gets the strings back if and only if none holds a control character other than tab and newline |
| `CommandLine.TomlStringArray` | internal/session/cmdline.go:72-96 | the nested loops write that array |
| `CommandLine.Command` | internal/session/cmdline.go:24-69 | the words a POSIX shell reads from the line start the tool as the spec says: name, permission mode and settings each after its own flag and only if given, the notify command, which conversation to go on with for each kind of resume, the extra arguments last, and nothing for a plain shell; unless the shell sees more than one command, which safe fields rule out |
| `CommandLine.ToolStarts` | internal/session/cmdline.go:24-69 | the same of the intended words, read back by the tool's own reading of its options, for every spec |
| `CommandLine.CommandReadsBack` | internal/session/cmdline.go:24-69 | the shell gets exactly the intended words from it, under the exact condition |
| `CommandLine.NewlineBreaksTheLine` | internal/session/cmdline.go:99-102 | a session named a, newline, b: the shell gets two commands |
| `CommandLine.NotifyReadsBack` | internal/session/cmdline.go:58-60 | the notify setting always arrives as one word, with the command in it as far as TOML allows |
| `CommandLine.ShJoin` | internal/hooks/claude.go:171-187 | the shell gets back every argv from its line, newlines and empty words too |
| `Decimals.FormatOfParse` | internal/session/persist.go:69-79 | a parsed number formats back to its text if and only if it has no leading zero |
| `Restart.NameReadsBack` | internal/session/persist.go:66-79 | a sid comes back from its tmux name |
| `Restart.SidWritesBack` | internal/session/persist.go:66-79 | a name comes back from its sid if and only if it has no leading zero |
| `Restart.TmuxSessions` | internal/session/persist.go:121-133 | the loop over tmux's lines collects the sids of those that are names; a failed call gives none |
| `Restart.ListingReadsBack` | internal/session/persist.go:121-133 | from the listing of any sessions exactly their sids come back |
| `Restart.StepKeeps` | internal/agent/persist.go:50-138 | opening, closing, exiting, stopping and starting keep names, directories, sessions and history in agreement |
| `Restart.OpenIsExact` | internal/agent/agent.go:248-338 | an opened session runs, in tmux if sessions persist, and is recorded as opened if its meta could be written; others stay |
| `Restart.NoteIsExact` | internal/agent/persist.go:88-101 | the tool's own session id is all that a note changes |
| `Restart.CloseIsExact` | internal/agent/agent.go:356-373 | a closed session is gone from the agent, from tmux if killed and from disk if removed, and only it |
| `Restart.OutsideIsExact` | internal/agent/persist.go:103-138 | a shell that ends takes only its tmux name away, a respawn brings it back only if the agent holds the session, and a stop leaves tmux and disk alone |
| `Restart.AdoptionIsExact` | internal/agent/persist.go:103-191 | after any run a start that can ask tmux takes back exactly the live recorded sessions, as they were opened, and removes exactly the dead directories |
| `Restart.OpenedComesBack` | internal/agent/persist.go:50-191 | opened, noted, stopped and started: the session is back with tool, name and the tool's session id |
| `Restart.LiveDirsSurviveIff` | internal/agent/persist.go:107-127 | a start spares the directories of all live sessions if and only if tmux could be asked, or there are none; otherwise all go and nothing comes back |
| `Restart.FailedListingLosesSession` | internal/session/persist.go:121-125 | a session alive in tmux that no later start takes back, after one start that could not ask tmux |
| `Restart.ClosedForGoodIff` | internal/agent/agent.go:356-373 | a closed session stays away in every later run if and only if its directory was removed or held no meta |
| `Restart.KilledStaysAway` | internal/session/session.go:866-899 | one killed in tmux stays away as long as no re-attach or kill-and-resume brings its name back |
| `Restart.Agent.AdoptSessions` | internal/agent/persist.go:103-138 | the loop over directory entries, in any order and with foreign ones among them, is that adoption, also when tmux could not be asked |
| `Generations.ExitsOnce` | internal/session/session.go:433-497 | each generation reports its exit at most once, never if the check found a kill or a close, and the stream carries on |
| `Generations.EveryExitReported` | internal/session/session.go:466-539 | in every run an ended generation that nothing superseded has reported its exit, once, unless a re-attach replaced it |
| `Generations.CheckSees` | internal/session/session.go:433-464 | an exit counts as superseded exactly if the process is not current, or a kill or a close came first |
| `Generations.ExitIsReported` | internal/session/session.go:466-497 | the exit of the current process, with no kill or close and no tmux left, leaves it reported once and the session not alive |
| `Generations.OthersAreNot` | internal/session/session.go:466-497 | a superseded exit or a lost client whose tmux lives is not reported, and the latter goes on to re-attach |
| `Generations.ReattachOrReport` | internal/session/session.go:501-539 | a re-attach puts one new current generation in the place of the old, or reports the exit once |
| `Generations.ResumeOrFail` | internal/session/session.go:835-863 | a kill ends with one new current generation after the banner, or with none |
| `Generations.HeirsWereTried` | internal/session/session.go:501-539 | each replacement has its own counted attempt |
| `Generations.AtMostThreeInARow` | internal/session/session.go:501-539 | of clients in a row that die young only the first three are replaced |
| `Generations.CountDecides` | internal/session/session.go:501-509 | in every run a re-attach is given up exactly if this client and the three before it died young |
| `Generations.KillWaits` | internal/session/session.go:790-880 | a kill that finds a live process can only respawn after its end; a close ends the session's life and changes nothing else |
| `Generations.StepSingle` | internal/session/session.go:790-905 | a step keeps one generation at a time if and only if it begins no kill during a re-attach and no close during either; a closed session starts none |
| `Generations.OneAtATime` | internal/session/session.go:433-539 | in orderly runs at most one generation runs, the current one |
| `Generations.ClosedStaysClosed` | internal/session/session.go:866-939 | after close no orderly run starts another |
| `Generations.KillDuringReattach` | internal/session/session.go:501-539 | from any state in which a kill begins during a re-attach, a run to two processes side by side |
| `Generations.CloseDuringEither` | internal/session/session.go:866-899 | from any state in which a close comes during a re-attach or a kill, a run in which the closed session runs again |
| `Generations.Lifecycle.CheckExit` | internal/session/session.go:433-464 | an exit is superseded if the process is not current, or a kill or close came first |
| `Generations.Lifecycle.FinishExit` | internal/session/session.go:466-497 | a lost tmux client goes to re-attach, a superseded exit is silent, any other is reported and ends the session (`Generations.ExitIsReported`, `Generations.OthersAreNot`) |
| `Generations.Lifecycle.CountClient` | internal/session/session.go:501-509 | the count of young deaths, and when to give up |
| `Generations.Lifecycle.AttachAgain` | internal/session/session.go:511-539 | another client becomes current, or the failure is reported |
| `Generations.Lifecycle.BeginKill` | internal/session/session.go:790-803 | refused when closed or under way |
| `Generations.Lifecycle.Respawn` | internal/session/session.go:835-863 | the next generation, or none |
| `Generations.Lifecycle.CloseNow` | internal/session/session.go:866-880 | closed, once |

## Left out

- Transport: WebSocket, HTTP, PTY, tmux and process calls are steps of the machines, FIFO queues and sets of live names.
- Time is an integer clock; waits and timeouts are steps that may come at any moment.
- Stream offsets are unbounded; 64-bit wrap and the browser's number precision for lastSeq are not modelled.
- `Delivery.ExactlyOnce`: asks for `Replay` without a racing emit, one outstanding attach of the session, and attaches with nothing queued for the client, because without them the code does send bytes twice or lose them; `Delivery.NoByteMissing` needs only the second. Both ask that a terminal is mounted again only when the relay has taken its detach and nothing is in flight to it, and that no attach is repeated in the middle of a snapshot; terminals may close at any time.
- `Delivery.StepKeeps`: EOF frames, acks, input and a lost agent connection are not among its steps; taking from the queue and a full queue that closes the connection are one step, so a live connection carries a prefix of what was sent.
- `Terminals.RelayClient.Detach`: a session watched on a device without a name is not detached at the relay, so such sessions are outside the agreement; `forget`, after the relay itself has forgotten a session, is left out.
- `Delivery.ExactlyOnce`: is about one agent process; offsets after a restart are seeded from captured scrollback and start anew.
- Pending approval objects are places in a list instead of references, so that a handler's hold on a replaced object can be stated; `CloseSession` visits its items in any order and as one step in the run lemmas, although the code takes the lock for each.
- `RelayInbox.OnlyHooksAreDecided`: assumes that announced and stored items of level B and C are not already allowed or denied, since an agent or the database could say anything.
- Audit rows, broadcasts, webhook retry and the database copy of approvals; reading the row on a cache miss is an input.
- Hashes, random ids, tokens and JSON; that sids are fresh is a condition of `Restart`'s open step.
- Regular expressions and escape sequences: whether the last line is a prompt is an input of each evaluation, the same for the same line.
- `Suspicion.StepKeeps`: the evaluation of one session and what the agent does with its verdict are one step, and closing a session is one step.
- `CommandLine.CommandReadsBack`: is about POSIX shells; PowerShell and cmd quoting are printed as the code does, but no reader of theirs is modelled. The shell reader does not perform expansions, patterns or comments and says so in its result.
- `CommandLine.Command`: claude and codex are taken to read an option's value from the next word, whatever it looks like; what a PowerShell or cmd line starts is not stated, since no reader of theirs is modelled.
- `CommandLine.ArrayReadsBackIff`: the TOML reader has no unicode escapes and no comments, which the printer never writes.
- Text is a sequence of Unicode characters; fields that are not valid UTF-8 are left out.
- `Restart.AdoptionIsExact`: which adoptions fail is an input of the start step; an unreadable sessions directory, which leaves everything alone, is left out; noting a tool's session id reads and writes the meta in one step; of the descriptor only sid, tool, name and the tool's own session id are kept.
- `Generations.ExitsOnce`: spawning a process and making it current are one step; exit codes and resume hints are left out.
- Login sessions, presets, the console, installation and static files.
