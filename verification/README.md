# Run, protocol and reader model

This project models the parts of the workspace whose correctness rests on invariants over whole runs:

- the public artifact reader: one entry's critical sections under its data lock, the transport's carriers, and the
  registry's admission, shutdown and cleanup races (`ReaderSpec`, `ReaderLaws`, `ReaderProgress`, `ReaderEntry`,
  `ReaderRegistry`, `RegistryObject`);
- the AG-UI decoder with its event grammar and its chunk shorthand, JSON pointers and JSON patches, the encoder's
  pairing of tool calls and answers, and the remote session on top (`AguiEvents`, `AguiSpec`, `AguiLaws`,
  `AguiShorthand`, `AguiWire`, `AguiExpress`, `AguiAccepts`, `AguiDecoder`, `Pointer`, `Patch`, `AguiEncoder`,
  `RemoteSpec`, `RemoteSession`, `RemoteLaws`, `RemoteMeaning`, `RemoteVerdict`, `RemoteSpeech`);
- the agent run: the reducer, the durable writer, the bindings of the first sampling, tool waves and the tool budget,
  and the run loop against an arbitrary environment (`AgentReducer`, `DurableRun`, `RunBinding`, `Scheduling`,
  `ToolBudget`, `RunCourse` for what happens to a run and what its journal is owed, `AgentRun`, and `RunWitness` with
  runs that show its exceptions);
- the semantic chunk accumulator and the retry arithmetic (`Chunk`, `Retry`).

Code that updates objects in place is a class here, and its methods are proved against specification functions
(`AguiSpec`, `RemoteSpec`, `ReaderSpec`, `Chunk`, `RunBinding`); the laws are lemmas about those functions over every
input, run or interleaving. Races are sequences of critical sections in any order. `AgentRun` has no script: each
answer of the outside world is an arbitrary choice. Ghost state records what the world has said and what has happened,
so that a contract can say what a run does with each answer, and why it ends. A process that stops for reasons of its
own is a run whose loops have been woken as often as they may.

Strings are sequences of scalars; where byte counts matter they are computed from the scalars (`Json.Bytes`) or text
is a sequence of bytes (`Chunk`). JSON numbers are an abstract type with equality. The JSON library (parsing,
serialized length, writing) is a parameter.

## What the code does that its documentation does not say

- Retry: a jittered delay can be one nanosecond below its base, for base delays of 2^64-1 seconds and a fraction
  (`Retry.DelayBelow` gives the exact condition).
- Reader: the sequence runs one ahead of the successful acknowledgements exactly after a late refusal by the second
  tail check (`ReaderLaws.SequenceCounts`; `ReaderLaws.LateRefusal` is a run); the reader is stopped then.
- Patch: adding and removing at `-` does not restore the document (`Patch.AddThenRemove` gives the exact condition).
- Remote session: from the 2^32-th completed call on all tool-call indices are equal (`RemoteLaws.IndicesGrow`).
- Shorthand: a chunk may reopen an id that is open or used, or one longer than an explicit id may be; exactly then
  its explicit form is refused (`AguiShorthand.ShorthandMeaning`), and but for the reserved id of the thinking events
  no explicit stream at all has its meaning (`AguiExpress.ShorthandExpressible`).
- Remote session: such a chunk can reopen an assistant's message as a user's, and the session then delivers the user's
  text as the assistant's (`RemoteSpeech.UserSpeaks`; `RemoteSpeech.SpeechLaw` gives the exact condition).
- Run loop: when a batch of calls exceeds the step cap the reducer asks for the terminal `tool_step_limit`, but the
  host expects an invocation and returns, so no run ever commits that terminal. A malformed batch, an unavailable
  tool while a human decision waits for its budget, and reasoning without text end a run without a terminal too; these
  are all such cases (`AgentRun.AbandonedExactly`, `AgentRun.Run.Execute`, and a run for each in `RunWitness`).
- Run loop: when one call is unavailable the run ends as failed even though that call, and later ones of its wave that
  may have replied, are not journalled. This is the one ending with calls unanswered that is not reconciliation
  (`AgentRun.UnansweredEnds`; `RunWitness.UnavailableSerial`, `RunWitness.UnavailableParallel`).

## Model

| member | source | states |
|---|---|---|
| `ReaderLaws.HandedInOrder` | crates/openbot-application/src/artifact_read_protocol.rs:395-588 | After every interleaving of opening, next, delivery, handoff, acknowledgement, close, stop, cancellation and cleanup, the i-th frame handed to the transport is block i of the producer, at sequence i. |
| `ReaderLaws.OneOwner` | crates/openbot-application/src/artifact_read_protocol.rs:395-488 | Before handoff a block has at most one owner among the opening attempt, the prepared first block, the attempt in flight, `pending` and the selected delivery; it is the next block in order, and unless the reader was stopped every block produced is handed off or owned. |
| `ReaderLaws.OneOutstanding` | crates/openbot-application/src/artifact_read_protocol.rs:991-1055 | Every handed-off frame but the last is fully disposed of, and the last one is outstanding only at the current sequence. |
| `ReaderLaws.AcknowledgedMeansDisposed` | crates/openbot-application/src/artifact_read_protocol.rs:489-588 | A fresh acknowledgement succeeds only with no registry hold, no carrier, the lease freed and the release flag set; it moves the sequence from k to k+1 and records k with its window. |
| `ReaderLaws.SequenceCounts` | crates/openbot-application/src/artifact_read_protocol.rs:489-588 | For every interleaving the sequence equals the number of successful fresh acknowledgements, or is one more, and that exactly if some step was a late refusal: the frame released, the first look at the tail passed, the second refused, below the 32-bit limit. |
| `ReaderLaws.LateRefusal` | crates/openbot-application/src/artifact_read_protocol.rs:562-588 | A concrete run that opens, reads, hands off and releases one block ends, after a late refusal, at sequence 1 with nothing acknowledged, stopped. |
| `ReaderLaws.AheadIsStopped` | crates/openbot-application/src/artifact_read_protocol.rs:562-588 | A reader that has seen a late refusal is stopped. |
| `ReaderLaws.StepCounts` | crates/openbot-application/src/artifact_read_protocol.rs:489-588 | Every critical section but a late refusal moves the sequence and the count of acknowledgements together. |
| `ReaderLaws.RepeatChangesNothing` | crates/openbot-application/src/artifact_read_protocol.rs:502-532 | Repeating the last acknowledgement changes neither sequence, phase, frames nor the recorded window; it succeeds exactly when the lock is free, no control is waiting, the reader is not stopped, the original window is open and the tail is current. |
| `ReaderLaws.ReleasePendingIsFinal` | crates/openbot-application/src/artifact_read_protocol.rs:541-588 | A reader seen unlocked while its release is pending has been stopped. |
| `ReaderLaws.RunKept` | crates/openbot-application/src/artifact_read_protocol.rs:312-655 | The invariant of accounts, frames, phases, deliveries, lock holder and acknowledgements holds after every sequence of critical sections. |
| `ReaderLaws.AbandonKept` | crates/openbot-application/src/artifact_read_protocol.rs:913-931 | Dropping an accepted attempt at any await keeps the invariant: the reader is stopped before the lock is free. |
| `ReaderLaws.CloseOwnedKept` | crates/openbot-application/src/artifact_read_protocol.rs:222-232 | Giving up everything owned keeps the invariant, the registry hold on the shared frame included. |
| `ReaderLaws.NextRefreshedKept` | crates/openbot-application/src/artifact_read_protocol.rs:415-448 | A refused, a real and an empty block each keep the invariant; an empty one is neither lost nor handed off. |
| `ReaderLaws.HandoffKept` | crates/openbot-application/src/artifact_read_protocol.rs:991-1045 | A handoff, failed or not, keeps the invariant: the block becomes exactly one shared frame or is dropped with a stop. |
| `ReaderLaws.DisposeKept` | crates/openbot-application/src/artifact_read_protocol.rs:956-971 | Freeing the lease and then setting the release flag keeps the invariant. |
| `ReaderLaws.AckReleasedKept` | crates/openbot-application/src/artifact_read_protocol.rs:562-588 | Completing an acknowledgement, refused early, refused late or granted, keeps the invariant. |
| `ReaderLaws.CleanupKept` | crates/openbot-application/src/artifact_read_protocol.rs:790-860 | A cleanup pass keeps the invariant, with or without a retained end of file or close reply. |
| `ReaderEntry.Entry.OpenCommits` | crates/openbot-application/src/artifact_read_protocol.rs:384-393 | In a run in order: it succeeds exactly on a prepared, undisturbed reader, which then is not stopped and holds exactly block 0, with its control to be taken; a refusal leaves it stopped. |
| `ReaderEntry.Entry.NextStarts` | crates/openbot-application/src/artifact_read_protocol.rs:395-420 | An attempt starts exactly if nobody holds the lock, no control waits, the reader is not stopped and the caller attached, its block prepared, and this is its sequence; it is for the next block, moves no block out of the account, and otherwise nothing has changed. |
| `ReaderEntry.Entry.NextRefreshed` | crates/openbot-application/src/artifact_read_protocol.rs:421-454 | A block is described exactly if the attempt holds one and the refresh gives bytes, and then it is the next one, at its own sequence; an empty read waits for the end of file, and a refusal leaves a stopped reader that holds nothing. |
| `ReaderEntry.Entry.NextDrained` | crates/openbot-application/src/artifact_read_protocol.rs:438-454 | An end of file is announced at the sequence after the last handed-off block, on a stopped reader that holds nothing. |
| `ReaderEntry.Entry.TakeDelivery` | crates/openbot-application/src/artifact_read_protocol.rs:456-488 | A delivery is given exactly for the described block, or the end of file, at this sequence; it carries the next block and is its only holder, or it is the end of file of a stopped reader; otherwise nothing has changed. |
| `ReaderEntry.Entry.DropDelivery` | crates/openbot-application/src/artifact_read_protocol.rs:1047-1056 | An abandoned delivery is gone, the reader is stopped, and no frame was added. |
| `ReaderEntry.Entry.Handoff` | crates/openbot-application/src/artifact_read_protocol.rs:991-1045 | It succeeds exactly for a selected delivery that matches on a current tail, and for an end of file; the transport then gets exactly the next block, at the current sequence, with one registry hold and one carrier; in any case the delivery is used up, and a refusal stops the reader. |
| `ReaderEntry.Entry.AckStarts` | crates/openbot-application/src/artifact_read_protocol.rs:489-548 | A repeat changes neither data, frames nor history and renews the window of the first acknowledgement; a fresh attempt starts exactly for the one outstanding frame, on an undisturbed reader within the window. |
| `ReaderEntry.Entry.AckObserved` | crates/openbot-application/src/artifact_read_protocol.rs:548-561 | Before it waits, the registry has given up its hold on every frame, and no carrier has been touched. |
| `ReaderEntry.Entry.AckReleased` | crates/openbot-application/src/artifact_read_protocol.rs:562-588 | It succeeds exactly if the frame is released and the tail current on both looks; then nobody refers to the frame any more, and the sequence and the count of acknowledgements both become one more than its own; a refusal stops the reader and counts nothing. |
| `ReaderEntry.Entry.CloseObserved` | crates/openbot-application/src/artifact_read_protocol.rs:605-616 | Once the close waits, the reader is stopped and holds nothing but a delivery already selected, and no frame. |
| `ReaderEntry.Entry.CloseDrained` | crates/openbot-application/src/artifact_read_protocol.rs:616-627 | Success means closed, stopped, cleaned up from now on, holding nothing but a selected delivery, with its reply to be taken. |
| `ReaderEntry.Entry.Cleanup` | crates/openbot-application/src/artifact_read_protocol.rs:790-818 | After a pass on an unlocked entry only an opening attempt or a selected delivery still holds a block, no frame is held, an end of file is kept exactly until it expires, and no control is kept but an unexpired close reply. |
| `ReaderEntry.Entry.Do` | crates/openbot-application/src/artifact_read_protocol.rs:395-627 | Each critical section of the object is the specified one and keeps the reader in order. |
| `ReaderEntry.Live` | crates/openbot-application/src/artifact_read_protocol.rs:261-627 | An object that lives through any list of critical sections is exactly where the specified run is, and in order. |
| `ReaderProgress.UndisturbedGoesOn` | crates/openbot-application/src/artifact_read_protocol.rs:384-588 | For every n up to the 32-bit limit: a reader that nothing disturbs reads, hands off and acknowledges blocks 0 to n-1 in order, each frame is disposed of, and it is ready for block n. |
| `ReaderProgress.OneMoreBlock` | crates/openbot-application/src/artifact_read_protocol.rs:395-588 | However it got there, a reader that is ready for block n can be taken to the next one. |
| `ReaderProgress.StopsExactly` | crates/openbot-application/src/artifact_read_protocol.rs:312-655 | In every interleaving a running reader is stopped exactly by the steps that may stop one: a failed preparation or opening, a failed, stale or empty answer, a dropped delivery or refused handoff, a refused acknowledgement, a close, a stop, or a cancelled attempt. |
| `ReaderProgress.NextStartsExactly` | crates/openbot-application/src/artifact_read_protocol.rs:395-420 | An attempt for the next block starts exactly on an undisturbed, attached, ready reader at this sequence; only the first one finds its block already there. |
| `ReaderProgress.NextProducedExactly` | crates/openbot-application/src/artifact_read_protocol.rs:415-419 | The producer's block is taken exactly if the attempt waits for it. |
| `ReaderProgress.NextRefreshedExactly` | crates/openbot-application/src/artifact_read_protocol.rs:421-454 | A block is described exactly if the attempt holds it and it has bytes. |
| `ReaderProgress.TakeDeliveryExactly` | crates/openbot-application/src/artifact_read_protocol.rs:456-488 | A delivery is given exactly at the sequence of what is described. |
| `ReaderProgress.HandoffExactly` | crates/openbot-application/src/artifact_read_protocol.rs:991-1045 | A delivery is handed off exactly if it is a matching one on a current tail. |
| `ReaderProgress.AckStartsExactly` | crates/openbot-application/src/artifact_read_protocol.rs:489-548 | A fresh acknowledgement starts exactly for the outstanding frame of an undisturbed reader, within its window. |
| `ReaderProgress.AckReleasedExactly` | crates/openbot-application/src/artifact_read_protocol.rs:562-588 | It is granted exactly if its frame is released and the tail current on both looks. |
| `ReaderProgress.CloseExactly` | crates/openbot-application/src/artifact_read_protocol.rs:589-627 | A close starts, and is served, exactly on its guards. |
| `ReaderRegistry.ShutdownStopsAll` | crates/openbot-application/src/artifact_read_protocol.rs:657-694 | When a shutdown has worked off its list, every reader ever admitted has been stopped, whatever raced with it. |
| `ReaderRegistry.NobodyAfterTheFlag` | crates/openbot-application/src/artifact_read_protocol.rs:276-283 | From the shutdown flag on no reader is admitted, in any continuation. |
| `ReaderRegistry.NoCompletionIsMissed` | crates/openbot-application/src/artifact_read_protocol.rs:764-776 | An enrolled producer and a stop never miss each other: with no stop under way the producer of a stopped reader is closed. |
| `ReaderRegistry.RemovedMeansDrained` | crates/openbot-application/src/artifact_read_protocol.rs:819-853 | A reader leaves the map only stopped, with its preparation ended and its producer drained or not enrolled by then; one that enrolls later is closed. |
| `ReaderRegistry.StoppedLeaves` | crates/openbot-application/src/artifact_read_protocol.rs:764-860 | However far its cleanup has come in any interleaving, a stopped reader leaves the map once its stop is told, its preparation has ended and its producer drains; no other reader leaves with it. |
| `ReaderRegistry.PlaceIsFree` | crates/openbot-application/src/artifact_read_protocol.rs:277-311 | And then its owner may open another reader, caps included, unless a shutdown has begun. |
| `ReaderRegistry.CapsHold` | crates/openbot-application/src/artifact_read_protocol.rs:281-287 | At most 64 readers, and 8 for one owner, are in the map, and every reader still closing is in it. |
| `ReaderRegistry.AdmitKept` | crates/openbot-application/src/artifact_read_protocol.rs:277-311 | Admission checks the flag and both caps in the critical section that inserts, so the caps are kept. |
| `ReaderRegistry.ListKept` | crates/openbot-application/src/artifact_read_protocol.rs:680-694 | The snapshot taken after the flag holds every reader that is not stopped yet. |
| `RegistryObject.RegistryInner.AdmitReader` | crates/openbot-application/src/artifact_read_protocol.rs:261-311 | Admits exactly when not stopped, below both caps and with a new id. |
| `RegistryObject.RegistryInner.SignalStop` | crates/openbot-application/src/artifact_read_protocol.rs:764-789 | Sets the flag, closes an enrolled completion, and starts the one cleanup. |
| `RegistryObject.RegistryInner.Enrolled` | crates/openbot-application/src/artifact_read_protocol.rs:878-900 | Accepts a first completion on a reader that is not stopped; on a stopped one it is kept and closed. |
| `RegistryObject.RegistryInner.CloseAll` | crates/openbot-application/src/artifact_read_protocol.rs:657-694 | Undisturbed, every entry is stopped, every enrolled producer closed, and no entry dropped. |
| `AguiLaws.FeedKept` | crates/openbot-agent/src/agui.rs:339-599 | Every accepted input emits a trace in which each event was justified by those before it; `state()`, `activity()`, `messages()` and all open sets are the fold of that trace; at most one of the three shorthand ids is set, and it names an open stream. |
| `AguiLaws.TraceForm` | crates/openbot-agent/src/agui.rs:356-400 | An accepted trace starts with RunStarted and only there; a terminal event is last and there is at most one. |
| `AguiLaws.FinishExactly` | crates/openbot-agent/src/agui.rs:602-610 | `finish` succeeds exactly when started and terminal, and then emits nothing and changes nothing. |
| `AguiLaws.CleanEnd` | crates/openbot-agent/src/agui.rs:646-657 | When a run finishes or is interrupted, no text, step, reasoning or tool id has a start as its last bracket event. |
| `AguiLaws.CompletionCarriesArguments` | crates/openbot-agent/src/agui.rs:809-830 | A ToolCompleted carries the parse, an object, of the concatenated argument deltas since the last start of its id, within the byte cap. |
| `AguiLaws.ArgumentsCapped` | crates/openbot-agent/src/agui.rs:780-798 | The accumulated arguments of a call never exceed the byte cap. |
| `AguiLaws.JustifiedPrefix` | crates/openbot-agent/src/agui.rs:339-599 | Every prefix of a justified trace is justified, and its next event is justified by it. |
| `AguiLaws.IngestKept` | crates/openbot-agent/src/agui.rs:339-599 | One accepted object extends the trace by justified events and keeps the shorthand invariant. |
| `AguiLaws.CloseBeforeGood` | crates/openbot-agent/src/agui.rs:932-948 | Ending the shorthand owed emits justified ends and leaves only the own family open. |
| `AguiEvents.OpenMeansLastIsStart` | crates/openbot-agent/src/agui.rs:659-668 | An id is open exactly when its last bracket event is a start with no RunError after it, for text, steps, both kinds of reasoning, and tools. |
| `AguiEvents.ToolMeansArguments` | crates/openbot-agent/src/agui.rs:780-798 | The text of a known call is the concatenation of its argument deltas since its last start. |
| `AguiEvents.AbsorbBracket` | crates/openbot-agent/src/agui.rs:659-668 | One event opens and closes exactly the bracket it names; a RunError closes all. |
| `AguiShorthand.ShorthandMeaning` | crates/openbot-agent/src/agui.rs:717-748 | An accepted stream rewritten to explicit START, CONTENT or ARGS, and END events is accepted exactly when each chunk that opens a stream has an id an explicit start would take (within the id bound and not in use); then both emit the very same events. |
| `AguiShorthand.ShorthandOnTheWire` | crates/openbot-agent/src/agui.rs:339-364 | The same for any texts that spell the explicit form: accepted exactly then, with equal output and equal projections. |
| `AguiShorthand.TextChunkMirror` | crates/openbot-agent/src/agui.rs:717-748 | A text chunk, opening or continuing, does what its explicit events do, or they are refused. |
| `AguiShorthand.ToolChunkMirror` | crates/openbot-agent/src/agui.rs:832-879 | The same for a tool chunk. |
| `AguiShorthand.ReasoningChunkMirror` | crates/openbot-agent/src/agui.rs:904-930 | The same for a reasoning chunk. |
| `AguiShorthand.EndingsMirror` | crates/openbot-agent/src/agui.rs:932-986 | The ends the shorthand owes before another event are those the explicit form sends. |
| `AguiShorthand.ObjectMirror` | crates/openbot-agent/src/agui.rs:339-599 | One object of an accepted stream and its explicit form end in the same state with the same output. |
| `AguiAccepts.ChunkAccepted` | crates/openbot-agent/src/agui.rs:717-986 | A chunk is accepted exactly in a started run, if the ends it owes to other families can be sent, its fields are well formed, and it names a stream or one of its family is open; one that opens a stream needs the fields of a start, and the fragment of a tool chunk stays within the cap on arguments. For all three families. |
| `AguiAccepts.TextAccepts` | crates/openbot-agent/src/agui.rs:717-748 | The same for the text family alone: with no message open a new one needs an id and a role, with one open the id may be left out. |
| `AguiAccepts.ToolAccepts` | crates/openbot-agent/src/agui.rs:832-879 | The same for the tool family: with a call open a chunk without an id goes to it, another id ends it first, and it ends only if its arguments parse to an object. |
| `AguiAccepts.ReasoningAccepts` | crates/openbot-agent/src/agui.rs:904-930 | The same for the reasoning family. |
| `AguiAccepts.ObjectExplained` | crates/openbot-agent/src/agui.rs:339-599 | The converse of the shorthand law for one object: it is accepted, with an id an explicit start would take, exactly if its own fields are well formed and its explicit form is accepted; then both emit the same events. |
| `AguiAccepts.NextExplained` | crates/openbot-agent/src/agui.rs:339-599 | The same after any accepted stream whose chunks are explicit: one more object is accepted exactly if it is well formed and the explicit form of the whole is accepted, with the same output. |
| `AguiWire.ExplicitTraces` | crates/openbot-agent/src/agui.rs:339-599 | The traces that accepted explicit objects can mean are exactly the admissible ones: each event justified by those before it, within its field bounds, starts with unused ids. |
| `AguiWire.SpellingMeansTrace` | crates/openbot-agent/src/agui.rs:339-599 | Decoding the spelling of an admissible trace gives back that very trace and the view it determines. |
| `AguiWire.PlainSays` | crates/openbot-agent/src/agui.rs:339-599 | An accepted explicit object means one admissible event; the spelling of that event means the same in the same state. |
| `AguiWire.WireSays` | crates/openbot-agent/src/agui.rs:339-599 | Every admissible event of every kind, interrupts included, is exactly what its spelling is decoded to, field by field. |
| `AguiWire.InterruptsRead` | crates/openbot-agent/src/agui.rs:1282-1311 | Interrupts within their bounds are read back as they are from their spelling, optional fields included. |
| `AguiWire.ReadFits` | crates/openbot-agent/src/agui.rs:1282-1311 | Whatever interrupts are read are within their bounds, one for each value. |
| `AguiDecoder.ValidateInterrupts` | crates/openbot-agent/src/agui.rs:1282-1311 | The loop reads all interrupts in order, or stops with the first error; between 1 and 256 of them. |
| `AguiDecoder.ValidateMessages` | crates/openbot-agent/src/agui.rs:1313-1380 | The loop gives the list back unchanged if every message passes and it is within its bounds, or the first error. |
| `AguiExpress.ShorthandExpressible` | crates/openbot-agent/src/agui.rs:717-748 | For every accepted stream with shorthand: some explicit stream has the same meaning exactly if each chunk that opens a stream takes an id an explicit start could take. |
| `AguiExpress.StreamAgrees` | crates/openbot-agent/src/agui.rs:717-986 | What such a stream emits is admissible exactly under that condition on its chunks. |
| `AguiExpress.ObjectAgrees` | crates/openbot-agent/src/agui.rs:339-599 | One accepted object: what it emits, ends owed included, is admissible exactly if its id could be taken. |
| `AguiExpress.TextAgrees` | crates/openbot-agent/src/agui.rs:717-748 | The same for a text chunk. |
| `AguiExpress.ToolAgrees` | crates/openbot-agent/src/agui.rs:832-879 | The same for a tool chunk. |
| `AguiExpress.ReasoningAgrees` | crates/openbot-agent/src/agui.rs:904-930 | The same for a reasoning chunk, where the id of the thinking events is allowed too. |
| `AguiDecoder.AguiDecoder.New` | crates/openbot-agent/src/agui.rs:311-336 | Constructs exactly for bounded ids and a bounded state, in its initial state. |
| `AguiDecoder.AguiDecoder.Ingest` | crates/openbot-agent/src/agui.rs:339-599 | Emits what the specification of one `data:` value says and moves to its state, or fails with its error, leaving the phase and all projections alone; `AguiWire.ExplicitTraces` and `AguiAccepts.ChunkAccepted` say what is accepted. |
| `AguiDecoder.AguiDecoder.Finish` | crates/openbot-agent/src/agui.rs:602-610 | As specified; after a refusal the phase and projections are untouched. |
| `AguiDecoder.AguiDecoder.TextChunk` | crates/openbot-agent/src/agui.rs:717-748 | Closes, opens, continues or ends the text shorthand as specified. |
| `AguiDecoder.AguiDecoder.ToolChunk` | crates/openbot-agent/src/agui.rs:832-879 | The same for tools, with the argument cap. |
| `AguiDecoder.AguiDecoder.ReasoningChunk` | crates/openbot-agent/src/agui.rs:904-930 | The same for reasoning messages. |
| `AguiDecoder.AguiDecoder.FinishTool` | crates/openbot-agent/src/agui.rs:809-830 | Completes an open call with its parsed object, or refuses it unchanged. |
| `AguiDecoder.AguiDecoder.AppendArguments` | crates/openbot-agent/src/agui.rs:787-798 | Appends within the room left, a saturating difference. |
| `AguiDecoder.AguiDecoder.CloseConvenienceBefore` | crates/openbot-agent/src/agui.rs:932-948 | Ends the open shorthand of the other families, in order. |
| `AguiDecoder.AguiDecoder.RequireNoOpenStreams` | crates/openbot-agent/src/agui.rs:646-657 | Succeeds exactly when no text, step or reasoning is open and every tool has ended. |
| `AguiDecoder.AguiDecoder.Lifecycle` | crates/openbot-agent/src/agui.rs:365-414 | Run and step events: identity, start once, no open stream at the end, all aborted on error. |
| `AguiDecoder.AguiDecoder.PatchState` | crates/openbot-agent/src/agui.rs:435-441 | A failed delta leaves the state as it was. |
| `AguiDecoder.AguiDecoder.PatchActivity` | crates/openbot-agent/src/agui.rs:469-486 | Patches the activity of the known type, or leaves it as it was. |
| `Pointer.TokensOfEncode` | crates/openbot-agent/src/agui.rs:1461-1487 | Parsing the escaped form of a token list gives the tokens back. |
| `Pointer.EncodeOfTokens` | crates/openbot-agent/src/agui.rs:1461-1487 | Every pointer that parses is the escaped form of its tokens: with the line above, a bijection (RFC 6901, sections 3 and 4). |
| `Pointer.ParsePointer` | crates/openbot-agent/src/agui.rs:1461-1487 | The character loop computes the declarative split and unescaping, up to the length cap. |
| `Pointer.DecodeToken` | crates/openbot-agent/src/agui.rs:1470-1485 | The escape loop accepts exactly `~0` and `~1` and decodes them. |
| `Pointer.PrefixGuard` | crates/openbot-agent/src/agui.rs:1424-1435 | `path.starts_with(from + "/")` holds exactly when the tokens of `from` are a proper prefix of those of `path` (RFC 6902, section 4.4). |
| `Pointer.IndexOfDecimal` | crates/openbot-agent/src/agui.rs:1563-1573 | The decimal form of a machine-sized index is the token that names it. |
| `Pointer.DecimalOfIndex` | crates/openbot-agent/src/agui.rs:1563-1573 | A token that names an index is its only spelling. |
| `Patch.ApplyPatch` | crates/openbot-agent/src/agui.rs:1383-1459 | A failed patch leaves the target unchanged with the error of the first failing operation; a good one is the result of all operations in order. |
| `Patch.PatchLaw` | crates/openbot-agent/src/agui.rs:1383-1459 | A patch of at most the permitted number of operations gives w exactly if there is a chain of documents from the target to w in which each operation applies to the document before it and the result is not too large. |
| `Patch.PatchError` | crates/openbot-agent/src/agui.rs:1383-1459 | The first operation that does not apply makes the patch invalid, and the first whose result is too large makes it too large. |
| `Patch.OnlyOperations` | crates/openbot-agent/src/agui.rs:1392-1454 | Whatever applies is one of the six operations, with a path that parses and the members it needs; any other name is refused. |
| `Patch.AddLaw` | crates/openbot-agent/src/agui.rs:1401-1408 | An addition applies exactly where something can be added: at the whole document, at a member of an object, at a slot of an array up to its end or at `-`. Then one value is there that was not, at its landing place, the array is one longer or the object has that member, and every other location is found where the insertion shifts it. |
| `Patch.RemoveLaw` | crates/openbot-agent/src/agui.rs:1409-1411 | A removal applies exactly at an existing location. Then the member is gone or the array is one shorter, and every other location is found where the gap closes. |
| `Patch.GetValue` | crates/openbot-agent/src/agui.rs:1489-1501 | The walk finds what the pointer denotes. |
| `Patch.ReplaceIsSubstitution` | crates/openbot-agent/src/agui.rs:1412-1423 | At an existing location remove always succeeds, the add after it never fails, and together they substitute in place. |
| `Patch.ReplaceLaw` | crates/openbot-agent/src/agui.rs:1412-1423 | The replace operation is in-place substitution, and fails exactly where there is nothing. |
| `Patch.SubstituteElsewhere` | crates/openbot-agent/src/agui.rs:1412-1423 | Replacing leaves every location alone that is neither above nor below. |
| `Patch.AddThenRemove` | crates/openbot-agent/src/agui.rs:1520-1561 | Adding and then removing at one location restores the document exactly when the slot is new: an absent member, or an array position other than `-`. |
| `Patch.AddElsewhere` | crates/openbot-agent/src/agui.rs:1520-1545 | What survives an addition is found where it was, array elements from the slot on one position further. |
| `Patch.RemoveElsewhere` | crates/openbot-agent/src/agui.rs:1547-1561 | What survives a removal is found where it was, later array elements one position earlier. |
| `Patch.AddHere` | crates/openbot-agent/src/agui.rs:1520-1545 | An added value is found at its location, or at the end for `-`. |
| `Patch.MoveLaw` | crates/openbot-agent/src/agui.rs:1424-1435 | A move applies only from an existing location to a well-formed one; into its own child it is refused, onto itself it changes nothing, and otherwise it is a removal and an addition of what was there. |
| `Patch.CopyLaw` | crates/openbot-agent/src/agui.rs:1436-1443 | A copy applies exactly when its source exists and something can be added at the target; it adds the value of its source there and nothing else, so the source is found where the insertion leaves it. |
| `Patch.TestLaw` | crates/openbot-agent/src/agui.rs:1444-1452 | A test changes nothing and passes exactly on an equal value at an existing location. |
| `AguiEncoder.PairingLaw` | crates/openbot-agent/src/agui.rs:1036-1116 | The pending-map loop accepts a conversation exactly when each message is within its bounds and each assistant turn with k distinct call ids is followed at once by k answers that are a permutation of its calls with matching names; ids may return in later turns. |
| `AguiEncoder.EncodeMessages` | crates/openbot-agent/src/agui.rs:1036-1116 | Succeeds exactly on such conversations, and then projects every message in order under its own index. |
| `AguiEncoder.EncodeMessage` | crates/openbot-agent/src/agui.rs:1038-1112 | One message: its wire form, and the calls pending after it. |
| `AguiEncoder.EncodeCalls` | crates/openbot-agent/src/agui.rs:1065-1092 | The calls of a turn on the wire in order; refused at the first unbounded, non-object or repeated one. |
| `AguiEncoder.DrainMeaning` | crates/openbot-agent/src/agui.rs:1094-1111 | From pending calls to none: the front of the conversation answers all of them, and the rest stands alone. |
| `AguiEncoder.AskAccepts` | crates/openbot-agent/src/agui.rs:1065-1092 | A turn is accepted exactly on distinct ids within bounds, and then exactly these ids are pending. |
| `AguiEncoder.MessageReadBack` | crates/openbot-agent/src/agui.rs:1038-1112 | A receiver reads the very message back from its wire form, tool arguments included. |
| `AguiEncoder.MessageIdsDiffer` | crates/openbot-agent/src/agui.rs:1040 | No two messages of one request share an id. |
| `RemoteLaws.StreamEnds` | crates/openbot-agent/src/remote_provider.rs:163-221 | Once a call returns nothing, whatever the transport answered: exactly one terminal event was delivered, the last; tool calls came only right before a completion, all offered, none with a remote result; and every later call returns nothing. |
| `RemoteLaws.RunKept` | crates/openbot-agent/src/remote_provider.rs:163-221 | After any number of calls: the shape of the stream, both budgets, the call ledger and the decoder invariant hold of delivered and pending events. |
| `RemoteLaws.NothingAfterTheEnd` | crates/openbot-agent/src/remote_provider.rs:429-453 | At every moment nothing is delivered or pending after a delivered terminal event. |
| `RemoteLaws.ToolCallsComeWithCompletion` | crates/openbot-agent/src/remote_provider.rs:429-447 | A delivered tool call means that the completion is on its way and every completed call was offered. |
| `RemoteLaws.ReleasedExactly` | crates/openbot-agent/src/remote_provider.rs:429-447 | The calls released are exactly the completed ones without a remote result. |
| `RemoteLaws.IndicesGrow` | crates/openbot-agent/src/remote_provider.rs:253-260 | In the ledger of every run, indices of completed calls grow strictly exactly while there are at most 2^32 of them; then the index saturates. |
| `RemoteLaws.ReleasedGrow` | crates/openbot-agent/src/remote_provider.rs:429-447 | Below that bound the released calls come in strictly increasing index. |
| `RemoteLaws.ProjectionKept` | crates/openbot-agent/src/remote_provider.rs:395-427 | A projection is delivered within 4096 events and 8 MiB and counted exactly, or the session fails. |
| `RemoteLaws.FailKept` | crates/openbot-agent/src/remote_provider.rs:449-453 | A failure drops what is pending and leaves one Failed event; counters then only bound what was delivered. |
| `RemoteLaws.ToolResultKept` | crates/openbot-agent/src/remote_provider.rs:261-282 | A remote result is taken once, for an offered completed call; anything else fails the session. |
| `RemoteLaws.EndFails` | crates/openbot-agent/src/remote_provider.rs:189-194 | An end of stream before the run has ended is always an invalid response. |
| `RemoteLaws.ActivityIsKnown` | crates/openbot-agent/src/remote_provider.rs:342-362 | The activity a projection reads is always there, so that refusal is never taken. |
| `RemoteLaws.SameReplies` | crates/openbot-agent/src/remote_provider.rs:163-221 | What a call returns does not depend on the decoder of an ended session. |
| `RemoteMeaning.StreamMeans` | crates/openbot-agent/src/remote_provider.rs:163-221 | When a stream has ended without failure, the text, reasoning and projections delivered are, in order and exactly once, the meaning of everything decoded, with the state as it was right after each event; a completion released exactly the decoded calls without a decoded result. After a failure a prefix of that meaning was delivered. |
| `RemoteMeaning.RunFaithful` | crates/openbot-agent/src/remote_provider.rs:163-393 | The same at every moment, for what is delivered and pending together, with the session's books equal to what was decoded. |
| `RemoteMeaning.RunInOrder` | crates/openbot-agent/src/remote_provider.rs:163-221 | The answers decoded are those of the transport in order, each once, and the end is asked for at most once. |
| `RemoteMeaning.DeliveredGrow` | crates/openbot-agent/src/remote_provider.rs:429-447 | In every run with at most 2^32 completed calls the tool calls delivered have strictly increasing indices. |
| `RemoteMeaning.AcceptMeans` | crates/openbot-agent/src/remote_provider.rs:225-393 | Each decoded event adds exactly its own meaning, or the session fails; which failure, and which end, is decided by `RemoteVerdict.AcceptJudged`. |
| `RemoteMeaning.SnapshotMeans` | crates/openbot-agent/src/remote_provider.rs:324-362 | A state or activity projection shows the value right after its event. |
| `RemoteMeaning.IngestOneChange` | crates/openbot-agent/src/agui.rs:339-599 | Of the events of one input only the last may end the run or change the state shown. |
| `RemoteVerdict.StreamDecided` | crates/openbot-agent/src/remote_provider.rs:163-393 | At the end of every stream the last event is the failure of the first answer or event that makes the session fail: unreadable data, a RunError (`GenerationFailed`), an unoffered call at the end, a bad batch of interrupts, a result nobody waits for, a projection without room, each transport error, or an early end. If there is none, the last event heard is the end of the run, and the host is told just that end: `Completed` for RunFinished, `Interrupted` with these very interrupts for RunInterrupted. |
| `RemoteVerdict.RunDecided` | crates/openbot-agent/src/remote_provider.rs:163-393 | The same at every moment of every run: without a failure the session goes on exactly as long as no end was heard. |
| `RemoteVerdict.AcceptJudged` | crates/openbot-agent/src/remote_provider.rs:225-393 | One decoded event fails the session exactly if it is one of those, with that failure, and ends it as what it says. |
| `RemoteVerdict.ErrorsExactly` | crates/openbot-agent/src/remote_provider.rs:213-218 | A call returns an error exactly if the last answer it took is a transport error that says nothing of the run, and then that error. |
| `RemoteSpeech.SpeechLaw` | crates/openbot-agent/src/remote_provider.rs:231-252 | Delivered text is at every moment that of a message whose last start is the assistant's exactly if no other role's start takes the open message of the assistant. |
| `RemoteSpeech.ExplicitNeverUsurps` | crates/openbot-agent/src/remote_provider.rs:231-252 | So it is for every trace of explicit events. |
| `RemoteSpeech.AssistantSpeaks` | crates/openbot-agent/src/remote_provider.rs:231-252 | Text of an open assistant message is always delivered. |
| `RemoteSpeech.UserSpeaks` | crates/openbot-agent/src/remote_provider.rs:231-252 | The failing case: a chunk of a user's message with the id of an open assistant message is accepted, and its text delivered as the assistant's. |
| `RemoteSession.RemoteAguiSession.NextEvent` | crates/openbot-agent/src/remote_provider.rs:164-221 | Returns what the specification of one call says: pending first, nothing after the end, transport errors through, everything else received. How the stream ends is `RemoteVerdict.StreamDecided`. |
| `RemoteSession.RemoteAguiSession.Receive` | crates/openbot-agent/src/remote_provider.rs:173-217 | What one answer of the transport does, decoder refusals and transport failures included. |
| `RemoteSession.RemoteAguiSession.AcceptAll` | crates/openbot-agent/src/remote_provider.rs:182-187 | Decoded events one by one until one ends the session. |
| `RemoteSession.RemoteAguiSession.Accept` | crates/openbot-agent/src/remote_provider.rs:225-393 | What each decoded event adds; its verdict is `RemoteVerdict.AcceptJudged`. |
| `RemoteSession.RemoteAguiSession.PushProjection` | crates/openbot-agent/src/remote_provider.rs:395-427 | Pushes and counts within both budgets, or fails. |
| `RemoteSession.RemoteAguiSession.Complete` | crates/openbot-agent/src/remote_provider.rs:429-447 | Releases the remaining calls in order and then completes, or fails with nothing released. |
| `RemoteSession.RemoteAguiSession.AcceptToolResult` | crates/openbot-agent/src/remote_provider.rs:261-282 | A result for an offered completed call without one, within budget. |
| `Scheduling.ScheduleToolWaves` | crates/openbot-agent/src/runtime.rs:366-404 | The waves concatenate to the calls in order; a serial wave is one call, a parallel wave holds only parallel-safe non-human calls with disjoint locks; no legal contiguous partition has fewer waves. |
| `Scheduling.NoShorterPartition` | crates/openbot-agent/src/runtime.rs:366-404 | Waves that each end only where the next call could not join are a shortest legal partition. |
| `Scheduling.GreedyStaysAhead` | crates/openbot-agent/src/runtime.rs:366-404 | After any number of waves the greedy partition has consumed at least as many calls as any other. |
| `Scheduling.GreedyIsOptimal` | crates/openbot-agent/src/runtime.rs:366-404 | So no other legal partition is shorter. |
| `Scheduling.WavesAreLegal` | crates/openbot-agent/src/runtime.rs:366-404 | The waves themselves are a legal partition. |
| `Scheduling.Parallel` | crates/openbot-agent/src/gateway.rs:127-137 | Lock keys sorted and without repetition, the same set of keys; more than 32 make the tool serial. |
| `ToolBudget.MutualExclusion` | crates/openbot-agent/src/runtime.rs:288-347 | In every reachable state two running calls share no lock key and no more run than there are permits, although unused semaphores are collected. |
| `ToolBudget.DeadlockFree` | crates/openbot-agent/src/runtime.rs:288-347 | With at least one permit every state that keeps the invariant and has an unfinished call has an enabled step other than a cancellation. |
| `ToolBudget.AcquireExactly` | crates/openbot-agent/src/runtime.rs:316-323 | A call waits for its next key exactly while another call holds that very key. |
| `ToolBudget.PermitExactly` | crates/openbot-agent/src/runtime.rs:333-347 | With all its keys, it waits for a permit exactly while as many calls run as there are permits. |
| `ToolBudget.GreatestCanAcquire` | crates/openbot-agent/src/gateway.rs:127-137 | The call awaiting the greatest key waits for nobody: ordered acquisition. |
| `ToolBudget.RunInv` | crates/openbot-agent/src/runtime.rs:288-347 | The table, ownership and permit invariant holds after every schedule. |
| `ToolBudget.RegisterKeepsTask` | crates/openbot-agent/src/runtime.rs:298-313 | Collecting entries nobody owns never unmaps a key in use. |
| `ToolBudget.RunsAreBounded` | crates/openbot-agent/src/runtime.rs:333-347 | No schedule has more steps than the work it starts with. |
| `ToolBudget.EveryCallFinishes` | crates/openbot-agent/src/runtime.rs:333-347 | Every schedule continued as long as possible finishes every call. |
| `ToolBudget.ToolResourceLocks.Lookup` | crates/openbot-agent/src/runtime.rs:294-313 | Retains live semaphores and finds or allocates one for each key, in order. |
| `AgentReducer.ReducerLaw` | crates/openbot-domain/src/agent.rs:443-591 | Over every accepted sequence of facts at most one terminal is asked for, nothing after it, and at most eight tool calls are invoked; the final phase is that of the terminal. |
| `AgentReducer.CancelledMeansStopped` | crates/openbot-domain/src/agent.rs:535-550 | A cancellation is committed only right after CancelRequested and ChildrenStopped. |
| `AgentReducer.VerdictOf` | crates/openbot-domain/src/agent.rs:443-597 | Exactly these facts begin a terminal, each in its own phases and each with its own verdict. |
| `AgentReducer.ReduceShape` | crates/openbot-domain/src/agent.rs:443-597 | A step is the end, begins the terminal, or asks for at most one thing within the step cap. |
| `DurableRun.DurableTextRun.Finish` | crates/openbot-application/src/run_runtime.rs:791-808 | On success the journal is exactly what the writer was given, bytes and records in order across channels, and then the terminal; on failure only semantic chunks and perhaps that terminal were added. |
| `DurableRun.DurableTextRun.AppendToolExchange` | crates/openbot-application/src/run_runtime.rs:745-762 | Text before it is flushed; on success the exchange is the last entry and the journal is what was given so far. |
| `DurableRun.DurableTextRun.AppendRemoteProjection` | crates/openbot-application/src/run_runtime.rs:765-783 | The same for a projection. |
| `DurableRun.DurableTextRun.Push` | crates/openbot-application/src/run_runtime.rs:683-694 | The delta joins the account of everything given, whether or not the store answers; full and overdue chunks are in the journal on success, the rest stays gathered; a NUL is refused with nothing changed, and nothing but that and a failed append is an error. |
| `DurableRun.DurableTextRun.PushReasoning` | crates/openbot-application/src/run_runtime.rs:698-722 | The text before it keeps its place, and the reasoning follows in storable chunks. |
| `DurableRun.DurableTextRun.FlushDue` | crates/openbot-application/src/run_runtime.rs:725-732 | Text that is due is no longer gathered but in the journal; nothing is lost or duplicated, and it fails exactly if an append does. |
| `DurableRun.DurableTextRun.Flush` | crates/openbot-application/src/run_runtime.rs:735-742 | On success nothing is held back. |
| `DurableRun.DurableTextRun.DrainPending` | crates/openbot-application/src/run_runtime.rs:810-831 | Queued chunks reach the journal once each in order, retried at the same position; the empty and oversized chunk check never fires. |
| `DurableRun.Split` | crates/openbot-application/src/run_runtime.rs:713-720 | A reasoning delta cut by its own accumulator: non-empty chunks of at most 8192 bytes that concatenate to it. |
| `DurableRun.RunStore.Append` | crates/openbot-infra/src/run_runtime.rs:1405-1487 | The store port: appends at the expected position, answers a repetition from what is there, or fails with or without a known effect. |
| `AgentRun.Run.Execute` | crates/openbot-agent/src/runtime.rs:525-1083 | For all answers of context, provider, tools, clock, caller and store: at most one terminal, nothing after it, and the world's last word explains why the run is over. Unless an append has failed, the journal holds exactly what has happened, in order, and then the terminal: every text, reasoning and projection as it came, and for each call of each sampling, in turn and before the run goes on, an exchange with the call and its reply; each exchange answers one invocation of its own. A started non-human call without its own exchange means reconciliation, or `tool_loop_unavailable` exactly if the first result that was no reply said unavailable; so neither Success nor Cancelled. No terminal is attempted exactly if the last fact was a malformed or over-cap batch, an unavailable tool while a human decides, or reasoning without text. At most nine provider sessions, all coherent with the first; usage at most once for each; all but the last together within the run ceiling; never a tool-step-limit terminal. |
| `AgentRun.CancelledAnswersAll` | crates/openbot-agent/src/runtime.rs:1085-1458 | In a cancelled run each non-human call that began has an exchange of the same call, with its own reply, before the terminal. |
| `AgentRun.TerminalIsLast` | crates/openbot-agent/src/runtime.rs:1782-1792 | A terminal is the last journal entry. |
| `AgentRun.CeilingCovers` | crates/openbot-agent/src/runtime.rs:720-721 | In a coherent run the reports of samplings that stayed within their own cap sum to at most the cap times their number, so never above the ceiling of the first request. |
| `AgentRun.CeilingKept` | crates/openbot-agent/src/runtime.rs:720-721 | All but the last sampling of a run report together no more than the run ceiling. |
| `AgentRun.UnansweredEnds` | crates/openbot-agent/src/runtime.rs:1085-1458 | A journalled terminal with a call unanswered is reconciliation, or `tool_loop_unavailable`; the latter exactly if a tool result said so. |
| `AgentRun.AbandonedExactly` | crates/openbot-agent/src/runtime.rs:1794-1807 | A run that is over is without a terminal exactly if its last fact was one of the three the reducer does not go along with. |
| `AgentRun.TimelyConcludes` | crates/openbot-agent/src/runtime.rs:1794-1807 | A fact told in the phase where it arises gives a verdict; only an unavailable tool while a human decides does not. |
| `AgentRun.Run.RunTools` | crates/openbot-agent/src/runtime.rs:1040-1066 | A batch the reducer does not take leaves the run without a terminal and the journal as it was. When it goes on, each call has been invoked exactly once, by itself or in its wave, nothing else has been, and the journal has grown by one exchange for each call, in the order of the calls, each with the reply of that invocation; when it does not, some first of the calls are answered, in order, and the run is over. |
| `AgentRun.Run.CommitTerminal` | crates/openbot-agent/src/runtime.rs:1782-1792 | Exactly this terminal is attempted, after the text; unless an append fails it is the last entry and the run is in its final phase; the run stays safe whatever the store answers. |
| `AgentRun.Run.DriveTerminal` | crates/openbot-agent/src/runtime.rs:1794-1807 | A fact ends the run with exactly the verdict the reducer gives it or, if refused, without one and with the journal as it was. |
| `AgentRun.Run.CancelAndCommit` | crates/openbot-agent/src/runtime.rs:1824-1849 | Attempts a cancellation exactly in the phases before the end, and only with nothing unanswered; only an unaudited deadline may be reconciliation instead. |
| `AgentRun.Run.ToolInterrupted` | crates/openbot-agent/src/runtime.rs:1851-1871 | The ending is exactly that of an unknown journal commit, so never a success and never a clean cancellation. |
| `AgentRun.Run.JournalFailure` | crates/openbot-agent/src/runtime.rs:1873-1887 | A stale lease ends the run as a lost lease, every other journal error as an unknown commit. |
| `AgentRun.Run.AppendToolReply` | crates/openbot-agent/src/runtime.rs:1433-1458 | The reply of this invocation goes to the journal as an exchange with this call and this content; on success this invocation, and no other, is newly answered, and on failure the run is over because of the journal. |
| `AgentRun.Run.InvokeSerial` | crates/openbot-agent/src/runtime.rs:1138-1285 | Exactly how the run ends for every answer of the world, human waits included, or that it goes on with a reply; exactly this call has begun, and only with its budget. |
| `AgentRun.Run.TakeOutcome` | crates/openbot-agent/src/runtime.rs:1262-1271 | A reply goes on; an unavailable tool and one in need of reconciliation end the run with their own verdicts. |
| `AgentRun.Run.AnswerOne` | crates/openbot-agent/src/runtime.rs:1115-1136 | One result of a wave is answered in the journal with its content, or ends the run; an unavailable one leaves the rest unanswered. |
| `AgentRun.Run.InvokeParallel` | crates/openbot-agent/src/runtime.rs:1293-1426 | Results at the position of their call whatever the completion order; every new invocation belongs to one position, and a reply to one that began. |
| `AgentRun.Run.AbortWave` | crates/openbot-agent/src/runtime.rs:1333-1380 | Reconciliation if anything of the wave has begun, tasks that start while being aborted included; otherwise exactly a clean cancellation. |
| `AgentRun.Run.FailWave` | crates/openbot-agent/src/runtime.rs:1378-1395 | A lost lease or a lost task ends the wave with exactly that verdict, never cleanly. |
| `AgentRun.Run.ExecuteParallel` | crates/openbot-agent/src/runtime.rs:1115-1136 | When it goes on, every call of the wave has been invoked exactly once, and answered with its own reply in the order of the calls, whatever the order of completion. |
| `AgentRun.Run.ExecuteWave` | crates/openbot-agent/src/runtime.rs:1085-1136 | The same whether the calls of the wave overlap or come one after the other. |
| `AgentRun.Run.ExecuteTools` | crates/openbot-agent/src/runtime.rs:1053-1066 | When it goes on, each call of the batch has been invoked exactly once, nothing else has been, and the journal has an exchange for each, in the order of the calls, with its own reply; otherwise some first of them are answered, in order, and the run is over. |
| `AgentRun.Run.ExecuteSerially` | crates/openbot-agent/src/runtime.rs:1092-1104 | The same for calls one after the other. |
| `AgentRun.Run.AnswerAll` | crates/openbot-agent/src/runtime.rs:1115-1136 | The results of a wave are answered in the order of its calls, each with its own content, up to the first that is no reply or that the journal does not take. |
| `RunCourse.RanJoin` | crates/openbot-agent/src/runtime.rs:1053-1066 | Batches that have each been run exactly once, one after the other, have been run exactly once together. |
| `RunCourse.AnsweringCourse` | crates/openbot-agent/src/runtime.rs:1053-1066 | Answering the calls that are owed, in order, never leads a run astray, and once all are answered nothing is owed. |
| `RunCourse.InOrderPlaces` | crates/openbot-agent/src/runtime.rs:877-890 | The calls of one sampling are put in the order of their index: each stands behind exactly those of smaller index. |
| `RunCourse.MeantMore` | crates/openbot-agent/src/runtime.rs:1574-1645 | What the journal is owed grows by exactly what the latest happening is worth. |
| `AgentRun.Run.HandleUsage` | crates/openbot-agent/src/runtime.rs:1646-1733 | The ending is exactly the one for what the report, the cap and the runtime say, and usage is recorded at most once a sampling; a sampling that goes on is within its cap. |
| `AgentRun.Run.HandleCompleted` | crates/openbot-agent/src/runtime.rs:1734-1755 | Completion counts only with text, and with usage where output is capped; otherwise it is an invalid response. |
| `AgentRun.Run.HandleFailing` | crates/openbot-agent/src/runtime.rs:1756-1775 | The ending is that of the named provider failure; only a stalled stream that cannot be audited may be reconciliation. |
| `AgentRun.Run.Refuse` | crates/openbot-agent/src/runtime.rs:690-718 | The ending is that of the failed context; only an unaudited cost refusal may be reconciliation. |
| `AgentRun.Run.Sample` | crates/openbot-agent/src/runtime.rs:807-939 | A sampling ends by its last wake and what the wakes before it gathered, exactly: with its calls in order, with a human request of this very remote run, or with the verdict for that wake; no wake before it could have ended it. Everything it was woken by is in the history, in order. |
| `AgentRun.Run.SampleTurn` | crates/openbot-agent/src/runtime.rs:812-939 | One wake: what the sampling has gathered after it, or how it ends, exactly. |
| `AgentRun.Run.TakeEvent` | crates/openbot-agent/src/runtime.rs:852-915 | One event of the session: text and reasoning go to the journal, calls are collected under new ids and indices, usage is counted, and an event that ends the sampling ends it as that event says. |
| `AgentRun.Run.TakeWake` | crates/openbot-agent/src/runtime.rs:813-939 | A stop, an expired lease, the timer, the end and the breaking of the stream each end the run with their own verdict, or let it go on. |
| `RunCourse.GatherCourse` | crates/openbot-agent/src/runtime.rs:852-915 | A wake that does not end a sampling leaves it listening, with the calls gathered. |
| `AgentRun.Run.FlushTimer` | crates/openbot-agent/src/runtime.rs:845-851 | When the timer fires, text that is due goes to the journal, or the run ends because of the journal. |
| `AgentRun.Run.AwaitHuman` | crates/openbot-agent/src/runtime.rs:943-1027 | A resume is taken exactly if it names the interrupted run as its parent; every other answer, a cancellation and a lost lease end the run with their own verdict. |
| `AgentRun.Run.Prepare` | crates/openbot-agent/src/runtime.rs:576-760 | A request goes on exactly if it is loaded and the bindings admit it, and then as they link it; a failed load, each refusal, a cancellation and a lost lease end the run with their own verdict. |
| `AgentRun.Run.StartAndSample` | crates/openbot-agent/src/runtime.rs:761-939 | Counts the session, and samples it under the bound protocol run; a refused start ends the run with the verdict for that error. |
| `AgentRun.Run.LoadAndSample` | crates/openbot-agent/src/runtime.rs:562-939 | One session at most, under the bindings of the first; if it yields nothing to do, the run is over. |
| `AgentRun.Committed` | crates/openbot-agent/src/runtime.rs:1782-1792 | A run with a verdict accepts the commit and then is in the phase of that verdict. |
| `AgentRun.Run.Turn` | crates/openbot-agent/src/runtime.rs:562-1082 | One turn keeps the account of samplings and usage under the bindings of the first; when it goes on, nothing is owed or unanswered. |
| `AgentRun.Run.Continue` | crates/openbot-agent/src/runtime.rs:940-1066 | After a sampling its calls are run, each once and answered with its reply, in order, or a human is waited for; nothing else happens before the next one. |
| `RunWitness.UnavailableSerial` | crates/openbot-agent/src/runtime.rs:1267-1271 | A run in which a call begins, turns out unavailable, and ends as `tool_loop_unavailable` with that call unanswered. |
| `RunWitness.UnavailableParallel` | crates/openbot-agent/src/runtime.rs:1115-1136 | A wave of two calls that have begun: the first is unavailable, so the reply of the second is not journalled either. |
| `RunWitness.HumanWithoutBudget` | crates/openbot-agent/src/runtime.rs:1157-1174 | A human decision without a budget ends its run without a terminal. |
| `RunWitness.OverTheStepCap` | crates/openbot-agent/src/runtime.rs:1040-1053 | A well-formed batch of nine calls ends its run without a terminal and with an empty journal. |
| `RunWitness.RepeatedId` | crates/openbot-agent/src/runtime.rs:1040-1053 | So does a batch that repeats an id. |
| `RunWitness.EmptyReasoning` | crates/openbot-agent/src/runtime.rs:1603-1611 | So does a piece of reasoning without text. |
| `RunBinding.BindCoherent` | crates/openbot-agent/src/runtime.rs:612-760 | A request that goes through has the output cap, rate card, cost cap and custom model (or none) of every earlier one and the remote endpoint once there is one; a resumed one continues the lineage. |
| `RunBinding.BindExactly` | crates/openbot-agent/src/runtime.rs:612-760 | After any samplings a request goes through exactly if it belongs to this run, continues the remote run it resumes, is priced where cost is capped, and contradicts none of them in model, endpoint, cap, rate card or cost cap; otherwise the refusal is unpriced, a currency mismatch or an invalid response, exactly told apart. |
| `RunBinding.BindLinks` | crates/openbot-application/src/provider.rs:159-179 | A resumed request names the current remote run as its parent and becomes the current run; without a resume nothing changes. |
| `RunBinding.BindFixes` | crates/openbot-agent/src/runtime.rs:720-760 | A request that goes through is priced in the currency of its cap, and agrees with what was fixed. |
| `RunBinding.RunBindings.Admit` | crates/openbot-agent/src/runtime.rs:612-760 | Computes the specified binding and request, or its refusal. |
| `RunBinding.RunBindings.BindCustomModel` | crates/openbot-agent/src/runtime.rs:1957-1978 | Binds the first model or its absence, and refuses every change with the bindings untouched. |
| `RunBinding.RunBindings.ApplyResume` | crates/openbot-agent/src/runtime.rs:621-649 | Links a pending resume into the loaded route, once. |
| `RunBinding.RunBindings.BindEndpoint` | crates/openbot-agent/src/runtime.rs:650-687 | Remote stays remote at the same endpoint, for this run, thread and bot. |
| `RunBinding.RunBindings.FreezeBudget` | crates/openbot-agent/src/runtime.rs:720-760 | Fixes ceiling, rate card and cost cap at the first sampling. |
| `Chunk.SemanticChunkAccumulator.Push` | crates/openbot-application/src/chunk.rs:32-57 | The bulk loop computes what feeding one scalar at a time computes, and ends by the lexicographic measure of remaining and pending bytes. |
| `Chunk.SemanticChunkAccumulator.FlushDue` | crates/openbot-application/src/chunk.rs:59-65 | Takes the pending chunk exactly when it is due. |
| `Chunk.SemanticChunkAccumulator.Finish` | crates/openbot-application/src/chunk.rs:67-71 | Takes whatever is pending. |
| `Chunk.SemanticChunkAccumulator.NextDeadline` | crates/openbot-application/src/chunk.rs:79-82 | A deadline exactly while something is pending; being due is being at or past it. |
| `Chunk.SemanticChunkAccumulator.Turn` | crates/openbot-application/src/chunk.rs:38-55 | One turn evicts or takes a prefix of whole scalars without changing what remains to be computed. |
| `Chunk.PrefixBoundary` | crates/openbot-application/src/chunk.rs:90-99 | The longest prefix of whole scalars within the limit. |
| `Chunk.PushAppend` | crates/openbot-application/src/chunk.rs:32-57 | Pushing a and then b at one instant is pushing a+b. |
| `Chunk.RunKeepsText` | crates/openbot-application/src/chunk.rs:32-88 | Over every run: chunks and pending text concatenate to the input. |
| `Chunk.RunChunks` | crates/openbot-application/src/chunk.rs:32-88 | Every chunk is whole scalars, non-empty, and at most 8192 bytes. |
| `Chunk.RunDates` | crates/openbot-application/src/chunk.rs:32-88 | `started_at` is set exactly while text is pending and dates its oldest byte. |
| `Chunk.RunTimely` | crates/openbot-application/src/chunk.rs:32-65 | Over every run: after a push or a timer nothing pending has waited as long as the limit, and after a finish nothing is pending. |
| `Chunk.OverdueFirst` | crates/openbot-application/src/chunk.rs:34-36 | A push emits what was pending as a chunk of its own first, exactly when it is overdue; all other chunks are full. |
| `Chunk.OpChunks` | crates/openbot-application/src/chunk.rs:32-57 | A chunk forced out by size has at least 8189 bytes; any other is what was pending. |
| `Chunk.FeedAllInv` | crates/openbot-application/src/chunk.rs:32-57 | The reference automaton keeps its invariant and loses no text. |
| `Chunk.CutAtBoundary` | crates/openbot-application/src/chunk.rs:90-99 | Cutting at a character boundary leaves whole scalars on both sides. |
| `Retry.Start` | crates/openbot-agent/src/retry.rs:78-115 | At most max_retries+1 starts; exactly the attempts that were unavailable, rate-limited or met a down server are tried again while retries are left, and the caller sees such a fault only when they are used up; the waits are the specified delays; the result is the last attempt, none of its events consumed. |
| `Retry.PrefetchedSession.NextEvent` | crates/openbot-agent/src/retry.rs:175-182 | Poll n of the wrapper is poll n of the session. |
| `Retry.DelayBelow` | crates/openbot-agent/src/retry.rs:132-167 | Every delay without a hint is at least the base delay exactly unless the base delay, jittered, has 2^64-1 seconds and some nanoseconds; there the conversion back from nanoseconds loses them. |
| `Retry.SmallestDrawCarries` | crates/openbot-agent/src/retry.rs:152-167 | The failing case: the smallest draw makes such a delay one nanosecond shorter than its base. |
| `Retry.DelayAbove` | crates/openbot-agent/src/retry.rs:132-167 | No delay without a hint exceeds the cap or twice its interval. |
| `Retry.ExtraBelowBase` | crates/openbot-agent/src/retry.rs:152-162 | Jitter adds less than one base interval, saturated product or not. |
| `Retry.JitterRange` | crates/openbot-agent/src/retry.rs:152-162 | A jittered delay stays within the cap and below twice its base. |
| `Retry.ExponentialMonotone` | crates/openbot-agent/src/retry.rs:132-150 | Unjittered delays are nondecreasing in the index. |
| `Retry.ExponentialRange` | crates/openbot-agent/src/retry.rs:132-150 | And lie between base and cap. |
| `Retry.ExponentialDoubles` | crates/openbot-agent/src/retry.rs:137-143 | The first interval is the base delay, and each is twice the one before, up to the cap, for 31 retries; then it stays. |
| `Retry.ExtraIsShare` | crates/openbot-agent/src/retry.rs:152-162 | What jitter adds is the drawn share of the interval in whole nanoseconds, unless the product saturates. |
| `Retry.HintRaises` | crates/openbot-agent/src/retry.rs:132-150 | A hint only raises the delay. |

## Left out

- HTTP, SSE framing, PostgreSQL, timers, metrics, tracing and audit storage: each answer of theirs is a parameter or an arbitrary choice.
- Host bindings, leases and auth checks: predicates that may fail at any time; "same binding and caller" is equality of an owner.
- `validate_messages`: the check of one message is a function of the decoder's context; its field checks are single-branch facts.
- `ProviderRemoteProjection::new`, its encoded length, and interrupt batches: functions of the session's configuration.
- A decoder after a refused `ingest`: its phase and projections are specified as unchanged, but which open streams it has already closed is not; `FeedKept` and all trace laws are about accepted inputs.
- RemoteLaws.IndicesGrow: no run with more than 2^32 completed calls is written out; what is proved holds of the ledger of any run.
- AguiDecoder.AguiDecoder.Ingest: the one `match` over event names is split into a method for each family of events.
- `encode_run_agent_input`: the envelope around the messages (tools, lineage, size cap) is not modelled.
- JSON patch in place: `apply_patch` is a loop over values and its add and remove halves are functions, so what a mutable reference into the tree may alias is not captured.
- ToolBudget.DeadlockFree: semaphores admit waiters in any order; first-come fairness is not modelled.
- Scheduling.Parallel: the in-place sort is modelled by insertion into a sorted sequence.
- Journal sequence numbers and loop counters are unbounded; the overflow branches of `checked_add` on 64-bit sequences are not modelled.
- DurableRun.RunStore.Append: the store's own checks (lease, status, thread history) are the arbitrary failures of the port.
- AgentRun.Run.Execute: what the journal holds is said exactly as long as no append has failed; after a failed one it is said only which kinds of entries were added, and that none follows a terminal.
- AgentRun.Run.InvokeSerial: detached human tasks and the grace period of a cancelled tool are not followed after the run has ended.
- AgentRun.Run.InvokeParallel: the budget of each task is an arbitrary choice here; exclusion and progress of budgets are proved in `ToolBudget`.
- `supervise`, reservations and activation: queueing and shutdown of whole runs.
- ReaderRegistry.RemovedMeansDrained: that a producer enrolls before its preparation ends is the trusted factory's promise; the lemma says what holds if it does not.
- `close_for_issuer` and `close_for_binding`: the same loop as `close_all` over a filtered snapshot.
- `Instant` additions that would overflow, poisoned mutexes and process aborts.
- Dispatch tables and error mappings of `app.rs`, `gateway.rs` replies, administration modules and UI.
