# Session relay: a verified model

A Dafny model of the Go host's session relay, and proofs of what it promises. Agents' hook events drive a
table of sessions (the mux); every change of a session's state goes out as a frame; a cloud relay rebuilds the
table from snapshots and frames; replies travel back through a queue into the agents. Around that core sit the
broadcast journal, the terminal responder, the process watcher, the hook installer, the expiring buffers and the
dictation gate.

`dafny verify dfyconfig.toml` checks everything.

## How it is laid out

Code that updates state is a class whose methods are tied to a specification function or to one move of a state
machine; the theorems are lemmas about those functions and machines, over every run.

| file | what it holds |
|---|---|
| `wire.dfy`, `text.dfy`, `snippets.dfy` | events, frames, views; snippet clean-up |
| `mux_spec.dfy` | the mux as functions from state to state |
| `mux.dfy` | the mux in place: `Session` and `Mux`, each method equal to its function |
| `mux_states.dfy` | which state, texts and frames each event leads to, and a session's state over whole runs |
| `mux_invariants.dfy`, `mux_runs.dfy` | what every serial run keeps |
| `mux_split.dfy` | the mux cut at each sink call, which runs without the lock: goroutines and a peer's packets interleave |
| `mux_orderly.dfy`, `mux_armed.dfy` | exactly when interleaving does no harm to what the sink was told, and to the idle timers |
| `mux_races.dfy`, `mux_alone.dfy` | runs in which it does; a goroutine on its own is one step of the serial mux |
| `mux_lookup.dfy`, `dedup.dfy` | lookups by thread; the dedup window with and without collection |
| `upstream.dfy`, `mirror.dfy`, `bridge.dfy` | one frame, one hello; bounded queue, wire and cloud behind whatever the laptop does |
| `mirror_serial.dfy`, `mirror_turns.dfy`, `mirror_split.dfy` | that laptop running serially; handing threads on from session to session; with its goroutines interleaving |
| `upstream_rows.dfy` | what frames and snapshots write into rows; which session of a thread is found after them |
| `proxy.dfy`, `peer.dfy` | the cloud's relay endpoint and its disconnect callback |
| `journal.dfy`, `journal_order.dfy`, `store.dfy`, `hub.dfy` | append-then-fan-out against register-then-replay; what a client last heard; the store; the hub |
| `outbox.dfy`, `delivery.dfy`, `drain.dfy` | reply queues, their serial use, and drainers cut into steps |
| `terminal.dfy` | answering capability queries read by read |
| `processes.dfy`, `installer.dfy` | the process watcher; hook install and uninstall |
| `buffer.dfy`, `dictation.dfy` | three expiring buffers; the throttle under dictation |

Time is an `int` of milliseconds. Thread ids and home-relative labels come from uninterpreted functions in `Env`, the
question cue from an uninterpreted predicate. Adapters succeed or fail at will. Where Go ranges over a map or picks
among equals, the model's choice is a parameter constrained to be one Go could make, so theorems cover all of them.

## What was found

- The mirror queue is made once and outlives every connection, so a connection's hello is followed by whatever was
  queued before it. The comment at `host/internal/cloud/cloud.go:80-82`, by which replay on reconnect makes up for
  dropped frames, holds only if no queued frame takes a session back behind the snapshot (`Mirror.ReconnectDecides`, an
  equivalence).
- A frame for a session the cloud does not know is written over another session of the same thread, if one is live
  (`Upstream.FrameLandsIff`, an equivalence). Whatever the laptop does and whatever is lost, the cloud has a session as
  the last frame it heard of it told, or else as the hello listed it, exactly as long as no arriving frame is so
  misdirected to or from it (`Mirror.TouchIff`, an equivalence). No frame is, where no thread serves two sessions
  (`MirrorSerial.OwnedIsNeverMissed`). Catching up on a backlog does it to an agent restarted in its directory; if nothing
  was lost the cloud still ends up right as long as sessions of a thread take turns (`MirrorTurns.TurnsConverge`).
- The sink is called without the lock. A prompt and a stop in two goroutines can leave an idle session whose last frame
  says BUSY (`MuxRaces.RaceMisleads`). What the sink was last told of a session is right at every rest exactly if no step
  hands over a last frame that is wrong (`MuxOrderly.TellsIff`, an equivalence over every local run); then the cloud too is
  right once all is delivered, goroutines, queue, wire and all (`MirrorSplit.WholeConverges`).
- The report of a new session's start, delayed behind its announcement, can stop the timer of a prompt that came in
  between: the session stays BUSY with no timer (`MuxRaces.StartSwallowsTimer`). A BUSY session has a way back to IDLE at
  every moment exactly if no such report is resumed while nobody is about to arm the timer again
  (`MuxArmed.CoveredIff`, an equivalence over every local run). The report can also say the session awaits permission when
  it was to say IDLE: every change is told exactly once, in its own state, exactly if no such report was made
  (`MuxSplit.EveryChangeToldOnce`, an equivalence). The thread index never goes wrong, a peer's frames, hellos and drops
  included (`MuxSplit.EveryInterleaving`).
- A broadcast made while a client is being replayed the journal can reach it before the row it follows, so that the client
  has every row and last heard what the journal no longer says (`JournalOrder.OlderComesLast`). A client that missed
  nothing last heard the journal's latest word exactly if it was never handed an older row after a newer one
  (`JournalOrder.NewestIff`, `JournalOrder.LastHeardIsLatestIff`, equivalences).
- `OnDisconnect` runs after `conn` was cleared: if the laptop reconnects and says hello in between, the late callback
  empties the fresh table, and so can a packet a replaced connection had read. What the attached peer said stands
  exactly if no handler but its own is left (`Proxy.FreshStateStands`, an equivalence).
- With nobody attached and no callback owed the table is empty, but for rows that a replaced connection's packet made
  after the callback (`Proxy.StateDiesWithPeer`, `Proxy.LatePacketStays`); such packets and nothing else break that
  (`Proxy.MoveKeepsIff`, an equivalence).
- Drainers of one reply queue overlap. Every reply goes out exactly once and in order exactly if at each send its
  message is still at the head and nobody has handed it over (`DrainRace.ExactlyIfTimely`, an equivalence); two that peek
  before either dequeues send the first twice and lose the second (`DrainRace.CollisionLoses`).
- A web reply is queued untried, but the flush that follows every delivery offers it to a live endpoint like any other
  (`Delivery.DeliverWithResult`, `Delivery.FlushPending`).
- A relay-owned terminal overtakes queued replies; order survives exactly when everything queued says the same
  (`Delivery.SendInputResult`).
- Uninstalling undoes installing exactly on clean settings; a `hooks` value that is not an object, or a wanted event
  whose value is not an array, is overwritten and lost (`Installer.UninstallUndoesInstall`).
- A pid whose correlated set shrinks, or a session shared by a vanished and a silent pid, leaves endpoints that no
  process stands behind or processes without endpoints (`Processes.SweepAgrees`, an equivalence). A session that outlives
  its process under another pid is reported dead while that pid has it (`Processes.DeadAreGone`, an equivalence).
- The three buffers agree on ordered stamps; on unordered ones expire-then-cap and cap-then-expire differ, and the
  prefix eviction keeps expired items behind fresh ones (`Buffers.OrdersAgree`, `Buffers.PrefixIsAll`, equivalences).
- The terminal responder's tail of 8 bytes is more than the 4 it needs, and 3 would not do
  (`Terminal.TailIsEnough`, `Terminal.ShorterTailLoses`).

## Model

| member | source | states |
|---|---|---|
| MuxRuns.EveryRun | host/internal/mux/mux.go:173-218 | in every serial run of ingests, deaths, timer firings and collections: both maps agree, BUSY rows and pending timers pair up, nothing rests in STARTING, and each row's state is what the latest frame bearing its id decodes to |
| MuxRuns.FramesAlone | host/internal/mux/mux.go:659-701 | in every serial run the frames alone, replayed, give every session's state, an absent row counting as DEAD |
| MuxRuns.OneTimerPerBusyRow | host/internal/mux/mux.go:703-729 | a session is BUSY exactly if it has one pending idle timer, and no timer belongs to anything else |
| MuxRuns.NoFrameRepeats | host/internal/mux/mux.go:659-701 | over a whole run, between reaps, consecutive frames of one session tell different states |
| MuxRuns.TableBound | host/internal/mux/mux.go:641-657 | over a whole run the table never exceeds the larger of MaxSessions and the most sessions ever non-DEAD at one instant, an accepted event's row counted from its creation |
| MuxInvariants.IngestKeepsIndex | host/internal/mux/mux.go:641-657 | an ingest, with creation and reaping, keeps threads[t] exactly the ids on thread t |
| MuxInvariants.IngestTells | host/internal/mux/mux.go:190-217 | an ingest emits a telling frame, and only as its last one, exactly for the row whose state it changed, with the new state |
| MuxInvariants.IngestCovers | host/internal/mux/mux.go:201-209 | an ingest keeps BUSY rows and pending timers paired |
| MuxInvariants.MarkDeadKeeps | host/internal/mux/mux.go:261-275 | a death keeps every invariant and tells itself, once |
| MuxInvariants.FireIs | host/internal/mux/mux.go:709-729 | a pending timer that goes off turns its row IDLE, tells so as inferred, and is gone |
| MuxInvariants.FireKeeps | host/internal/mux/mux.go:709-729 | a firing keeps every invariant |
| MuxStates.TurnedAwayIff | host/internal/mux/mux.go:173-188 | an event is rejected exactly if it names no session or is of no known type, and dropped exactly if it is neither a prompt nor an assistant message and its key was stamped within the window; such an event changes nothing, and an accepted one that can be dropped stamps its key |
| MuxStates.IngestDecides | host/internal/mux/mux.go:828-858 | after an accepted event the row awaits permission exactly if the event is a permission prompt, or a start of a session already waiting; the same said of BUSY, IDLE and DEAD |
| MuxStates.StateIsLastSaid | host/internal/mux/mux.go:173-218 | over every serial run a session's state is the one its last accepted state-bearing event, its death or its idle timer going off gave it; a start revives it to IDLE only after its death or with no row |
| MuxStates.IngestWrites | host/internal/mux/mux.go:828-858 | which of the three snippets an accepted event writes, with what of its text, and when it clears one; its source and its time |
| MuxStates.IngestIdentifies | host/internal/mux/mux.go:813-826 | agent, directory, thread and label are those of the event that made the row, ever after |
| MuxStates.IngestSpares | host/internal/mux/mux.go:731-751 | a row is given up only for a new one in a full table, and is then a DEAD one no other is older than |
| MuxStates.IngestShows | host/internal/mux/mux.go:190-209 | an accepted event puts out the announcement of a new row and then its state if that changed, each frame with the row's own thread, label, agent, texts, prompt and kind of waiting, in that order |
| MuxStates.OthersShow | host/internal/mux/mux.go:703-729 | a death shows the row ended, a timer going off shows it idle and inferred so, and neither anything else |
| MuxSplit.EveryInterleaving | host/internal/mux/mux.go:753-759 | with the sink called outside the lock, in every interleaving of ingests, deaths, timers and sink calls with a peer's frames, hellos and drops the two maps agree; without a peer no row rests in STARTING |
| MuxSplit.EveryChangeToldOnce | host/internal/mux/mux.go:753-759 | in every interleaving, when no goroutine is in flight the sink was handed each session's changes once each, state by state, exactly if no IDLE of it was reported while it awaited permission; other states are right in any case |
| MuxSplit.OnlyFirstReportsMistell | host/internal/mux/mux.go:190-203 | only the report of a new session, delayed behind its announcement, can be told in another state than the change it reports |
| MuxSplit.SyncIsViews | host/internal/mux/mux.go:377-416 | a snapshot applied under the lock is the run that syncs its views one by one |
| MuxSplit.DropIsRows | host/internal/mux/mux.go:367-374 | and a drop the run that drops its rows one by one |
| MuxOrderly.StepRightIff | host/internal/mux/mux.go:753-759 | a local step from a right rest leaves one exactly if it does not hand over the last frame owed of the session with a state the session is not in |
| MuxOrderly.TellsIff | host/internal/mux/mux.go:753-759 | over every run of ingests, deaths, timers and sink calls of interleaving goroutines: whenever no frame of the session is in flight the latest one bearing its id tells its state, at every moment, exactly if no step so misleads |
| MuxOrderly.OrderlyTells | host/internal/mux/mux.go:753-759 | in particular if no operation, a peer's excluded, alters the session while a frame of it is in flight |
| MuxArmed.StepArmsIff | host/internal/mux/mux.go:659-701 | a local step leaves a covered session covered exactly if it does not resume a delayed report that stops a BUSY row's timer while nothing else is due to arm it |
| MuxArmed.CoveredIff | host/internal/mux/mux.go:703-729 | over every run of ingests, deaths, timers and sink calls of interleaving goroutines: the session, if BUSY, has its idle timer pending, or about to be armed, or its callback about to run, at every moment, exactly if no step so swallows it |
| MuxArmed.OrderlyArms | host/internal/mux/mux.go:703-729 | in particular if no operation, a peer's excluded, alters the session while a frame of it is in flight |
| MuxRaces.RaceMisleads | host/internal/mux/mux.go:753-759 | from every quiet machine with an IDLE row, a prompt and a stop can interleave so that the row ends IDLE, the last frame says BUSY, and the timer left behind corrects nothing |
| MuxRaces.TwoFramesMislead | host/internal/mux/mux.go:753-759 | wherever two goroutines hold frames of a session that tell different states, one order of handing them over leaves the sink told a state the session is not in |
| MuxRaces.StartSwallowsTimer | host/internal/mux/mux.go:659-701 | from a fresh mux, whatever a start and a prompt say: the start's delayed report can stop the prompt's timer, leaving a BUSY row, no timer and a last frame saying IDLE |
| MuxAlone.AloneIsSerial | host/internal/mux/mux.go:173-218 | one operation of the serial mux is one goroutine running to its end with nobody in between |
| MuxAlone.SerialIsInterleaving | host/internal/mux/mux.go:753-759 | every serial run is one of the interleavings |
| SessionMux.Session.Absorb | host/internal/mux/mux.go:828-858 | absorbing an event takes the row to exactly the specified row, every field; what that row is, event by event, is `MuxStates.IngestDecides` and `MuxStates.IngestWrites` |
| SessionMux.Mux.Ingest | host/internal/mux/mux.go:173-218 | the whole new state, which of accepted, rejected or duplicate the event was, and what the prompt-landing hook is given |
| SessionMux.Mux.DuplicateEvent | host/internal/mux/mux.go:625-639 | answers whether the key was stamped within the window, and stamps it otherwise; prompts and assistant messages are exempt |
| SessionMux.Mux.GcRecent | host/internal/mux/mux.go:775-784 | forgets exactly the stamps older than four windows |
| SessionMux.Mux.GetOrCreate | host/internal/mux/mux.go:641-657 | finds the row or adds a fresh one, in a full table after giving up an oldest DEAD row |
| SessionMux.Mux.ReapOldestDead | host/internal/mux/mux.go:731-751 | removes a DEAD row with minimal lastEventAt and its index entry, or nothing if no row is DEAD |
| SessionMux.Mux.EmitTransition | host/internal/mux/mux.go:659-701 | emits the state's frame and stops the idle timer for every state but BUSY and STARTING |
| SessionMux.Mux.MarkDead | host/internal/mux/mux.go:261-275 | a live row turns DEAD, loses its timer and is told ended; anything else changes nothing |
| SessionMux.Mux.FireTimer | host/internal/mux/mux.go:703-729 | a timer that goes off is pending no more and its callback runs on the row |
| SessionMux.Mux.InferIdle | host/internal/mux/mux.go:709-729 | a timer's callback turns a BUSY row IDLE and tells so, and leaves any other row alone |
| SessionMux.Mux.SweepStale | host/internal/mux/mux.go:232-257 | marks dead exactly the silent, non-BUSY rows isLive does not vouch for, and counts them |
| MuxLookup.SweepSpares | host/internal/mux/mux.go:220-257 | a sweep kills the rows it names and rewrites no other |
| SessionMux.Mux.Snapshot | host/internal/mux/mux.go:279-301 | one view per row, each the row's own |
| SessionMux.Mux.SessionForThread | host/internal/mux/mux.go:509-517 | a newest non-DEAD session of the thread's index entry, or none if there is none |
| SessionMux.Mux.ThreadsHello | host/internal/mux/mux.go:476-493 | lists exactly the threads with a non-DEAD session, each with a newest one found by scanning the table |
| MuxLookup.IndexLookupIsScan | host/internal/mux/mux.go:541-557 | the index finds a session for a thread exactly when the scan does, and what it finds is a newest one |
| MuxLookup.SamePick | host/internal/mux/mux.go:476-517 | with distinct lastEventAt values both pick the same session |
| Dedup.CollectionIsInvisible | host/internal/mux/mux.go:775-784 | wherever collections fall in a non-decreasing clock, every accept or drop equals that of a table never collected |
| Dedup.WindowHolds | host/internal/mux/mux.go:625-639 | accepted events of one non-exempt key are at least a window apart and each dropped one lies within a window of an accepted one |
| Dedup.KeysAreInjective | host/internal/mux/mux.go:625-639 | no key serves two (session, type) pairs, whatever bars the session id contains |
| SessionMux.Mux.ApplyUpstream | host/internal/mux/mux.go:305-354 | the whole state after a mirrored frame, nothing re-emitted; what it writes is `UpstreamRows.FrameWrites` and `UpstreamRows.FrameSets` |
| SessionMux.Mux.SessionForUpstream | host/internal/mux/mux.go:418-465 | which row a frame addresses: its own, else its thread's best, else a new one keyed to the frame's thread |
| SessionMux.Mux.Rekey | host/internal/mux/mux.go:446-460 | a row moves to the frame's thread in table and index alike |
| SessionMux.Mux.DropAll | host/internal/mux/mux.go:367-374 | empties both maps and returns a view of every row dropped |
| SessionMux.Mux.SyncSessions | host/internal/mux/mux.go:377-416 | the whole state after a snapshot: a row for each named, non-DEAD view |
| Upstream.FrameHits | host/internal/mux/mux.go:305-354 | a frame changes only its target row, which keeps its thread and takes the told state; the index stays right |
| UpstreamRows.FrameWrites | host/internal/mux/mux.go:305-354 | every field of the row a frame hits: dated by the frame, or by now if it bears no date, and label, agent, directory and each of the three clipped snippets taken from the frame's own field if that says anything |
| UpstreamRows.FrameSets | host/internal/mux/mux.go:333-352 | the state each type of frame gives the row it hits |
| UpstreamRows.LastHeardIsFound | host/internal/mux/mux.go:541-557 | after frames each dated later than all before, a lookup by thread, by index or by scan, finds the live session of the thread last heard of; between equal dates the choice is open |
| Upstream.FrameLandsIff | host/internal/mux/mux.go:418-465 | a telling frame does just what it says exactly if its session has a row or its thread has no live one |
| Upstream.SyncTells | host/internal/mux/mux.go:377-416 | a snapshot gives every session it counts the state it lists and leaves the others alone |
| UpstreamRows.ViewWrites | host/internal/mux/mux.go:377-416 | every field of the row a view makes or refreshes |
| UpstreamRows.SnapshotRoundTrip | host/internal/mux/mux.go:279-301 | a snapshot of a table, synced into an emptied one, gives back every live session's view and no other, if live rows are dated, named and captioned, their snippets fit and their threads are derived |
| Upstream.SyncKeepsIndex | host/internal/mux/mux.go:377-416 | a snapshot keeps the thread index right |
| MirrorSerial.MirrorConverges | host/internal/cloud/cloud.go:126-199 | in every serial run of laptop, bounded queue, wire and cloud, with shared thread derivation and no thread serving two sessions: once all is delivered and nothing was dropped since the hello, every session's cloud state is the laptop's, DEAD counting as absent |
| MirrorSerial.CleanConverges | host/internal/cloud/cloud.go:126-199 | the same for one session over every serial run, threads shared or not, unless a frame missed it |
| MirrorSerial.OwnedIsNeverMissed | host/internal/mux/mux.go:418-465 | where no thread serves two sessions no frame misses any session |
| MirrorSplit.WholeConverges | host/internal/cloud/cloud.go:126-199 | the same with the laptop's goroutines interleaving: unless a step misled the sink about the session or a frame missed it, its cloud state is the laptop's once all is delivered and no frame of it is in flight |
| MirrorSplit.SplitProceeds | host/internal/mux/mux.go:753-759 | whatever goroutines and peers do next to the mux, its log grows by at most one frame, which announces a thread or tells a state of a named session |
| MirrorTurns.TurnsConverge | host/internal/cloud/cloud.go:126-199 | the same where sessions of a thread take turns, none created or altered while another is live, each session keeping its thread: frames may be written over a neighbour on the way |
| MirrorTurns.OwnFits | host/internal/mux/mux.go:418-465 | on a thread in step with the log a frame lands, or hits the one row left of a session that is yet to be told of |
| Mirror.TouchIff | host/internal/cloud/cloud.go:126-199 | over every run, whatever the laptop does, whatever is lost and however threads are shared: after a hello was applied the cloud has the session as the last frame it heard of it told, or else as the hello listed it, at every moment, exactly if no arriving frame misses it |
| Mirror.DeliveryDecides | host/internal/cloud/cloud.go:126-199 | once all the connection took on is delivered the cloud has the session as the last frame carried of it told, or else as the hello listed it, whatever the laptop did and whatever was lost, unless a frame missed it |
| Mirror.ReconnectDecides | host/internal/cloud/cloud.go:126-199 | after a reconnect and full delivery the two sides agree on a session no frame missed exactly if the newest queued frame of it, if any, tells the state it is in |
| MirrorSerial.DropDecides | host/internal/cloud/cloud.go:83-89 | after one more operation on a clean connection and full delivery the two sides agree on a session no frame missed exactly if the operation's frames all fitted the queue or left its live state alone |
| CloudBridge.Bridge.Mirror | host/internal/cloud/cloud.go:83-89 | queues the frame if there is room among 256, else drops it and keeps the queue |
| CloudBridge.Bridge.Pull | host/internal/cloud/cloud.go:186-198 | the writer takes the oldest frame |
| Proxy.StateDiesWithPeer | host/internal/cloud/server.go:127-148 | however connections come, replace each other and go, packets of replaced ones included: unless a packet was stranded, no peer attached and no callback owed means an empty table and index |
| Proxy.MoveKeepsIff | host/internal/cloud/server.go:127-176 | a move keeps the table inside a peer's stay exactly if it does not strand a packet that makes a row |
| Proxy.StrandedShows | host/internal/cloud/server.go:150-176 | a stranded packet always leaves rows with nobody attached and nothing owed |
| Proxy.HelloIsTheTable | host/internal/sink/ws.go:213-239 | right after a hello the table has exactly the sessions it names and counts as alive, each in the listed state |
| Proxy.FreshStateStands | host/internal/cloud/server.go:132-176 | rows the attached peer left stand against every run of the other handlers exactly if there is none: no callback owed and no replaced connection still reading |
| Proxy.OtherWipes | host/internal/cloud/server.go:141-176 | any other handler can empty the table while a peer is attached |
| Proxy.LatePacketStays | host/internal/cloud/server.go:150-176 | a replaced connection's late packet leaves a row with nobody attached and nothing owed |
| Peer.PeerServer.Attach | host/internal/cloud/server.go:127-132 | a new connection becomes the current one, replacing any other |
| Peer.PeerServer.ReadHello | host/internal/sink/ws.go:213-239 | in the proxy role drops everything, then syncs the snapshot; in the other roles the snapshot joins what is there |
| Peer.PeerServer.ReadFrame | host/internal/cloud/server.go:161-176 | applies the frame to the mux |
| Peer.PeerServer.Detach | host/internal/cloud/server.go:133-147 | clears the current connection only if it is this one, and only then owes the callback |
| Peer.PeerServer.OnDisconnect | host/internal/sink/ws.go:187-210 | empties the table and tells the clients that exactly its sessions ended, each under its own thread, label and agent |
| Journal.NoGap | host/internal/sink/ws.go:547-573 | in every interleaving, a client still registered and open after its subscription from n was replayed has been handed every journaled row above n whose fan-out is over, but for those relay debug holds back |
| Journal.DebugHoldsBack | host/internal/sink/ws.go:241-266 | under relay debug no automatic row reaches a client, by fan-out or by replay |
| JournalOrder.NewestIff | host/internal/sink/ws.go:547-573 | over every run: the last row telling of a session that a client was handed is the newest it was handed, at every moment, exactly if no step hands it an older one after a newer |
| JournalOrder.LastHeardIsLatestIff | host/internal/sink/ws.go:547-573 | a client that missed nothing has last heard of a session what the journal last says, exactly if no older row came after a newer one |
| JournalOrder.OlderComesLast | host/internal/sink/ws.go:547-573 | for any two rows telling of a session, a run in which a client gets both and hears the older last |
| Journal.NoForgery | host/internal/sink/ws.go:278-306 | no row handed to any client differs from the journal's row of that number |
| Journal.ReplayIsWhole | host/internal/store/store.go:206-225 | a replay holds every row above the cursor and nothing else |
| HistoryStore.Store.Append | host/internal/store/store.go:136-164 | a stored broadcast, dated, is the journal's next row and its number the new head; one with assistant text is an interaction too; the sessions table stays the journal's projection |
| HistoryStore.Store.ProjectSession | host/internal/store/store.go:166-193 | insert, or keep the old value of each column the broadcast leaves empty |
| HistoryStore.Store.ReplayAfter | host/internal/store/store.go:206-225 | the rows above the cursor, in order |
| HistoryStore.TableTellsLatest | host/internal/store/store.go:166-193 | a sessions row exists exactly for keys with a broadcast and holds each column's last non-empty value, the first time seen and the last |
| HistoryStore.RowTells | host/internal/store/store.go:166-193 | column by column, a row tells what the last broadcast under its key with anything to say said; its state is BUSY, IDLE, DEAD or STARTING after that type of broadcast |
| HistoryStore.AboutIs | host/internal/store/store.go:166-193 | filed under a key is exactly what has that session id, or has none and that thread |
| SinkHub.Client.Enqueue | host/internal/sink/ws.go:661-668 | queues the frame or, when 64 are pending, closes the client and hands it nothing |
| SinkHub.Hub.Unregister | host/internal/sink/ws.go:383-392 | the client goes from the registry and is closed |
| SinkHub.Hub.Fanout | host/internal/sink/ws.go:394-406 | every registered client but the excepted gets the frame, once |
| SinkHub.Hub.Broadcast | host/internal/sink/ws.go:278-306 | journals, then hands every client the journaled row, then mirrors; under relay debug automatic frames are journaled only |
| SinkHub.Hub.ReplayJournal | host/internal/sink/ws.go:547-573 | hands one client the rows above its cursor in order; if it is still open it got them all |
| SinkHub.OpenMeansHanded | host/internal/sink/ws.go:661-668 | a client still open after a run of frames was handed every one of them |
| Delivery.DeliverWithResult | host/internal/delivery/deliver.go:46-95 | a web reply, one behind others or one with no live endpoint is never typed and no adapter is asked; any other goes to the endpoint's adapters and is delivered exactly if one takes it; else it is queued, as given, behind what waits; what was sent and what waits remain what was accepted, in order |
| Delivery.TryImmediate | host/internal/delivery/deliver.go:100-135 | a live endpoint's process is asked first, then its tmux pane, then its terminal if it has one, up to the first that takes the text; nobody is asked without one |
| Delivery.RetryOne | host/internal/delivery/deliver.go:171-183 | one round: the head goes out and leaves the queue exactly if an adapter takes it, or all stays and the attempt is counted |
| Delivery.RetryPending | host/internal/delivery/deliver.go:166-185 | at most 32 queued replies go out, in order from the head; with a live endpoint fewer only if the queue ran empty or every adapter refused the next one; nothing is lost, doubled or reordered in any queue |
| Delivery.FlushPending | host/internal/delivery/deliver.go:188-203 | every queue loses a prefix, which adapters took in order; each listed session with a live endpoint is left with nothing, with 32 fewer, or with a reply its adapters refused |
| Delivery.HookResponse | host/internal/delivery/hooks.go:6-48 | a hook takes the head exactly if it can carry it, and order is kept; a permission request is allowed exactly if the head, trimmed and lowered, is y, yes, approve or allow, denied exactly for n, no, deny or reject, and any other head stays |
| Delivery.SendInputResult | host/internal/inject/inject.go:53-87 | the relay's own terminal is asked first, then delivery as above, a flush of every queue, and the record; a delivered status means written; accepted order is kept exactly unless the terminal overtook a queue holding something else |
| Delivery.OvertakingShows | host/internal/inject/inject.go:63-73 | overtaking a queue leaves the order the same exactly if everything queued equals the text |
| Text.LowerSpells | host/internal/delivery/hooks.go:50-59 | a reply lowers to a word exactly if it spells it, in whatever case |
| Text.TrimIs | host/internal/delivery/deliver.go:51-54 | trimming takes all white space off both ends and nothing else |
| OutboxQueues.PlainKey | host/internal/delivery/outbox.go:70-80 | ids without separators have each its own queue |
| OutboxQueues.NormalizeKeepsTexts | host/internal/delivery/outbox.go:141-153 | reading back loses no sendable message |
| OutboxQueues.NormalizeIs | host/internal/delivery/outbox.go:141-153 | message by message: gone without a session or with a blank text, dated if undated, and otherwise as it was and where it was |
| OutboxQueues.Outbox.ReadQueue | host/internal/delivery/outbox.go:115-153 | drops unusable rows, dates undated ones, keeps order |
| OutboxQueues.Outbox.Enqueue | host/internal/delivery/outbox.go:83-105 | appends the dated, named message to its session's queue and touches no other; refuses an id that names no queue |
| OutboxQueues.Outbox.Dequeue | host/internal/delivery/outbox.go:178-198 | removes and returns the head |
| OutboxQueues.Outbox.Peek | host/internal/delivery/outbox.go:221-233 | returns the head and leaves it |
| OutboxQueues.Outbox.MarkAttempt | host/internal/delivery/outbox.go:236-261 | counts an attempt on the first message with that id; no text moves |
| DrainRace.ExactlyOnce | host/internal/delivery/deliver.go:171-183 | with one drainer at a time, any enqueues and failures between: every message goes out once, in order, or still waits |
| DrainRace.ExactlyIfTimely | host/internal/delivery/deliver.go:171-183 | with peek, send and dequeue as separate steps and any drainers, over every run: at rest each message that left the queue went out once, in order, and no other, exactly if every send was of the head and by nobody before |
| DrainRace.TimelyInMessages | host/internal/delivery/outbox.go:178-233 | then what was sent and what waits is what was queued; of distinct messages only then |
| DrainRace.TimelyIsPrefix | host/internal/delivery/outbox.go:178-233 | at every moment of such a run what was sent is a prefix of what was queued |
| DrainRace.UntimelyRepeats | host/internal/delivery/deliver.go:171-183 | the first send that is not timely puts a message out again |
| DrainRace.AloneIsTimely | host/internal/delivery/deliver.go:171-183 | one drainer at a time only sends so |
| DrainRace.EveryRunIsSolvent | host/internal/delivery/outbox.go:178-198 | with any drainers whatever: the queue is a suffix of what was queued, nothing foreign is sent, and no message leaves without some send having paid for it |
| DrainRace.CollisionLoses | host/internal/delivery/hooks.go:10-46 | from every state at rest with two messages waiting, two drainers can send the first twice and the second never |
| Terminal.QueryShape | host/internal/pty/pty.go:93-101 | ESC is first and only first in every query, and none is longer than five bytes |
| Terminal.PrefixFree | host/internal/pty/pty.go:93-101 | no text has two queries at its front |
| Terminal.IndexFrom | host/internal/pty/pty.go:150-157 | the first occurrence, or -1 exactly when there is none |
| Terminal.AnswerQueries | host/internal/pty/pty.go:127-148 | for every continuation, what is owed for data and continuation is what was written and then what is owed for tail and continuation |
| Terminal.PumpOut | host/internal/pty/pty.go:106-122 | for every stream and every way of cutting it into reads: all is passed on, and the replies are one per position where a query begins in the whole stream, in order |
| Terminal.TailIsEnough | host/internal/pty/pty.go:142-147 | any tail of at least four bytes keeps what later reads could need |
| Terminal.ShorterTailLoses | host/internal/pty/pty.go:142-147 | any shorter tail loses a query for some stream |
| Processes.ProcWatcher.Sweep | host/internal/producers/proc.go:124-212 | the dead are exactly the sessions of processes gone; endpoints are dropped for those and set for every reported session, each with the id, terminal and agent of a process reporting it and the sweep's time; processes found keep their last non-empty set |
| Processes.ProcWatcher.Reap | host/internal/producers/proc.go:143-160 | forgets exactly the processes gone, with their sessions' endpoints |
| Processes.ProcWatcher.Refresh | host/internal/producers/proc.go:162-211 | processes found keep their last non-empty set; every reported session gets an endpoint of a process reporting it |
| Processes.SweepAgrees | host/internal/producers/proc.go:124-212 | after a sweep the endpoints are again those of the live processes, each under a process that has it, exactly if no session was let go or shared |
| Processes.SteadyIsSafe | host/internal/producers/proc.go:124-212 | sets that never shrink and one home per session imply that condition |
| Processes.DeadAreGone | host/internal/producers/proc.go:143-160 | none reported dead is a session the sweep keeps, exactly if no session of a process gone is another's too |
| Processes.ProcWatcher.Run | host/internal/producers/proc.go:109-122 | sweep after sweep of steady reports, each at its own time, the endpoints are those of the live processes and name processes of the last report |
| Delivery.Registry.Set | host/internal/delivery/registry.go:32-41 | stores the endpoint, dated, unless it names no session |
| Delivery.Registry.Remove | host/internal/delivery/registry.go:51-55 | forgets the session and nothing else |
| Installer.UninstallUndoesInstall | host/internal/installer/installer.go:215-309 | uninstall after install gives the settings back, up to empty arrays and an empty hooks object, exactly when they were clean |
| Installer.InstallTwice | host/internal/installer/installer.go:309-327 | a second install with the same options changes nothing, whatever the settings |
| Installer.NewOverOld | host/internal/installer/installer.go:245-265 | new options over old give what only the new ones would, exactly when no wanted event is crowded |
| Installer.CleanIsRoomy | host/internal/installer/installer.go:245-265 | on clean settings that always holds |
| Installer.OthersSurvive | host/internal/installer/installer.go:5-13 | no entry of anybody else in an event's array is lost, moved or changed by install or uninstall, and nothing outside the hooks value is touched |
| Installer.InstallPuts | host/internal/installer/installer.go:245-265 | a wanted event is left as it is if the very entry is there; else what is not ours stays in order and the entry comes last; no other event changes |
| Installer.UnmarkedIs | host/internal/installer/installer.go:360-369 | filtering out our entries goes entry by entry |
| Installer.InstallHooks | host/internal/installer/installer.go:245-270 | merges event by event and reports whether anything changed |
| Installer.InstallClaudeHooks | host/internal/installer/installer.go:215-270 | the nine Claude events, Notification with its matcher |
| Installer.InstallCodexHooks | host/internal/installer/installer.go:374-418 | the eight Codex events in the handler shape |
| Installer.UninstallHooks | host/internal/installer/installer.go:272-307 | strips every array of entries of ours, drops arrays that only held such and a hooks object left empty, and writes nothing if none was there |
| Installer.ContainsEntry | host/internal/installer/installer.go:311-327 | found exactly if the entry is ours and stands there, equal |
| Installer.FilterOutMarker | host/internal/installer/installer.go:360-369 | the entries that are not ours, in order |
| Installer.ClaudeCommand | host/internal/installer/installer.go:206-213 | posts to this host's Claude endpoint, with the token if there is one, and carries the marker the uninstaller looks for |
| Installer.CodexCommand | host/internal/installer/installer.go:391-395 | the same for Codex, always with the token |
| Installer.ClaudeAsks | host/internal/installer/installer.go:230-257 | each Claude entry runs that command within ten seconds, and Notification's alone matches permission prompts |
| Installer.CodexAsks | host/internal/installer/installer.go:391-405 | each Codex entry is a command handler running its command |
| Installer.AskedFor | host/internal/installer/installer.go:230-244 | which events are asked for |
| Installer.MarkedShapes | host/internal/installer/installer.go:329-348 | an entry of either old handler shape, or of the nested one, is ours exactly if it names the host |
| Buffers.GoBuffer.Add | host/internal/backpressure/buffer.go:43-48 | the log grows by the item and the buffer still holds all a later look could want |
| Buffers.GoBuffer.Snapshot | host/internal/backpressure/buffer.go:52-61 | of everything added since the last clear, the last max stamped within ttl, oldest first; a bound that is not positive is off |
| Buffers.GoBuffer.Len | host/internal/backpressure/buffer.go:64-69 | how many items such a look would give |
| Buffers.KotlinBuffer.Snapshot | core-android/src/main/java/com/ambientlink/core/EphemeralBuffer.kt:27-31 | what is left after expiring; by a steady clock, with stamps in order and a bound that is not negative, of all added since the last clear the last max stamped within ttl |
| Buffers.KotlinBuffer.Add | core-android/src/main/java/com/ambientlink/core/EphemeralBuffer.kt:20-25 | for any stamps: cap then expire; by a steady clock and in order, all a later look could want is kept; a negative bound fails |
| Buffers.SwiftBuffer.Snapshot | core-apple/Sources/AmbientLinkCore/EphemeralBuffer.swift:31-35 | the same |
| Buffers.SwiftBuffer.Add | core-apple/Sources/AmbientLinkCore/EphemeralBuffer.swift:24-29 | the same, but for what a failure leaves |
| Buffers.EvictsToStart | host/internal/backpressure/buffer.go:78-93 | on ordered stamps both eviction orders leave the same items |
| Buffers.OrdersAgree | core-apple/Sources/AmbientLinkCore/EphemeralBuffer.swift:24-49 | on any stamps the orders agree exactly if the oldest item the cap keeps is fresh, or nothing the cap drops is |
| Buffers.PrefixIsAll | host/internal/backpressure/buffer.go:80-88 | dropping the expired prefix drops all that is expired exactly when nothing fresh precedes something expired |
| Dictation.PartialBound | host/internal/backpressure/throttle.go:34-57 | over any messages within a span a thread puts out at most 1 + its turn boundaries + span / interval partials |
| Dictation.FirstPartialPasses | host/internal/dictate/dictate.go:86-101 | the first partial with text after a turn begins is put out, whatever other threads do meanwhile |
| Dictation.DroppedIff | host/internal/backpressure/throttle.go:34-57 | in every run from an open gate a partial with text is dropped exactly if one of its thread was put out less than an interval before it with no turn boundary of that thread in between; else it is put out as it came |
| Dictation.FramesFor | host/internal/dictate/dictate.go:77-117 | every begin puts out an active frame, every non-empty commit an end with the full text, every abort an end without one; a partial at most its own text, and nothing else anything |
| Dictation.Handler.Handle | host/internal/dictate/dictate.go:77-117 | the frames put out, the gate, the turns and the commits after each message; which partials get through is `Dictation.DroppedIff` |
| Dictation.Throttle.Allow | host/internal/backpressure/throttle.go:34-46 | passes exactly if the gate has no interval, or the key is unstamped or was stamped an interval ago, and stamps only then |
| Snippets.StripIsClean | host/internal/mux/mux.go:925-942 | no placeholder line is left, however padded, and stripping again changes nothing |
| Snippets.StripKeepsLines | host/internal/mux/mux.go:925-942 | the lines that say something are the same, in order, before and after, each without its padding |
| Snippets.StripJoins | host/internal/mux/mux.go:925-942 | what is left is the lines that are no placeholders, joined by newlines again and trimmed |
| Snippets.StripRedactedSnippets | host/internal/mux/mux.go:927-942 | computes just that text |

## Left out

- MirrorSerial.MirrorConverges: states agree; that snippet texts, labels and times agree too is not claimed, since frames carry only some of them.
- MirrorTurns.TurnsConverge: two sessions of a thread live at once, and frames lost, are outside it; what holds then is `Mirror.TouchIff`.
- Mirror.TouchIff: the cloud drops its table with the cut or not at all; a disconnect callback that runs only after the next hello is `Proxy.FreshStateStands`.
- MuxOrderly.TellsIff: a peer's frames, hellos and drops change rows without a frame of their own and are not among its runs; so too for `MuxArmed.CoveredIff`.
- MuxSplit.EveryInterleaving: this machine keeps rows as values with birth numbers, where `SessionMux` has objects; a goroutine's stale handle is a birth number that no longer matches.
- SessionMux.Mux.Snapshot: the view's last source, preview and awaiting fields, which no modelled reader uses.
- Proxy.HelloIsTheTable: a hello drops and syncs in one move, where the code takes the mux lock once for each.
- Delivery.TryImmediate: which adapter succeeds is left to chance; tmux, console and tty calls are not modelled.
- Processes.ProcWatcher.Run: correlation by lsof, argv and working directory is an input.
- MuxStates.IngestWrites: clipping counts characters, where the code cuts at a byte count.
- Delivery.FlushPending: ids that share a queue once shortened are drained in either order, so which reply was refused is named only up to the queue's new head.
- Installer.OthersSurvive: a value under a wanted event that is not an array, or a hooks value that is not an object, is overwritten; when that loses something is `Installer.UninstallUndoesInstall`.
- `Mux.Close`, the gc goroutine's ticker, `IngestUserInput` and `YankForThread`.
- Purging of old outbox messages, the outbox's files and their faults, ids that collide once shortened to a base name.
- Client frames other than subscriptions, cloud forwarding of inputs, bearer tokens, JSON encoding.
- The store's SQL text, interaction queries and `MarkLanded`; the sessions table is a map.
- Reading and writing settings files, service units, key generation.
- The JSONL tailer and its classifiers, pair links, spawning, the web application, native clients.
- Reconnect backoff and every claim about wall-clock progress.
