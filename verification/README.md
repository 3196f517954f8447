# A verified model of the ferrosonic daemon

ferrosonic is a terminal client for Subsonic music servers. Its daemon owns the play queue and drives mpv, which never
holds more than the current track and one preloaded successor. This project models that daemon in Dafny 4.11 and proves
what its tests and comments promise: that the queue, the position and mpv's playlist agree, that a cancelled download
never starts to play, that overlapping commands act once, that the caches evict what they should and survive a crash,
that play reports, key chords, queue admission, ratings and stars keep their shape, and where exactly the client's mirror
shows the daemon's state. Check it with `dafny verify dfyconfig.toml`.

## How the pieces fit

- `Models`, `Wrappers`: songs, now-playing data, repeat modes, the optional value.
- `QueueEdits`: the in-place queue edits for any entry type, the index map that says where each occurrence goes (so equal
  ids are never confused), and the index tests that decide whether the preloaded successor must be redone.
- `DaemonState`: every critical section under the `state` lock that writes queue, position or now-playing, the rating and
  star passes over the songs included. A run of the daemon, however its tasks interleave, is a sequence of these sections.
  `Restart` adds save and restore between them.
- `PlaybackWindow`: commands, ticks, mpv's own hop and finished downloads as events on state plus mpv playlist. The main
  result says exactly which events break the agreement between playlist and queue. `PlaybackMoves` says of every event, from
  the states before and after alone, where it leaves the player. `DaemonCore` is the same engine as a
  class whose methods update fields in place; each method takes the state where its event says and keeps the laws of that
  step, and a driver carries them over whole runs of calls.
- `Prebuffer`: cancel tokens, loading flags, load generations and preloads as interleaved steps, one atomic access or one
  move inside a critical section each; `PrebufferLaws` reads mpv's playlist, the shared cells and the end of a request off
  the labels of a trace. `Advance` does the same for the single-flight automatic advance and the queue position.
- `LruCache`, `TrackCache`, `TrackCacheRuns`: the bounded caches, the offline track cache and its eviction loop, and its
  concurrent downloaders with a crash allowed between any two file-system actions.
- `Scrobble`: the play-reporting tick, and its output over any sequence of ticks. `ScrobbleToggles`: the same while the
  setting and the reporting path are switched at will.
- `KeyChord`: printer, parser and binding table. `Admission`: filters, the index-tracking filter loop and the choice of
  random songs.
- `SongLibrary`, `Rating`, `Stars`: the songs the daemon keeps, and the passes that rate or mark every cached copy and
  undo it again. `Mirror`: the events, and daemon and client as objects. `Likeness`: equality up to what is in doubt, and
  what settles it. `MirrorRuns`: whole runs of both sides, with requests, toggles, refreshes, and the writes to queue,
  playhead and duration that an event carries later or never.

Seconds are reals, ids and URLs strings, counters naturals; the 64-bit byte total saturates as in the source. A stream URL
or cached path determines its song, so mpv's playlist holds song ids. The shuffle outcome, the server's answers, filter
outcomes and mpv's hops are parameters or nondeterministic steps. Atomics are sequentially consistent.

## Where the code falls short of a tidy statement

Each is proved as an exact condition for all inputs, with a concrete case where it helps:

- Under repeat `All` on the last entry, removing entry 0, moving inside the history to or from index 0, and clearing the
  history change the successor without redoing the preload (`PlaybackWindow.WrapHazard`).
- A download preloads after the position it was started at; if the queue was edited meanwhile the successor can be wrong
  (`PlaybackWindow.StalePreloadHazard`).
- "While nothing plays, mpv is empty and nothing waits to load" survives every event but one: removing the last entry
  while it is the current one and a download is pending. mpv is stopped, the download is not, and it later loads over the
  stopped player (`PlaybackWindow.QuietSurvivesIff`, `RemoveLastLeavesDownloadAlive`).
- A stop can find the cancel slot empty because another command has taken the token and not flipped it yet. Once the
  stop holds mpv, an earlier request can still load exactly if such a command holds its token unflipped and a load lies
  ahead of it (`Prebuffer.CancelCoversExactly`, a trace in `StopOvertakenByHeldToken`); the overtaking ends as soon as
  that command takes mpv itself (`HolderEndsIt`).
- The advance guard keeps two triggers of one track end from both advancing only if the second has entered when the first
  commits; one that enters later can advance again (`Advance.SecondAdvanceCommitsIff`, a trace in `OneTrackEndTwoAdvances`).
- Restore copies the saved position without a bounds check (`Restart.RestoreConsistentIff`). A cap of 0 in the bounded
  caches keeps one entry (`LruCache.ResidentIffRecentlyTouched`, with `Room`).
- A load that mpv executes while its reply misses the deadline counts as failed and is not stamped, so a preload can be
  appended behind a track loaded after its capture; exactly then (`Prebuffer.NoLoadBetweenIff`, a trace in
  `AppendAfterLostReply`).
- A refused rating is rolled back to the first copy's rating, which restores the state exactly when all copies agreed; a
  queue event sent during the request keeps the refused rating on screen (`Rating.RollbackRestoresIff`,
  `MirrorRuns.RefusalConvergesIff`, `RefusedRatingStaysVisible`).
- A refused unstar puts the song back at the end of the starred list, as the copy found first elsewhere, or not at all; the
  check whether a song is starred does not look at the playing song, so a refused star can clear the playing song's marker
  (`Stars.RefusedUnstarRestoresIff`, `RefusedStarRestoresIff`). The client learns of neither
  (`MirrorRuns.RefusedToggleMirrorsIff`).
- A backfilled duration, a seek or restart until the next tick, and a removal whose follow-up start fails change the daemon
  without an event. The client lags in exactly the parts written since they were last carried
  (`MirrorRuns.UnsettledIff`, `MirrorExactIff`).
- An empty quick-play album stays in the daemon but not in the mirror; a snapshot after a lagging event stream can leave
  the queue cursor past the end (`Likeness.EmptyQuickPlayAlbumDiffers`, `MirrorRuns.CursorStaysValidIff`).
- The filter documentation speaks of ratings from 1 up (src/config/mod.rs:306); the code also excludes an explicit rating
  of 0 (`Admission.RatingRuleDiffersIff`).
- A song that fails the filters hides a later copy of the same id in the same random batch
  (`Admission.NothingFreshIff`, `FailingCopyHidesPassingOne`).

## Model

| member | source | states |
|---|---|---|
| Models.RepeatMode.NextAuto | src/config/mod.rs:528-543 | the automatic successor of a position inside the queue is inside the queue |
| Models.AutoAdvanceOrder | src/config/mod.rs:528-543 | k advances under each mode: `Off` plays out the rest once and ends, `One` stays, `All` goes round the queue |
| Models.ManualSkipOrder | src/config/mod.rs:553-567 | k skips by hand: `Off` walks to the end, `One` and `All` go round the queue |
| QueueEdits.MoveTracksEveryOccurrence | src/daemon/queue_ops.rs:114-146 | a move permutes the queue and sends every occurrence, duplicates included, injectively to the index the code re-points to |
| QueueEdits.RemoveTracksEveryOccurrence | src/ipc/client.rs:348-358 | a removal drops one occurrence, keeps all others in place order, and re-points every index to the same occurrence |
| QueueEdits.InsertTracksEveryOccurrence | src/ipc/client.rs:305-325 | an insertion adds exactly the block in order and keeps every old occurrence under its shifted index |
| QueueEdits.ShuffleKeepsCurrent | src/daemon/queue_ops.rs:203-223 | taking the current entry out, shuffling and putting it back permutes the queue and keeps that occurrence at its index |
| QueueEdits.MoveSkipIsSound | src/daemon/queue_ops.rs:123-146 | when a move skips the resync the next-up song is unchanged, unless the successor wraps to entry 0; then what it becomes |
| QueueEdits.RemoveSkipIsSound | src/ipc/client.rs:347-358 | the same for removals; the one exception is removing entry 0 under a wrap |
| QueueEdits.AppendSkipIsSound | src/ipc/client.rs:286-297 | appending behind a current entry that is not the last never changes the next-up song, in any mode |
| QueueEdits.InsertSkipIsSound | src/ipc/client.rs:305-325 | inserting elsewhere than right behind the current entry never changes the next-up song, in any mode |
| QueueEdits.ClearHistoryIsSound | src/daemon/queue_ops.rs:149-163 | clearing history keeps the current occurrence and everything behind it; the next-up song changes only under a wrap |
| DaemonState.EditsKeepConsistent | src/daemon/queue_ops.rs:114-163 | move, remove, insert, shuffle and clear-history keep the state consistent and the position on the same entry |
| DaemonState.ReorderingConservesQueue | src/daemon/queue_ops.rs:114-223 | move and shuffle permute the queue |
| DaemonState.InsertConservesQueue | src/ipc/client.rs:299-325 | insert adds exactly the admitted block, in order, and removing the block gives the old queue |
| DaemonState.DroppingConservesQueue | src/ipc/client.rs:335-358 | remove drops exactly one entry, clear-history exactly the prefix before the current entry |
| DaemonState.PlaybackSectionWrites | src/daemon/playback_ops.rs:56-83 | what each playback section leaves in position and now-playing, and that none touches the queue |
| DaemonState.QueueSectionWrites | src/daemon/queue_ops.rs:66-106 | what each section on the queue as a whole leaves in it |
| DaemonState.RewriteReachesEveryCopy | src/daemon/library_ops.rs:735-776 | a rating or star pass reaches every entry and the playing song, and nothing else |
| DaemonState.SectionKeepsConsistent | src/daemon/core.rs:707-752 | every critical section, rating and star passes included, keeps the position in bounds and the current entry's id equal to the playing song's |
| DaemonState.EveryInterleavingIsConsistent | src/daemon/playback_tick.rs:208-238 | under every interleaving of all sections this holds at every release of the state lock |
| Restart.Restored | src/app/state.rs:237-264 | a restored state never plays and never has a negative offset |
| Restart.RestartRoundTrip | src/daemon/polling.rs:88-101 | saving and restoring keeps queue, position and consistency; an active session comes back with the same song and offset, paused |
| Restart.RestartIsIdempotent | src/daemon/polling.rs:88-101 | a second save and restore changes nothing |
| Restart.RestoreConsistentIff | src/app/state.rs:237-264 | the restored state is consistent exactly when the saved position lies inside the saved queue |
| Restart.SnapshotTellsActivity | src/daemon/polling.rs:88-101 | the snapshot says whether anything was playing and has an offset exactly for an active session |
| Restart.ConsistentAcrossRestarts | src/daemon/polling.rs:22-56 | with saves captured and written by separate writers and crashes anywhere, the state is consistent at every lock release and so is every snapshot a crash may bring back |
| Restart.LastWrittenComesBack | src/daemon/polling.rs:22-56 | a crash brings back the state as it was when the snapshot written last was captured, an active session paused at its offset |
| Restart.WritesLiveCapture | src/daemon/polling.rs:22-56 | every write puts on disk what its writer captured in this life of the daemon and has not written before |
| Restart.OnlyWorkMovesState | src/daemon/polling.rs:22-56 | saving never changes the state; between crashes only the sections do |
| PlaybackWindow.StepKeepsInv | src/daemon/playback_ops.rs:392-571 | every event keeps the consistent state, at most two playlist entries, and silence while a selected track is not playing; and it keeps full silence exactly when it is not the removal of a last, current, still downloading entry |
| PlaybackWindow.WindowSurvivesIffNoHazard | src/daemon/playback_ops.rs:392-472 | the playlist keeps showing current song and true successor across an event exactly when the event is neither an unresynced wrap edit nor a stale post-download preload |
| PlaybackWindow.RunRefinesQueue | src/daemon/playback_ops.rs:392-472 | over whole runs from any restored state the window agrees with the queue at every point reached without a hazard |
| PlaybackWindow.QuietSurvivesIff | src/ipc/client.rs:335-392 | from any quiet state, whatever the event, mpv is empty and nothing waits while nothing plays, exactly unless the event is that removal |
| PlaybackWindow.RunKeepsInv | src/daemon/playback_ops.rs:392-523 | consistency, the bound of two entries and silence of a selected, not playing track hold in every state of every run; full silence is the next two rows |
| PlaybackWindow.RunStaysQuiet | src/daemon/playback_ops.rs:477-571 | over whole runs full silence holds at every point reached without such a removal |
| PlaybackWindow.NoiseHasCause | src/ipc/client.rs:359-377 | wherever a run is not quiet, such a removal made it so and it has not been quiet since |
| PlaybackWindow.BrokenWindowHasHazard | src/daemon/playback_ops.rs:392-472 | wherever a run has a broken window, a hazard broke it and nothing has rebuilt it since |
| PlaybackWindow.GaplessCommitsWhatMpvPlays | src/daemon/playback_tick.rs:208-263 | after mpv's own hop the tick decides for a gapless advance and commits the very song mpv moved to, with a whole window again |
| PlaybackWindow.RemoveWindow | src/ipc/client.rs:335-392 | removing any entry keeps the window exactly when it is not entry 0 of a wrapped successor with a different song behind it |
| PlaybackWindow.MoveWindow | src/daemon/queue_ops.rs:114-146 | the same condition for moves |
| PlaybackWindow.ClearHistoryWindow | src/daemon/queue_ops.rs:149-163 | the same condition for clearing history |
| PlaybackWindow.AppendWindow | src/ipc/client.rs:280-297 | appending keeps the window in every mode |
| PlaybackWindow.InsertWindow | src/ipc/client.rs:299-330 | inserting keeps the window in every mode |
| PlaybackWindow.ShuffleWindow | src/daemon/queue_ops.rs:203-223 | shuffling keeps the window for every shuffle outcome |
| PlaybackWindow.SetRepeatWindow | src/daemon/settings_ops.rs:349-368 | changing the repeat mode keeps the window |
| PlaybackWindow.TickWindow | src/daemon/playback_tick.rs:163-308 | a tick keeps the window whatever mpv shows, hop included; when it advances is `PlaybackMoves.TickGoes` |
| PlaybackWindow.PrebufferDoneWindow | src/daemon/core.rs:1226-1246 | a finished download keeps the window exactly when the position it preloads after still has the queue's true successor |
| PlaybackWindow.GoToKeeps | src/daemon/core.rs:655-703 | Next and automatic advance, with auto-continue and end of queue, keep invariant and window |
| PlaybackWindow.PrevKeeps | src/daemon/playback_ops.rs:268-324 | Previous, with restart and wrap, keeps invariant and window; where it goes is `PlaybackMoves.PrevGoes` |
| PlaybackWindow.ReplaceKeeps | src/daemon/queue_ops.rs:66-106 | replacing the queue keeps invariant and window |
| PlaybackWindow.RemoveFirstUnderWrapBreaksWindow | src/ipc/client.rs:347-358 | a concrete queue where the wrap exception makes the daemon show one song while mpv plays another |
| PlaybackWindow.MoveDuringDownloadBreaksWindow | src/daemon/core.rs:1226-1246 | a concrete run where a move during the download leaves the wrong successor preloaded |
| PlaybackWindow.RemoveLastLeavesDownloadAlive | src/ipc/client.rs:359-377 | after any such removal the finished download loads its track while nothing is selected or playing |
| PlaybackWindow.LastOfTwoIsReached | src/daemon/queue_ops.rs:66-106 | the queue of the first concrete case is one command away from a fresh daemon |
| PlaybackWindow.DownloadingIsReached | src/daemon/core.rs:850-934 | so is the download of the second |
| PlaybackWindow.RemovedTrackPlaysAnyway | src/ipc/client.rs:359-377 | a run of three events from a fresh daemon that ends with mpv on a removed track, the queue empty and nothing selected |
| PlaybackMoves.NextGoes | src/daemon/playback_ops.rs:169-202 | Next plays the following entry; behind the last one `One` and `All` wrap, and `Off` plays what auto-continue adds or stops |
| PlaybackMoves.AdvanceGoes | src/daemon/playback_ops.rs:208-262 | an automatic advance does the same, except that `One` stays on its entry |
| PlaybackMoves.PrevGoes | src/daemon/playback_ops.rs:268-324 | within three seconds Previous plays the entry before, or round to the last under `One` and `All`; otherwise the same entry restarts |
| PlaybackMoves.PrevPresses | src/daemon/playback_ops.rs:268-324 | k presses of Previous within three seconds go back k entries |
| PlaybackMoves.NextPresses | src/daemon/playback_ops.rs:169-202 | k presses of Next go where k skips by hand lead |
| PlaybackMoves.NextThenPrev | src/daemon/playback_ops.rs:169-324 | Next and at once Previous is back on the old entry, wherever Next stays inside the queue |
| PlaybackMoves.PrevThenNext | src/daemon/playback_ops.rs:169-324 | and the other way round |
| PlaybackMoves.ResumeGoes | src/daemon/playback_ops.rs:91-141 | a resume plays the selected entry, from the kept second if paused and from the top if stopped |
| PlaybackMoves.PauseThenResume | src/daemon/playback_ops.rs:56-141 | pause and resume: the same entry plays on from the same second |
| PlaybackMoves.ToggleGoes | src/daemon/playback_ops.rs:31-45 | the toggle pauses, resumes or starts by state |
| PlaybackMoves.PlayIndexGoes | src/daemon/playback_ops.rs:330-387 | the entry asked for plays from its start; an index outside the queue changes nothing |
| PlaybackMoves.SeekGoes | src/daemon/playback_ops.rs:579-592 | a seek moves the playhead alone |
| PlaybackMoves.StopsGo | src/daemon/playback_ops.rs:477-571 | what each of the three stops keeps, with mpv empty and no download waiting |
| PlaybackMoves.ReplaceGoes | src/daemon/queue_ops.rs:66-106 | the queue is the admitted songs and the wanted one plays or is being fetched; without one the old song plays on |
| PlaybackMoves.ShuffleLibraryGoes | src/daemon/queue_ops.rs:166-201 | a non-empty random batch becomes the queue and its first song plays |
| PlaybackMoves.AppendGoes | src/ipc/client.rs:280-297 | the queue grows at its end by exactly the admitted songs, and what plays plays on |
| PlaybackMoves.InsertGoes | src/ipc/client.rs:299-330 | the admitted songs stand behind the given entry, and the position follows its entry |
| PlaybackMoves.RemoveGoes | src/ipc/client.rs:335-392 | one entry goes; if it was the current one the next plays, or everything stops behind the last |
| PlaybackMoves.MoveGoes | src/daemon/queue_ops.rs:114-146 | the entry stands at its new place, the others in their old order, and the position on its entry |
| PlaybackMoves.ClearHistoryGoes | src/daemon/queue_ops.rs:149-163 | the current entry becomes the first and plays on |
| PlaybackMoves.ShuffleGoes | src/daemon/queue_ops.rs:203-223 | the current entry keeps its place and plays on, the others come in the shuffled order |
| PlaybackMoves.SetRepeatGoes | src/daemon/settings_ops.rs:349-368 | a mode change touches nothing but the mode and the preload |
| PlaybackMoves.EditsElsewhereLeavePreload | src/daemon/queue_ops.rs:123-146 | an edit away from the current entry and the one behind it leaves mpv's playlist as it is |
| PlaybackMoves.PrebufferDoneGoes | src/daemon/core.rs:1226-1246 | the fetched song sounds and the state stays |
| PlaybackMoves.TickGoes | src/daemon/playback_tick.rs:163-348 | a tick leaves the current entry exactly if it plays and mpv is on the preloaded song, or under two seconds are left with nothing preloaded, or mpv ran out; it then goes to the automatic successor, and otherwise only fills in playhead, missing duration and preload |
| PlaybackMoves.TickSkipsIff | src/daemon/playback_tick.rs:163-169 | a tick decides nothing exactly if nothing is selected to play or mpv is not running |
| PlaybackMoves.RunKeepsInRange | src/daemon/playback_tick.rs:210-263 | in every run mpv is on an entry it has, as the tick relies on |
| DaemonCore.Core.PreloadNextTrack | src/daemon/playback_ops.rs:392-446 | in place: appends the queue's successor only to a playlist of exactly one entry |
| DaemonCore.Core.ResyncGaplessPreload | src/daemon/playback_ops.rs:451-472 | in place: the resync of the window model |
| DaemonCore.Core.CommitPlayState | src/daemon/core.rs:707-752 | in place: commits position and song together, or nothing |
| DaemonCore.Core.Dispatch | src/daemon/core.rs:850-934 | in place: Direct load or Buffered start of the window model |
| DaemonCore.Core.Next | src/daemon/playback_ops.rs:169-202 | in place: takes the engine where the Next event says |
| DaemonCore.Core.Advance | src/daemon/playback_ops.rs:208-262 | in place: takes the engine where the automatic advance says |
| DaemonCore.Core.Prev | src/daemon/playback_ops.rs:268-324 | in place: takes the engine where the Previous event says, which `PlaybackMoves.PrevGoes` states |
| DaemonCore.Core.PausePlayback | src/daemon/playback_ops.rs:56-83 | in place: the Pause event |
| DaemonCore.Core.ResumePlayback | src/daemon/playback_ops.rs:91-141 | in place: the Resume event, at the kept offset |
| DaemonCore.Core.TogglePausePlayback | src/daemon/playback_ops.rs:31-45 | in place: the TogglePause event |
| DaemonCore.Core.StopPlayback | src/daemon/playback_ops.rs:498-523 | in place: stop and clear the queue |
| DaemonCore.Core.HaltKeepQueue | src/daemon/playback_ops.rs:549-571 | in place: stop, forget the song, keep the queue |
| DaemonCore.Core.FinishAtEnd | src/daemon/playback_ops.rs:477-492 | in place: end of queue, keeping queue and song |
| DaemonCore.Core.ExtendWithRandomAndPlay | src/daemon/core.rs:655-703 | in place: auto-continue plays the first new song, or leaves the end of queue to its caller |
| DaemonCore.Core.ReplaceQueueAndPlay | src/daemon/queue_ops.rs:66-106 | in place: the Replace event |
| DaemonCore.Core.AppendSongs | src/ipc/client.rs:280-297 | in place: the Append event |
| DaemonCore.Core.InsertSongsAfter | src/ipc/client.rs:299-330 | in place: the one-by-one insertion loop equals inserting the block, then the InsertAfter event |
| DaemonCore.Core.HandleRemoveFromQueue | src/ipc/client.rs:335-392 | in place: the Remove event |
| DaemonCore.Core.MoveQueueItem | src/daemon/queue_ops.rs:114-146 | in place: the Move event |
| DaemonCore.Core.ClearHistoryBefore | src/daemon/queue_ops.rs:149-163 | in place: the ClearHistory event, returning how many entries went |
| DaemonCore.Core.ShuffleInPlace | src/daemon/queue_ops.rs:203-223 | in place: the Shuffle event |
| DaemonCore.Core.ShuffleLibraryAndPlay | src/daemon/queue_ops.rs:169-200 | in place: the library shuffle |
| DaemonCore.Core.TryGaplessAdvance | src/daemon/playback_tick.rs:208-263 | in place: the gapless step, reporting whether there was a target |
| DaemonCore.Core.ApplyTickAction | src/daemon/playback_tick.rs:279-308 | in place: the tick's action, and whether its tail still runs |
| DaemonCore.Core.UpdatePlaybackInfo | src/daemon/playback_tick.rs:406-420 | in place: gather, decide and apply; takes the engine where `PlaybackMoves.TickGoes` says |
| DaemonCore.Core.PrebufferFinished | src/daemon/core.rs:1226-1246 | in place: the load of the finished download, if its request is still current, and its preload |
| DaemonCore.Core.SeekTo | src/daemon/playback_ops.rs:579-589 | in place: the Seek event |
| DaemonCore.Core.PlayIndex | src/daemon/playback_ops.rs:330-336 | in place: the start of a queue entry |
| DaemonCore.Core.ChangeRepeatMode | src/daemon/settings_ops.rs:349-368 | in place: the repeat mode, with slot 1 dropped and preloaded again |
| DaemonCore.Core.HandleAll | src/daemon/playback_ops.rs:392-472 | however the methods are called one after the other, the object keeps the invariant, its window is whole unless a hazard occurred, and it is silent while nothing plays unless a removal left a download |
| Prebuffer.ReachableInv | src/daemon/core.rs:38-126 | every reachable state of every interleaving satisfies mutual exclusion on mpv, token ownership, gate and preload invariants |
| Prebuffer.LiveRequestIsCancellable | src/daemon/core.rs:110-126 | a live uncancelled request's token is in the cancel slot, or in the hands of a command about to flip it |
| Prebuffer.FlippedThenLockedNeverLoads | src/daemon/core.rs:1039-1064 | once a command has flipped a token and taken mpv, that request never loads, neither by its final load nor by a fallback |
| Prebuffer.CancelCoversAllEarlier | src/daemon/core.rs:1039-1048 | every request installed before a command began to cancel never loads after it holds mpv, if no other command holds its token unflipped at that moment |
| Prebuffer.CancelCoversExactly | src/daemon/core.rs:1039-1048 | exactly: some continuation still loads such a request if and only if another command holds its token unflipped and the request has a load ahead of it |
| Prebuffer.LoadsAfterLockIff | src/daemon/core.rs:1053-1064 | for any request known when a command takes mpv, some continuation loads it if and only if its token is unflipped and it has a load ahead of it |
| Prebuffer.LoadingTrace | src/daemon/core.rs:1226-1239 | each such continuation is the rest of a real trace that ends in the load |
| Prebuffer.HolderEndsIt | src/daemon/core.rs:1039-1048 | once the command that holds the token has mpv, the request never loads again |
| Prebuffer.DisplacedNeverLoads | src/daemon/core.rs:904-925 | a Buffered request displaced by a newer one never loads once the newer one has mpv |
| Prebuffer.StopOvertakenByHeldToken | src/daemon/core.rs:1039-1048 | a concrete interleaving in which that exception loads over a stop |
| Prebuffer.NoStuckGate | src/daemon/core.rs:61-84 | with nobody between the two cancel locks, a raised loading flag belongs to a request that is still running and not cancelled |
| Prebuffer.PlaylistAtMostTwo | src/daemon/playback_ops.rs:393-445 | under every interleaving mpv's playlist has at most two entries |
| Prebuffer.AppendOnlyInSameEpoch | src/daemon/playback_ops.rs:393-445 | a preload appends to at most one entry, and only if mpv confirmed no load since the generation was captured |
| Prebuffer.NoLoadBetweenIff | src/audio/mpv.rs:513-525 | so no load at all was executed in between exactly if no reply to one was lost |
| Prebuffer.AppendAfterLostReply | src/audio/mpv.rs:513-525 | a concrete trace in which one was |
| Prebuffer.OneHolderStep | src/daemon/core.rs:850-934 | every step keeps mpv in the hands of exactly the actor inside its critical section |
| Prebuffer.TokensStep | src/daemon/core.rs:850-934 | every step keeps token ownership, although pointer identity is compared in a detached cleaner task |
| Prebuffer.GateStep | src/daemon/core.rs:1039-1048 | every step keeps the gate invariant, although cancel paths disarm their own clearing |
| Prebuffer.SilencedForever | src/daemon/core.rs:1158-1249 | a cancelled or finished request stays unable to load for the rest of the run |
| PrebufferLaws.PlaylistMoves | src/daemon/playback_ops.rs:393-445 | in every trace an executed load leaves one entry, an executed stop none, a preload adds one, and nothing else of the daemon but the removal of one entry touches mpv's playlist |
| PrebufferLaws.StopSilences | src/daemon/playback_ops.rs:73-79 | after an executed stop mpv stays empty until the next executed load; no preload gets in between |
| PrebufferLaws.LoadedUntilStopped | src/daemon/core.rs:1053-1064 | what was loaded stays until a stop, unless mpv drops it itself |
| PrebufferLaws.CellIsLastWritten | src/daemon/core.rs:38-126 | cancel slot, loading slot and loading flag name a request exactly if it was installed and nothing that clears them came since |
| PrebufferLaws.FlippedIff | src/daemon/core.rs:1039-1048 | a token is cancelled exactly if a newer request displaced it or a command that took it flipped it |
| PrebufferLaws.StampOutdatesCapture | src/daemon/playback_ops.rs:393-445 | a preload appends only if nothing was stamped, by a load or by the commit of a new play, between its capture and its check |
| PrebufferLaws.KeepsTryingUntilItGivesUp | src/daemon/core.rs:1158-1249 | a request has a load ahead of it until it loads, sees a cancel or shutdown, or its dispatch is dropped; a failed temp file or download does not end it |
| PrebufferLaws.DownloadCleansUp | src/daemon/core.rs:38-84 | a spawned download that ends without a cancel leaves no token in the cancel slot, up to the cleaner it spawned |
| PrebufferLaws.UnspawnedStaysWithDispatch | src/daemon/core.rs:904-990 | without a spawned task the dispatch sees the request through to its end |
| PrebufferLaws.CancelledNeverSettles | src/daemon/core.rs:1240-1248 | a cancelled request never goes on to settle the device rate and unpause |
| Advance.OverlappingAdvancesCommitOnce | src/daemon/playback_ops.rs:208-262 | of any pairwise overlapping automatic advances at most one commits, and once; the same for the position is `OverlappingAdvancesMoveOnce` |
| Advance.SupersededAdvanceChangesNothing | src/daemon/playback_ops.rs:221-262 | an advance during whose wait a new play instance began never commits; the same for the position is `SupersededLeavesPosition` |
| Advance.SecondAdvanceCommitsIff | src/daemon/playback_ops.rs:208-240 | when one advance commits, another can still commit if and only if it was triggered but has not entered |
| Advance.SecondEntersAfterFirstLeft | src/daemon/playback_ops.rs:208-224 | if two advances both commit, the later entered after the earlier had left |
| Advance.OneTrackEndTwoAdvances | src/daemon/playback_ops.rs:208-240 | a concrete trace: two triggers under one play instance, the first commits and the second still can |
| Advance.CoalescedNextChangesNothing | src/daemon/playback_ops.rs:169-202 | a Next that saw an advance in flight never commits |
| Advance.TransitionsAreSerialized | src/daemon/playback_ops.rs:354-387 | while one call is inside its transition no other play, skip or advance commits |
| Advance.ReachableFlagOwned | src/daemon/playback_ops.rs:208-224 | the in-flight flag is up exactly while the advance that won it has not left |
| Advance.LosingAdvanceNeverCommits | src/daemon/playback_ops.rs:208-224 | an advance that enters while another is in flight never commits |
| Advance.PositionMoves | src/daemon/playback_ops.rs:169-262 | queue position and play instance change with commits and queue edits only, and as those say |
| Advance.PositionIsLastWritten | src/daemon/playback_ops.rs:169-262 | the position is what the last such step left |
| Advance.SupersededLeavesPosition | src/daemon/playback_ops.rs:221-262 | no step of a superseded advance, from its capture on, changes the position |
| Advance.CoalescedLeavesPosition | src/daemon/playback_ops.rs:169-202 | no step of a Next that saw an advance in flight changes it |
| Advance.OverlappingAdvancesMoveOnce | src/daemon/playback_ops.rs:208-262 | of all steps of pairwise overlapping advances at most one in the whole trace changes the position |
| LruCache.CacheInsert | src/daemon/library.rs:121-146 | the insertion with its eviction loop keeps the newest entries below the cap and adds the key as most recent |
| LruCache.Lru.Lookup | src/daemon/library.rs:50-62 | a hit returns the value and makes the key most recent, a miss changes nothing |
| LruCache.Lru.Put | src/daemon/library.rs:76-95 | insertion into the cache object, map and queue staying coherent |
| LruCache.InsertKeepsCoherent | src/daemon/library.rs:76-146 | map and queue hold the same keys without duplicates, within the cap |
| LruCache.CacheIsRecencyList | src/daemon/library.rs:50-95 | after any gets and inserts the queue is the recency list of the touch history |
| LruCache.ResidentIffRecentlyTouched | src/daemon/library.rs:50-95 | a key is resident exactly when it was touched and fewer than cap distinct keys were touched since |
| LruCache.ResidentHoldsLastInserted | src/daemon/library.rs:50-95 | a resident key holds its last inserted value |
| LruCache.InsertsAreTheOnlyTouches | src/daemon/library.rs:121-146 | with inserts alone the touch history is the insert history |
| TrackCache.Store.constructor | src/daemon/track_cache.rs:42-58 | opening keeps exactly the entries whose file exists, with the exact total and nothing in flight |
| TrackCache.Store.PathFor | src/daemon/track_cache.rs:68-76 | a lookup touches and returns exactly when entry and file exist |
| TrackCache.Store.Begin | src/daemon/track_cache.rs:86-95 | a download starts exactly when the id is neither indexed nor in flight |
| TrackCache.Store.Commit | src/daemon/track_cache.rs:98-110 | a commit indexes, accounts and persists |
| TrackCache.Store.Abandon | src/daemon/track_cache.rs:112-115 | in place: an abandoned download gives its slot back |
| TrackCache.Store.EvictTo | src/daemon/track_cache.rs:118-142 | eviction ends at or below the cap with the exact total, evicts nothing more recent than a survivor, and stops as early as possible |
| TrackCache.Store.EvictInOrder | src/daemon/track_cache.rs:129-138 | in place: the loop removes files and entries oldest first and stops at the first point below the cap |
| TrackCache.SortByAge | src/daemon/track_cache.rs:122-128 | the eviction order lists every id once, oldest first |
| TrackCache.CommitExactIff | src/daemon/track_cache.rs:98-110 | the total stays the exact sum after a commit of a new id exactly when it does not overflow 64 bits |
| TrackCache.EmptiedOnlyByOversizedTrack | src/daemon/track_cache.rs:118-142 | the cache empties only when the most recent track alone exceeds the cap |
| TrackCache.EvictionIsDetermined | src/daemon/track_cache.rs:118-142 | with distinct last uses the set of evicted tracks is determined |
| TrackCache.LatestGoesLast | src/daemon/track_cache.rs:118-142 | a track used after all others is evicted only when everything is |
| TrackCache.UsedTrackIsLatest | src/daemon/track_cache.rs:68-110 | a lookup that finds its file, and a commit, make the track such a one |
| TrackCache.UseLeavesTheRest | src/daemon/track_cache.rs:68-110 | neither changes what is known of another track, and a lookup changes neither file nor size |
| TrackCacheRuns.InvStep | src/daemon/core.rs:801-846 | every step of any downloader, lookup, eviction or crash keeps slots, complete files, names and the exact total |
| TrackCacheRuns.ReachableCacheIsSound | src/daemon/core.rs:801-846 | in every reachable state in-flight ids are not indexed, each has one downloader, the total is exact, and finished files are complete |
| TrackCacheRuns.IndexedFilesAreWhole | src/daemon/track_cache.rs:42-115 | from any crash and restart on, while nobody deletes files from outside, every indexed entry names a complete file |
| TrackCacheRuns.PersistedTrackStays | src/daemon/core.rs:801-846 | a downloaded track whose commit was persisted stays indexed with its file through any number of crashes until it is evicted or its file is deleted from outside |
| TrackCacheRuns.FitsUntilNextCommit | src/daemon/core.rs:821-835 | from the end of a populate until the next commit, crashes included, the cache fits the cap that populate had read, in memory and as persisted |
| TrackCacheRuns.DownloadSucceeds | src/daemon/core.rs:801-815 | undisturbed, a download comes to its final place whole, with nothing of its part file left |
| TrackCacheRuns.CommitSucceeds | src/daemon/core.rs:826-836 | its commit indexes it at its size, persists the index and ends the task |
| TrackCacheRuns.FailureLeavesNothing | src/daemon/core.rs:838-845 | a failed download leaves neither entry nor reservation nor part file |
| TrackCacheRuns.SecondDownloadDeclines | src/daemon/core.rs:801-810 | a task that finds its track indexed or in flight ends at once and changes nothing |
| TrackCacheRuns.LookupMakesLatest | src/daemon/track_cache.rs:68-76 | a lookup by anyone makes the track the last to be evicted |
| TrackCacheRuns.WholePartWasDownloaded | src/daemon/core.rs:811-815 | a part file counts as whole only after its download finished |
| Scrobble.Scrobbler.Tick | src/daemon/scrobble.rs:101-205 | in place: one tick's new tracking state and its reports, in order |
| Scrobble.ReachedIff | src/daemon/scrobble.rs:40-55 | the threshold: four minutes, or half the length of a track of over half a minute |
| Scrobble.MillisecondsRoundDown | src/daemon/scrobble.rs:57-61 | positions are whole milliseconds rounded down, within 64 bits |
| Scrobble.LabelsNameStates | src/daemon/scrobble.rs:164-182 | the three state names are distinct and none opens a session |
| Scrobble.RunsAreMaximal | src/daemon/scrobble.rs:119-140 | the cut of the ticks loses nothing and cuts exactly where song or instance changes |
| Scrobble.StreamIsSessions | src/daemon/scrobble.rs:101-205 | on the playbackReport path the stream is exactly one session per maximal run of one song and instance |
| Scrobble.SessionShape | src/daemon/scrobble.rs:119-180 | a session is `starting`, then state labels with no two adjacent equal, then, once closed, `stopped` |
| Scrobble.StoppedBeforeEveryStart | src/daemon/scrobble.rs:119-160 | every `starting` but the first directly follows a `stopped` |
| Scrobble.ClassicStreamByRuns | src/daemon/scrobble.rs:101-205 | on the classic path the stream is what each run by itself prescribes, in order |
| Scrobble.ClassicRunCounts | src/daemon/scrobble.rs:40-50 | a run sends one NowPlaying exactly if it was ever seen playing, and one Submission exactly if it was not first seen past the threshold and reached it while playing or stood past it at its end |
| ScrobbleToggles.UnswitchedIsStream | src/daemon/scrobble.rs:101-205 | between switches the reports are the stream of the previous rows |
| ScrobbleToggles.SwitchingOffForgets | src/daemon/scrobble.rs:119-120 | switching off sends nothing, and afterwards everything is reported as after a start |
| ScrobbleToggles.StreamIsCutAtRuns | src/daemon/scrobble.rs:119-140 | whatever path each tick is on, a stream is its earlier part, one closing report decided by the new run's first tick, and the new run's own reports |
| ScrobbleToggles.SwitchedRunCounts | src/daemon/scrobble.rs:119-195 | how many submissions one run causes under any switching of the path, from its own ticks and from its closing |
| ScrobbleToggles.SwitchedOnPastThreshold | src/daemon/scrobble.rs:139-141 | a play already past the threshold when reporting comes back on is not submitted again |
| ScrobbleToggles.SubmittedOncePerPlay | src/daemon/scrobble.rs:101-205 | under any switching a song is submitted at most once for each time it was first seen below the threshold |
| KeyChord.ParseChord | src/config/keybind.rs:113-178 | the prefix-stripping loop parses any order and repetition of modifiers |
| KeyChord.PrintThenParse | src/config/keybind.rs:63-178 | a chord survives printing and parsing exactly when it is canonical |
| KeyChord.RoundTrip | src/config/keybind.rs:63-178 | whatever string parses, printing its chord and parsing again gives the same chord |
| KeyChord.ShowIsInjective | src/config/keybind.rs:63-96 | canonical chords print differently |
| KeyChord.NamesAreTheTable | src/config/keybind.rs:71-152 | a string names a key exactly if the table has it, and every named key prints so but for the alias of Esc |
| KeyChord.PrefixAddsModifier | src/config/keybind.rs:113-178 | a modifier prefix in front of anything that parses only adds its modifier, Shift also the capital |
| KeyChord.CapitalsByPlace | src/config/keybind.rs:160-176 | the capital of a letter is the one in the same place of the alphabet |
| KeyChord.DigitsByPlace | src/config/keybind.rs:153-158 | function keys take the ten ASCII digits, each worth its place |
| KeyChord.Resolve | src/config/keybind.rs:353-389 | a chord goes to the first unreserved binding that wants it; the warnings answer the other bindings one by one in order, with their action, their chord and the reason that applies |
| KeyChord.LosersAreTheRest | src/config/keybind.rs:353-389 | a binding is among the warned ones exactly when it does not own its chord |
| KeyChord.DefaultsDoNotCollide | src/config/keybind.rs:301-338 | without overrides every action is reachable under its default chord |
| Admission.TighterFiltersOnlyRemove | src/daemon/playback_filters.rs:13-61 | filters that exclude more by every criterion admit no new song |
| Admission.PassesIff | src/daemon/playback_filters.rs:13-61 | a song passes exactly if every criterion that is set, and for which it has data, accepts it |
| Admission.MatchesUpToCaseIff | src/daemon/playback_filters.rs:41-58 | genres and artists match exactly if they are the same string in small ASCII letters |
| Admission.SmallLettersByPlace | src/daemon/playback_filters.rs:41-58 | ASCII capitals and small letters match place by place, nothing else does |
| Admission.RatingRuleDiffersIff | src/config/mod.rs:305-308 | the code's verdict differs from the documented rule exactly on songs rated 0 that nothing else excludes, while a minimum is set |
| Admission.RatedZeroIsExcluded | src/daemon/playback_filters.rs:13-20 | a concrete such song |
| Admission.FilterTrackingIndex | src/daemon/queue_ops.rs:32-58 | the loop is the order-preserving filter and re-resolves the tracked index |
| Admission.AdmittedKeepsOccurrence | src/daemon/queue_ops.rs:32-58 | a passing entry ends up behind exactly the passing entries before it |
| Admission.TrackedIndexIsInjective | src/daemon/queue_ops.rs:32-58 | distinct passing entries keep distinct places in order, even with equal ids |
| Admission.OnlyPassingAdmitted | src/daemon/queue_ops.rs:18-58 | exactly the passing songs are admitted |
| Admission.AdmissionIsIdempotent | src/daemon/queue_ops.rs:18-58 | admitting what was admitted changes nothing |
| Admission.PlayFromIsInBounds | src/ipc/client.rs:252-278 | a replacement starts at the wanted occurrence if it was admitted, otherwise at the first song |
| Admission.PickUnplayedRandom | src/daemon/core.rs:608-651 | the nested accumulation loops compute the choice that the next rows describe |
| Admission.PickGuarantee | src/daemon/core.rs:608-651 | at most 20 songs: distinct, passing, not queued and the first such ones in order if any offered song with a new id passes, else the head of the first batch |
| Admission.PickFailsIff | src/daemon/core.rs:608-651 | nothing at all comes back exactly if an attempt fails before any earlier one offered a song to choose |
| Admission.NothingFreshIff | src/daemon/core.rs:630-643 | a batch yields nothing exactly when no song whose id appears there first passes |
| Admission.FallbackIffNonePasses | src/daemon/core.rs:644-650 | when equal ids mean equal verdicts the fallback is taken exactly when no offered song outside the queue passes |
| Admission.FailingCopyHidesPassingOne | src/daemon/core.rs:637-642 | otherwise a failing copy hides a passing one |
| Rating.RateList | src/daemon/library_ops.rs:818-834 | the loop rates exactly the matching songs and remembers the first old rating |
| Rating.Normalized | src/daemon/library_ops.rs:611-613 | zero clears, other ratings lie between one and five |
| Rating.RatesEveryCopy | src/daemon/library_ops.rs:842-897 | after the update every copy has the rating and nothing but ratings of that id differs |
| Rating.RollbackRestoresIff | src/daemon/library_ops.rs:639-642 | update and rollback restore the exact state precisely when all copies agreed |
| Rating.OldRatingIsTheAgreedOne | src/daemon/library_ops.rs:842-897 | copies that agree on a rating yield it in any map order; no copy yields none |
| Stars.RefusedStarRestoresIff | src/daemon/library_ops.rs:542-559 | star and undo restore the exact state precisely when the song was neither in the starred list nor playing with a marker |
| Stars.RefusedUnstarRestoresIff | src/daemon/library_ops.rs:542-559 | unstar and undo restore it precisely when all other copies carried the daemon's marker, the index knew the song, and the list had it once, last and equal to the copy found first elsewhere, or no list had it |
| Stars.MarksEveryCopy | src/app/event_pump.rs:380-428 | after the client's pass every copy outside the starred list has the marker and nothing but that song's markers changed |
| Stars.PassMarksEveryCopy | src/daemon/library_ops.rs:735-813 | the daemon's pass does the same, and its list then has the song exactly if it should and some copy exists |
| Stars.PassDecidesTest | src/daemon/library_ops.rs:717-776 | right after a pass the song counts as starred exactly if it was starred |
| Stars.PlayingDoesNotCount | src/daemon/library_ops.rs:717-733 | the test does not depend on the playing song |
| Stars.SourceIsFirstFound | src/daemon/library_ops.rs:793-806 | the copy put on the starred list is the first of queue, random songs and random album in this order, else one of the cached lists |
| Mirror.State.ApplyRatingToCached | src/daemon/library_ops.rs:842-897 | in place: every copy is rated, and the returned rating is the first copy's in priority order, whatever the map order |
| Mirror.State.ApplySongRatingChanged | src/app/event_pump.rs:453-498 | in place: the client's pass, in its own order, has the same effect on the mirror |
| Mirror.State.BeginRating | src/daemon/library_ops.rs:603-627 | in place: the optimistic section, with ratings above five lowered and zero clearing; without a server it fails and changes nothing |
| Mirror.State.EndRating | src/daemon/library_ops.rs:629-653 | in place: rollback, commit with event, or nothing after a server change |
| Mirror.State.ApplyStarToCached | src/daemon/library_ops.rs:735-776 | in place: every copy outside the starred list is marked, the list and its index follow |
| Mirror.State.SyncStarredSongs | src/daemon/library_ops.rs:778-813 | in place: a starred song is marked where the list has it, else appended as the copy found first; an unstarred one leaves the list |
| Mirror.State.SongIsStarred | src/daemon/library_ops.rs:717-733 | the index or any marked copy but the playing song decides |
| Mirror.State.BeginToggle | src/daemon/library_ops.rs:540-548 | in place: the test and the optimistic pass of a toggle, in one section |
| Mirror.State.EndToggle | src/daemon/library_ops.rs:555-590 | in place: undone without an event, or the marker's event and, from the same server, the fresh list with its event |
| Mirror.State.ApplySongStarChanged | src/app/event_pump.rs:380-428 | in place: the client's pass marks every copy but those in the starred list |
| Mirror.State.ApplyEvent | src/app/event_pump.rs:53-151 | in place: what each event that carries songs, the playhead, a rating or a star leaves in the mirror |
| Mirror.Client.ApplySongRatingChanged | src/app/event_pump.rs:499-517 | in place: the client's own lists |
| Mirror.Client.ApplySongStarChanged | src/app/event_pump.rs:429-447 | in place: the same for a star |
| Mirror.Client.ClampSelection | src/app/event_pump.rs:178-184 | in place: the clamped cursor |
| Mirror.Clamped | src/app/event_pump.rs:178-184 | the cursor keeps its row while it exists, else goes to the last row, and is none on an empty list |
| Mirror.EventKeepsCachesCoherent | src/app/event_pump.rs:108-148 | events keep the mirrored caches coherent |
| Mirror.MirrorCarries | src/app/event_pump.rs:53-151 | what an event carries is what its part of the mirror shows, in a cache as the most recent entry within 100 albums or 50 playlists, and no other part changes |
| Mirror.StoreCarries | src/daemon/library_ops.rs:15-182 | so had the daemon's own write, defined apart from the client's, before the event |
| Mirror.State.StoreRefreshed | src/daemon/library_ops.rs:15-182 | in place: the daemon's write after each refresh |
| Likeness.ConfirmedRating | src/app/event_pump.rs:453-498 | a confirmed rating makes the song's ratings equal on both sides, whatever refreshes came in between |
| Likeness.RefusedRatingIff | src/daemon/library_ops.rs:639-642 | a rolled-back rating does so exactly when all mirrored copies carry the old rating |
| Likeness.BothMarked | src/app/event_pump.rs:380-428 | marking a song on both sides makes its markers equal |
| Likeness.UnmarkedIff | src/daemon/library_ops.rs:555-559 | marking it on one side only does so exactly when the other side's copies and index carry the marker already |
| Likeness.GrantedIff | src/daemon/library_ops.rs:561-590 | a granted toggle with the fresh list does so exactly when the copies the daemon shows elsewhere still carry the new marker |
| Likeness.EventSettles | src/app/event_pump.rs:53-151 | every other event keeps the likeness, bounded caches and their order included, and settles the parts it carries |
| Likeness.SettledIff | src/app/event_pump.rs:22-36 | with no rating or marker in doubt the sides are equal exactly when the unsettled parts agree |
| Likeness.EmptyQuickPlayAlbumDiffers | src/daemon/library_ops.rs:164-178 | a quick-play event leaves both sides equal exactly when the album is not empty |
| MirrorRuns.StepKeepsInv | src/daemon/library_ops.rs:532-653 | every step of requests, toggles, refreshes, silent writes and broadcasts keeps daemon and mirror equal up to the recorded ratings, markers and parts |
| MirrorRuns.MirrorFollowsDaemon | src/app/event_pump.rs:48-174 | so does every run |
| MirrorRuns.BegunRatingShows | src/daemon/library_ops.rs:603-627 | after the first half of a request every copy of the daemon has the rating, and the mirror is as before |
| MirrorRuns.EndedRatingShows | src/daemon/library_ops.rs:629-653 | after the second all copies on both sides have it, or the daemon's the one rolled back to; after a change of server nothing changed |
| MirrorRuns.ToggleStepShows | src/daemon/library_ops.rs:532-590 | the same for the markers and lists of a toggle |
| MirrorRuns.RefreshShows | src/app/event_pump.rs:53-151 | a refresh shows on both sides what its event carries and changes nothing else |
| MirrorRuns.StaleReplyChangesNothing | src/daemon/library_ops.rs:629-653 | a reply takes effect exactly if the server was not replaced since the request began |
| MirrorRuns.WriteStepShows | src/daemon/playback_tick.rs:310-348 | a write without an event shows on the daemon's side alone, and a duration is filled in only where none is known |
| MirrorRuns.BroadcastShows | src/app/event_pump.rs:22-70 | a broadcast makes its part equal and leaves the daemon alone; a snapshot makes all parts equal |
| MirrorRuns.UnsettledIff | src/daemon/playback_tick.rs:310-348 | a part is recorded as unsettled exactly if a step wrote it and no later step carried it |
| MirrorRuns.MirrorExactIff | src/daemon/library_ops.rs:643-652 | if every rating is granted and no star toggled, the client shows the daemon's state, whenever no request is in flight, exactly if the parts written and not carried since agree |
| MirrorRuns.RefusalConvergesIff | src/daemon/library_ops.rs:639-642 | a refusal leaves the song's ratings equal exactly when all client copies carry the rating rolled back to |
| MirrorRuns.RefusedRatingStaysVisible | src/daemon/library_ops.rs:639-642 | a queue event during a refused request leaves the refused rating on the client |
| MirrorRuns.GrantedToggleMirrors | src/daemon/library_ops.rs:561-590 | a toggle granted at once, with the fresh list, leaves a clean mirror clean |
| MirrorRuns.RefusedToggleMirrorsIff | src/daemon/library_ops.rs:555-559 | a toggle refused at once leaves a clean mirror equal to the daemon exactly if the daemon's two passes cancel out, under the conditions of the two rows on refused stars |
| MirrorRuns.CursorStaysValidIff | src/app/event_pump.rs:22-36 | only the user and a queue broadcast move the queue cursor, and every step keeps it on a row, except a snapshot that shortens the queue below it |

## Left out

- mpv's process, socket and watchdog, and its keeping of played entries at idle: mpv is a playlist with load, append, remove, stop and its own hop.
- mpv commands that fail in the sequential window model; in `Prebuffer` loads and stops may fail, loads also with the reply alone lost.
- Futures dropped in the middle of an mpv command (a load sent but its generation not stamped).
- The final unpause and the device-rate pinning after a load: the generation check there is outside the mpv lock.
- Preloads racing with queue edits or a gapless advance: the window is proved for one event at a time, the count and epoch laws for all interleavings.
- The choice between a cached file and a stream, and the start mode, are one flag of a start.
- The time-based back-off and just-loaded windows of the tick are booleans it observes.
- PlaybackWindow.RunRefinesQueue: mpv's hop is seen by the tick before the next command, as the window law needs; rating and star passes are no events of it, they keep every id.
- KeyChord.RoundTrip: keys printed by their debug name and modifiers other than Ctrl, Alt and Shift are not modelled; which non-ASCII characters are capitals is a parameter, with the blank not one.
- TrackCacheRuns.ReachableCacheIsSound: `file_name_for` is assumed injective and running totals below 2^64; index writes are atomic and succeed.
- MirrorRuns.MirrorFollowsDaemon: a list refresh and its event, and the end of a granted toggle with its events, are one step each; reordering of events of different tasks, and the batch clearing on a change of music folder, are not modelled.
- MirrorRuns.MirrorExactIff: runs with star toggles are covered by MirrorFollowsDaemon and the per-toggle conditions, not by an exact condition for the whole run.
- Mirror.State.ApplyEvent: the artist, album, playlist and folder lists, which hold no song, are not part of the mirrored state here.
- Cover art and the lists without songs: fetched and stored, nothing to keep in step.
- Serialization, wall-clock time, notifications, search history, settings, configuration files and passwords: plumbing.
- The user interface, media keys and D-Bus: no state of their own that the daemon relies on.
