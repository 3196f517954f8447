// The playback engine as a sequential machine: the daemon state, mpv's two-slot playlist, and a
// possible pre-buffer download. mpv only ever holds the current track and one preloaded
// successor; the queue mutators decide by index tests whether that successor must be redone.
// The question is when the window {slot 0, slot 1} still shows what the queue would play.
module PlaybackWindow {
  import opened Wrappers
  import opened Models
  import opened QueueEdits
  import opened DaemonState

  // A Buffered request whose download has not been loaded yet.
  datatype Pending = Pending(id: string, preloadPos: nat)

  // `playlist` holds song ids (a stream URL or cached path determines its song); `slot` is the
  // entry mpv is on.
  datatype Engine = Engine(d: DState, playlist: seq<string>, slot: nat, pending: Option<Pending>)

  // What the outside world answers during one command.
  datatype Env = Env(
    urlOk: bool,            // server configured and the stream URL can be built
    preloadOk: bool,        // the same for the preload
    buffered: bool,         // cold starts pre-buffer (and the track is not cached)
    extension: seq<Child>)  // what auto-continue admits; empty when off or nothing came

  // ----- mpv

  function PlaylistRemove(e: Engine, i: nat): Engine
    requires i < |e.playlist|
  {
    var shorter := Removed(e.playlist, i);
    e.(playlist := shorter,
       slot := if i < e.slot then e.slot - 1 else if e.slot < |shorter| then e.slot else 0)
  }

  function StopMpv(e: Engine): Engine {
    e.(playlist := [], slot := 0)
  }

  function LoadReplace(e: Engine, id: string): Engine {
    e.(playlist := [id], slot := 0)
  }

  // ----- building blocks

  function CancelPrebuffer(e: Engine): Engine {
    e.(pending := None)
  }

  function PreloadNext(e: Engine, at: nat, ok: bool): Engine {
    var next := NextUp(e.d.queue, at, e.d.repeat);
    if next.Some? && ok && |e.playlist| == 1 then e.(playlist := e.playlist + [next.value.id]) else e
  }

  function DropPreload(e: Engine): Engine {
    if |e.playlist| > 1 then PlaylistRemove(e, 1) else e
  }

  function Resync(e: Engine, ok: bool): Engine {
    if e.d.np.state == Playing && e.d.pos.Some? then PreloadNext(DropPreload(e), e.d.pos.value, ok) else e
  }

  function DispatchPlay(e: Engine, id: string, p: nat, buffered: bool, ok: bool): Engine {
    if buffered then StopMpv(e).(pending := Some(Pending(id, p)))
    else PreloadNext(LoadReplace(CancelPrebuffer(e), id), p, ok)
  }

  function PlayAt(e: Engine, p: nat, buffered: bool, startAt: real, env: Env): Engine {
    if p >= |e.d.queue| || !env.urlOk then e
    else
      var committed := e.(d := CommitPlay(e.d, p, true));
      var loaded := DispatchPlay(committed, e.d.queue[p].id, p, buffered, env.preloadOk);
      if startAt > 0.0 then loaded.(d := SetPosition(loaded.d, startAt)) else loaded
  }

  function FinishAtQueueEnd(e: Engine): Engine {
    StopMpv(CancelPrebuffer(e)).(d := StopKeep(e.d))
  }

  function ExtendOrFinish(e: Engine, env: Env): Engine {
    if env.extension == [] then FinishAtQueueEnd(e)
    else
      var extended := e.(d := ExtendAndPlay(e.d, env.extension, env.urlOk));
      if env.urlOk then DispatchPlay(extended, env.extension[0].id, |e.d.queue|, env.buffered, env.preloadOk)
      else FinishAtQueueEnd(extended)
  }

  // Shared tail of manual Next and automatic advance.
  function GoTo(e: Engine, target: Option<nat>, env: Env): Engine {
    if |e.d.queue| == 0 then e
    else if target.Some? then PlayAt(e, target.value, false, 0.0, env)
    else ExtendOrFinish(e, env)
  }

  function NextTrack(e: Engine, env: Env): Engine {
    GoTo(e, if e.d.pos.Some? then e.d.repeat.NextManual(e.d.pos.value, |e.d.queue|) else Some(0), env)
  }

  function AdvanceAuto(e: Engine, env: Env): Engine {
    GoTo(e, if e.d.pos.Some? then e.d.repeat.NextAuto(e.d.pos.value, |e.d.queue|) else Some(0), env)
  }

  function PrevTrack(e: Engine, env: Env): Engine {
    if |e.d.queue| == 0 then e
    else if e.d.np.position < 3.0 && e.d.pos.Some? && e.d.pos.value > 0 then
      PlayAt(e, e.d.pos.value - 1, false, 0.0, env)
    else if e.d.np.position < 3.0 && e.d.pos.Some? && e.d.repeat.PrevWrap(|e.d.queue|).Some? then
      PlayAt(e, e.d.repeat.PrevWrap(|e.d.queue|).value, false, 0.0, env)
    else e.(d := SetPosition(e.d, 0.0))
  }

  function Pause(e: Engine): Engine {
    if e.d.np.state == Playing then StopMpv(CancelPrebuffer(e)).(d := PauseState(e.d)) else e
  }

  function Resume(e: Engine, env: Env): Engine {
    if e.d.np.state == Playing || e.d.pos.None? then e
    else PlayAt(e, e.d.pos.value, false, if e.d.np.state == Paused then e.d.np.position else 0.0, env)
  }

  function TogglePause(e: Engine, env: Env): Engine {
    match e.d.np.state
    case Playing => Pause(e)
    case Paused => Resume(e, env)
    case Stopped => if e.d.pos.Some? then PlayAt(e, e.d.pos.value, false, 0.0, env) else e
  }

  // ----- queue commands

  // A non-empty request that the filters emptied is ignored.
  predicate AllFilteredOut(requested: seq<Child>, admitted: seq<Child>) {
    requested != [] && admitted == []
  }

  function EnqueueReplace(e: Engine, requested: seq<Child>, admitted: seq<Child>, playFrom: Option<nat>, env: Env): Engine {
    if AllFilteredOut(requested, admitted) then e
    else
      var swapped := e.(d := Replace(e.d, admitted, playFrom, env.urlOk));
      if playFrom.Some? && env.urlOk && playFrom.value < |admitted| then
        DispatchPlay(swapped, admitted[playFrom.value].id, playFrom.value, env.buffered, env.preloadOk)
      else swapped
  }

  function EnqueueAppend(e: Engine, requested: seq<Child>, admitted: seq<Child>, env: Env): Engine {
    if AllFilteredOut(requested, admitted) then e
    else
      var longer := e.(d := Append(e.d, admitted));
      if e.d.pos.Some? && e.d.pos.value + 1 == |e.d.queue| then Resync(longer, env.preloadOk) else longer
  }

  function EnqueueAfter(e: Engine, after: nat, requested: seq<Child>, admitted: seq<Child>, env: Env): Engine {
    if AllFilteredOut(requested, admitted) then e
    else
      var longer := e.(d := InsertAfter(e.d, after, admitted));
      if e.d.pos.Some? && InsertAt(e.d, after) == e.d.pos.value + 1 then Resync(longer, env.preloadOk) else longer
  }

  function RemoveFromQueue(e: Engine, p: nat, env: Env): Engine {
    if p >= |e.d.queue| then e
    else
      var shorter := e.(d := Remove(e.d, p));
      if RemoveStops(e.d, p) then StopMpv(shorter)
      else if e.d.pos == Some(p) then PlayAt(shorter, p, false, 0.0, env)
      else if p > 0 && e.d.pos == Some(p - 1) then Resync(shorter, env.preloadOk)
      else shorter
  }

  function MoveItem(e: Engine, from: nat, to: nat, env: Env): Engine {
    if from >= |e.d.queue| || to >= |e.d.queue| || from == to then e
    else
      var moved := e.(d := Move(e.d, from, to));
      if e.d.pos.Some? && MoveResyncs(e.d.pos.value, from, to) then Resync(moved, env.preloadOk) else moved
  }

  function ClearQueueHistory(e: Engine): Engine {
    e.(d := ClearHistory(e.d))
  }

  function ShuffleQueue(e: Engine, rest: seq<Child>, env: Env): Engine
    requires ShuffleOutcome(e.d, rest)
  {
    if e.d.queue == [] then e else Resync(e.(d := Shuffle(e.d, rest)), env.preloadOk)
  }

  function ShuffleLibrary(e: Engine, songs: seq<Child>, env: Env): Engine {
    if songs == [] then e
    else PlayAt(e.(d := ReplaceUnplayed(e.d, songs)), 0, env.buffered, 0.0, env)
  }

  function SetRepeatMode(e: Engine, mode: RepeatMode, env: Env): Engine {
    var changed := e.(d := SetRepeat(e.d, mode));
    if e.d.pos.Some? then PreloadNext(DropPreload(changed), e.d.pos.value, env.preloadOk) else changed
  }

  // ----- the playback tick

  datatype TickInputs = TickInputs(
    isActive: bool, isPlaying: bool, mpvRunning: bool, timeRemaining: real, hasNext: bool, position: real,
    playlistCount: Option<nat>, playlistPos: Option<int>, mpvIdle: Option<bool>, queuePosition: Option<nat>,
    prebufferLoading: bool, justLoaded: bool)

  datatype TickAction = Skip | AdvanceEarly | Preload(fromPos: nat) | GaplessAdvance | AdvanceOnIdle | Continue

  function DecideTick(i: TickInputs): TickAction {
    if !i.isActive || !i.mpvRunning then Skip
    else if !i.isPlaying then Continue
    else if i.hasNext && i.position > 0.5 && 0.0 < i.timeRemaining < 2.0
            && i.playlistCount.Some? && i.playlistCount.value < 2 then AdvanceEarly
    else if i.playlistCount == Some(1) && i.queuePosition.Some? then Preload(i.queuePosition.value)
    else if i.playlistPos == Some(1) then GaplessAdvance
    else if i.mpvIdle == Some(true) && !i.prebufferLoading && !i.justLoaded then AdvanceOnIdle
    else Continue
  }

  // What mpv and the clock show one tick.
  datatype TickView = TickView(hop: bool, idle: bool, justLoaded: bool, preloadDue: bool, timePos: real, mpvDuration: real)

  function GatherTick(e: Engine, v: TickView): TickInputs {
    TickInputs(
      e.d.np.state != Stopped, e.d.np.state == Playing, true,
      e.d.np.duration - e.d.np.position,
      e.d.pos.Some? && e.d.pos.value + 1 < |e.d.queue|,
      e.d.np.position,
      Some(|e.playlist|),
      if e.playlist == [] then None else Some(e.slot),
      Some(v.idle), e.d.pos, e.pending.Some?, v.justLoaded)
  }

  // mpv reaches the end of slot 0 and moves to the preloaded slot 1 on its own.
  function Hop(e: Engine): Engine {
    if |e.playlist| == 2 then e.(slot := 1) else e
  }

  function GaplessStep(e: Engine, env: Env): Engine {
    var n := GaplessTarget(e.d);
    if n.None? then e
    else
      var committed := e.(d := GaplessCommit(e.d));
      var dropped := if e.slot == 1 && e.playlist != [] then PlaylistRemove(committed, 0) else committed;
      PreloadNext(dropped, n.value, env.preloadOk)
  }

  function TickTail(e: Engine, v: TickView): Engine {
    e.(d := BackfillDuration(TickPosition(e.d, v.timePos), v.mpvDuration))
  }

  function TickApply(e: Engine, action: TickAction, v: TickView, env: Env): Engine {
    match action
    case Skip => e
    case AdvanceEarly => AdvanceAuto(e, env)
    case Preload(fromPos) => TickTail(if v.preloadDue then PreloadNext(e, fromPos, env.preloadOk) else e, v)
    case GaplessAdvance => if GaplessTarget(e.d).Some? then GaplessStep(e, env) else TickTail(e, v)
    case AdvanceOnIdle => AdvanceAuto(e, env)
    case Continue => TickTail(e, v)
  }

  function Tick(e: Engine, v: TickView, env: Env): Engine {
    var seen := if v.hop then Hop(e) else e;
    TickApply(seen, DecideTick(GatherTick(seen, v)), v, env)
  }

  // The download task finishes: it loads the file it was started for and preloads after the
  // position it was started at; the direct fallback loads without a preload.
  function PrebufferDone(e: Engine, fallback: bool, env: Env): Engine {
    if e.pending.None? then e
    else
      var loaded := LoadReplace(CancelPrebuffer(e), e.pending.value.id);
      if fallback then loaded else PreloadNext(loaded, e.pending.value.preloadPos, env.preloadOk)
  }

  // ----- events

  datatype Event =
    | EvPlayIndex(p: nat)
    | EvResume
    | EvPause
    | EvTogglePause
    | EvNext
    | EvPrev
    | EvAdvanceAuto
    | EvSeek(secs: real)
    | EvClearQueue
    | EvStop
    | EvHalt
    | EvReplace(requested: seq<Child>, admitted: seq<Child>, playFrom: Option<nat>)
    | EvAppend(requested: seq<Child>, admitted: seq<Child>)
    | EvInsertAfter(after: nat, requested: seq<Child>, admitted: seq<Child>)
    | EvRemove(p: nat)
    | EvMove(from: nat, to: nat)
    | EvClearHistory
    | EvShuffle(rest: seq<Child>)
    | EvShuffleLibrary(songs: seq<Child>)
    | EvSetRepeat(mode: RepeatMode)
    | EvTick(view: TickView)
    | EvPrebufferDone(fallback: bool)

  ghost predicate Possible(e: Engine, ev: Event) {
    ev.EvShuffle? ==> ShuffleOutcome(e.d, ev.rest)
  }

  ghost function Step(e: Engine, ev: Event, env: Env): Engine
    requires Possible(e, ev)
  {
    match ev
    case EvPlayIndex(p) => PlayAt(e, p, false, 0.0, env)
    case EvResume => Resume(e, env)
    case EvPause => Pause(e)
    case EvTogglePause => TogglePause(e, env)
    case EvNext => NextTrack(e, env)
    case EvPrev => PrevTrack(e, env)
    case EvAdvanceAuto => AdvanceAuto(e, env)
    case EvSeek(secs) => e.(d := SetPosition(e.d, secs))
    case EvClearQueue => StopMpv(CancelPrebuffer(e)).(d := StopClear(e.d))
    case EvStop => FinishAtQueueEnd(e)
    case EvHalt => StopMpv(CancelPrebuffer(e)).(d := Halt(e.d))
    case EvReplace(requested, admitted, playFrom) => EnqueueReplace(e, requested, admitted, playFrom, env)
    case EvAppend(requested, admitted) => EnqueueAppend(e, requested, admitted, env)
    case EvInsertAfter(after, requested, admitted) => EnqueueAfter(e, after, requested, admitted, env)
    case EvRemove(p) => RemoveFromQueue(e, p, env)
    case EvMove(from, to) => MoveItem(e, from, to, env)
    case EvClearHistory => ClearQueueHistory(e)
    case EvShuffle(rest) => ShuffleQueue(e, rest, env)
    case EvShuffleLibrary(songs) => ShuffleLibrary(e, songs, env)
    case EvSetRepeat(mode) => SetRepeatMode(e, mode, env)
    case EvTick(view) => Tick(e, view, env)
    case EvPrebufferDone(fallback) => PrebufferDone(e, fallback, env)
  }

  // ----- invariants

  // Consistent state, at most two playlist entries, and silence whenever a selected track is
  // paused or stopped: mpv is empty and no download is waiting to load over it.
  ghost predicate Inv(e: Engine) {
    && Consistent(e.d)
    && |e.playlist| <= 2
    && (e.d.np.state != Playing && e.d.pos.Some? ==> e.playlist == [] && e.pending.None?)
  }

  // While nothing plays, mpv is empty and nothing waits to load.
  predicate Quiet(e: Engine) {
    e.d.np.state != Playing ==> e.playlist == [] && e.pending.None?
  }

  predicate Live(e: Engine) {
    e.d.np.state == Playing && e.d.pos.Some?
  }

  // Slot 1, when filled, is the song the queue would advance to.
  ghost predicate SlotOneIsNext(e: Engine)
    requires e.d.pos.Some?
  {
    |e.playlist| == 2 ==>
      var next := NextUp(e.d.queue, e.d.pos.value, e.d.repeat);
      next.Some? && next.value.id == e.playlist[1]
  }

  // Slot 0 is the playing song, once its download (if any) has been loaded.
  ghost predicate SlotZeroIsCurrent(e: Engine)
    requires Consistent(e.d) && Live(e)
  {
    if e.pending.Some? then e.playlist == [] && e.pending.value.id == e.d.np.song.value.id
    else 1 <= |e.playlist| <= 2 && e.slot == 0 && e.playlist[0] == e.d.np.song.value.id
  }

  ghost predicate Window(e: Engine) {
    Inv(e) && (Live(e) ==> SlotZeroIsCurrent(e) && SlotOneIsNext(e))
  }

  // ----- where the code leaves a stale preload

  predicate IdsDiffer(q: seq<Child>, i: nat, j: nat) {
    i < |q| && j < |q| && q[i].id != q[j].id
  }

  // Under `All` on the last entry the successor is entry 0, and three edits change entry 0
  // without redoing the preload.
  predicate WrapHazard(e: Engine, ev: Event) {
    && Live(e) && e.pending.None? && |e.playlist| == 2
    && Wraps(e.d.repeat, e.d.pos.value, |e.d.queue|)
    && var cur := e.d.pos.value;
       match ev
       case EvRemove(p) => p == 0 && cur > 0 && IdsDiffer(e.d.queue, 1, 0)
       case EvMove(from, to) =>
         && from < cur && to < cur && from != to
         && (if from == 0 then IdsDiffer(e.d.queue, 1, 0) else to == 0 && IdsDiffer(e.d.queue, from, 0))
       case EvClearHistory => IdsDiffer(e.d.queue, cur, 0)
       case _ => false
  }

  // A finished download preloads after the position it was started at; if the queue was edited
  // meanwhile that can be a different successor.
  predicate StalePreloadHazard(e: Engine, ev: Event, env: Env) {
    && Live(e) && e.pending.Some? && ev == EvPrebufferDone(false) && env.preloadOk
    && var stale := NextUp(e.d.queue, e.pending.value.preloadPos, e.d.repeat);
       var next := NextUp(e.d.queue, e.d.pos.value, e.d.repeat);
       stale.Some? && (next.None? || next.value.id != stale.value.id)
  }

  predicate Hazard(e: Engine, ev: Event, env: Env) {
    WrapHazard(e, ev) || StalePreloadHazard(e, ev, env)
  }

  // Removing the last entry while it is the current one stops mpv but leaves its download alive.
  predicate LeavesDownload(e: Engine, ev: Event) {
    ev.EvRemove? && RemoveStops(e.d, ev.p) && e.pending.Some?
  }

  // ----- building-block lemmas

  // From a good slot 0 alone, a resync rebuilds the window.
  lemma ResyncRestores(e: Engine, ok: bool)
    requires Inv(e) && Live(e) && SlotZeroIsCurrent(e)
    ensures Window(Resync(e, ok)) && Resync(e, ok).d == e.d
  {
  }

  lemma PreloadKeepsWindow(e: Engine, ok: bool)
    requires Window(e) && Live(e)
    ensures Window(PreloadNext(e, e.d.pos.value, ok)) && PreloadNext(e, e.d.pos.value, ok).d == e.d
  {
  }

  // Starting a track builds a fresh window whatever was there before.
  lemma PlayRestores(e: Engine, p: nat, buffered: bool, startAt: real, env: Env)
    requires Consistent(e.d) && p < |e.d.queue| && env.urlOk
    ensures Window(PlayAt(e, p, buffered, startAt, env))
    ensures Live(PlayAt(e, p, buffered, startAt, env))
  {
  }

  lemma DispatchRestores(e: Engine, p: nat, buffered: bool, ok: bool)
    requires p < |e.d.queue| && e.d == CommitPlay(e.d, p, true)
    ensures Window(DispatchPlay(e, e.d.queue[p].id, p, buffered, ok))
  {
  }

  lemma FinishIsSilent(e: Engine)
    requires Consistent(e.d)
    ensures Window(FinishAtQueueEnd(e))
  {
  }

  lemma PlayAtKeeps(e: Engine, p: nat, buffered: bool, startAt: real, env: Env)
    requires Inv(e)
    ensures Inv(PlayAt(e, p, buffered, startAt, env))
    ensures Window(e) ==> Window(PlayAt(e, p, buffered, startAt, env))
  {
    if p < |e.d.queue| && env.urlOk {
      PlayRestores(e, p, buffered, startAt, env);
    }
  }

  lemma GoToKeeps(e: Engine, target: Option<nat>, env: Env)
    requires Inv(e)
    ensures Inv(GoTo(e, target, env))
    ensures Window(e) ==> Window(GoTo(e, target, env))
  {
    if |e.d.queue| == 0 {
    } else if target.Some? {
      PlayAtKeeps(e, target.value, false, 0.0, env);
    } else if env.extension == [] {
      FinishIsSilent(e);
    } else {
      var extended := e.(d := ExtendAndPlay(e.d, env.extension, env.urlOk));
      SectionKeepsConsistent(e.d, DoExtendAndPlay(env.extension, env.urlOk));
      if env.urlOk {
        assert extended.d.queue[|e.d.queue|] == env.extension[0];
        DispatchRestores(extended, |e.d.queue|, env.buffered, env.preloadOk);
      } else {
        FinishIsSilent(extended);
      }
    }
  }

  // ----- every event keeps Inv, and the window unless it is a hazard

  // Events that only play, pause, stop, seek or replace the queue.
  predicate IsPlaybackEvent(ev: Event) {
    || ev.EvPlayIndex? || ev.EvResume? || ev.EvPause? || ev.EvTogglePause? || ev.EvNext? || ev.EvPrev?
    || ev.EvAdvanceAuto? || ev.EvSeek? || ev.EvClearQueue? || ev.EvStop? || ev.EvHalt?
    || ev.EvReplace? || ev.EvShuffleLibrary?
  }

  lemma ResumeKeeps(e: Engine, env: Env)
    requires Inv(e)
    ensures Inv(Resume(e, env))
    ensures Window(e) ==> Window(Resume(e, env))
  {
    if e.d.pos.Some? {
      PlayAtKeeps(e, e.d.pos.value, false, if e.d.np.state == Paused then e.d.np.position else 0.0, env);
    }
  }

  lemma RestartKeeps(e: Engine, secs: real)
    requires Inv(e)
    ensures Inv(e.(d := SetPosition(e.d, secs)))
    ensures Window(e) ==> Window(e.(d := SetPosition(e.d, secs)))
  {
  }

  lemma PrevKeeps(e: Engine, env: Env)
    requires Inv(e)
    ensures Inv(PrevTrack(e, env))
    ensures Window(e) ==> Window(PrevTrack(e, env))
  {
    var wrapTo := e.d.repeat.PrevWrap(|e.d.queue|);
    if |e.d.queue| == 0 {
      assert PrevTrack(e, env) == e;
    } else if e.d.np.position < 3.0 && e.d.pos.Some? && e.d.pos.value > 0 {
      PlayAtKeeps(e, e.d.pos.value - 1, false, 0.0, env);
      assert PrevTrack(e, env) == PlayAt(e, e.d.pos.value - 1, false, 0.0, env);
    } else if e.d.np.position < 3.0 && e.d.pos.Some? && wrapTo.Some? {
      PlayAtKeeps(e, wrapTo.value, false, 0.0, env);
      assert PrevTrack(e, env) == PlayAt(e, wrapTo.value, false, 0.0, env);
    } else {
      RestartKeeps(e, 0.0);
      assert PrevTrack(e, env) == e.(d := SetPosition(e.d, 0.0));
    }
  }

  lemma AdvanceKeeps(e: Engine, env: Env)
    requires Inv(e)
    ensures Inv(AdvanceAuto(e, env))
    ensures Window(e) ==> Window(AdvanceAuto(e, env))
  {
    GoToKeeps(e, if e.d.pos.Some? then e.d.repeat.NextAuto(e.d.pos.value, |e.d.queue|) else Some(0), env);
  }

  lemma ReplaceKeeps(e: Engine, requested: seq<Child>, admitted: seq<Child>, playFrom: Option<nat>, env: Env)
    requires Inv(e)
    ensures Inv(EnqueueReplace(e, requested, admitted, playFrom, env))
    ensures Window(e) ==> Window(EnqueueReplace(e, requested, admitted, playFrom, env))
  {
    if playFrom.Some? && env.urlOk && playFrom.value < |admitted| {
      var swapped := e.(d := Replace(e.d, admitted, playFrom, env.urlOk));
      assert swapped.d == CommitPlay(swapped.d, playFrom.value, true);
      DispatchRestores(swapped, playFrom.value, env.buffered, env.preloadOk);
    }
  }

  // Events that keep the queue and its window only by stopping mpv or leaving it alone.
  predicate IsStop(ev: Event) {
    ev.EvPause? || ev.EvClearQueue? || ev.EvStop? || ev.EvHalt?
  }

  lemma StopKeeps(e: Engine, ev: Event, env: Env)
    requires Inv(e) && IsStop(ev)
    ensures Inv(Step(e, ev, env))
    ensures Window(e) ==> Window(Step(e, ev, env))
  {
  }

  lemma TogglePauseKeeps(e: Engine, env: Env)
    requires Inv(e)
    ensures Inv(TogglePause(e, env))
    ensures Window(e) ==> Window(TogglePause(e, env))
  {
    match e.d.np.state
    case Playing => StopKeeps(e, EvPause, env);
    case Paused => ResumeKeeps(e, env);
    case Stopped =>
      if e.d.pos.Some? {
        PlayAtKeeps(e, e.d.pos.value, false, 0.0, env);
      }
  }

  lemma ShuffleLibraryKeeps(e: Engine, songs: seq<Child>, env: Env)
    requires Inv(e)
    ensures Inv(ShuffleLibrary(e, songs, env))
    ensures Window(e) ==> Window(ShuffleLibrary(e, songs, env))
  {
    if songs != [] {
      PlayAtKeeps(e.(d := ReplaceUnplayed(e.d, songs)), 0, env.buffered, 0.0, env);
    }
  }

  lemma PlaybackEventKeeps(e: Engine, ev: Event, env: Env)
    requires Inv(e) && Possible(e, ev) && IsPlaybackEvent(ev)
    ensures Inv(Step(e, ev, env))
    ensures Window(e) ==> Window(Step(e, ev, env))
  {
    match ev
    case EvPlayIndex(p) => PlayAtKeeps(e, p, false, 0.0, env);
    case EvResume => ResumeKeeps(e, env);
    case EvTogglePause => TogglePauseKeeps(e, env);
    case EvNext =>
      GoToKeeps(e, if e.d.pos.Some? then e.d.repeat.NextManual(e.d.pos.value, |e.d.queue|) else Some(0), env);
    case EvPrev => PrevKeeps(e, env);
    case EvAdvanceAuto => AdvanceKeeps(e, env);
    case EvSeek(secs) => RestartKeeps(e, secs);
    case EvReplace(requested, admitted, playFrom) => ReplaceKeeps(e, requested, admitted, playFrom, env);
    case EvShuffleLibrary(songs) => ShuffleLibraryKeeps(e, songs, env);
    case _ => StopKeeps(e, ev, env);
  }

  // An edit that keeps the position on its song either resyncs or is judged by slot 1 alone.
  lemma EditWindow(e: Engine, edited: Engine, resync: bool, ok: bool)
    requires Window(e) && Consistent(edited.d)
    requires edited == e.(d := edited.d) && edited.d.np == e.d.np
    requires edited.d.pos.Some? == e.d.pos.Some?
    ensures var r := if resync then Resync(edited, ok) else edited;
            && Inv(r)
            && (resync || !Live(e) || |e.playlist| != 2 ==> Window(r))
            && (!resync && Live(e) && |e.playlist| == 2 ==> (Window(r) <==> SlotOneIsNext(edited)))
  {
    if resync && Live(e) {
      ResyncRestores(edited, ok);
    }
  }

  lemma RemoveCurrentKeeps(e: Engine, p: nat, env: Env)
    requires Inv(e) && p < |e.d.queue| && e.d.pos == Some(p)
    ensures Inv(RemoveFromQueue(e, p, env))
    ensures Window(e) ==> Window(RemoveFromQueue(e, p, env))
  {
    var shorter := e.(d := Remove(e.d, p));
    SectionKeepsConsistent(e.d, DoRemove(p));
    if !RemoveStops(e.d, p) {
      PlayAtKeeps(shorter, p, false, 0.0, env);
    }
  }

  lemma RemoveWindow(e: Engine, p: nat, env: Env)
    requires Window(e)
    ensures Window(RemoveFromQueue(e, p, env)) <==> !WrapHazard(e, EvRemove(p))
  {
    if p < |e.d.queue| {
      if e.d.pos == Some(p) {
        RemoveCurrentKeeps(e, p, env);
      } else {
        SectionKeepsConsistent(e.d, DoRemove(p));
        var shorter := e.(d := Remove(e.d, p));
        EditWindow(e, shorter, p > 0 && e.d.pos == Some(p - 1), env.preloadOk);
        if e.d.pos.Some? && p != e.d.pos.value + 1 {
          RemoveSkipIsSound(e.d.queue, e.d.pos.value, p, e.d.repeat);
        }
      }
    }
  }

  // A move that does not resync: slot 1 still shows the successor unless entry 0 changed under a wrap.
  lemma UnsyncedMove(e: Engine, from: nat, to: nat)
    requires Window(e) && Live(e) && from < |e.d.queue| && to < |e.d.queue| && from != to
    requires !MoveResyncs(e.d.pos.value, from, to)
    ensures e.pending.None? && |e.playlist| == 2 ==>
              (SlotOneIsNext(e.(d := Move(e.d, from, to))) <==> !WrapHazard(e, EvMove(from, to)))
  {
    MoveSkipIsSound(e.d.queue, e.d.pos.value, from, to, e.d.repeat);
  }

  lemma MoveWindow(e: Engine, from: nat, to: nat, env: Env)
    requires Window(e)
    ensures Window(MoveItem(e, from, to, env)) <==> !WrapHazard(e, EvMove(from, to))
  {
    if from < |e.d.queue| && to < |e.d.queue| && from != to {
      SectionKeepsConsistent(e.d, DoMove(from, to));
      var moved := e.(d := Move(e.d, from, to));
      EditWindow(e, moved, e.d.pos.Some? && MoveResyncs(e.d.pos.value, from, to), env.preloadOk);
      if Live(e) && !MoveResyncs(e.d.pos.value, from, to) {
        UnsyncedMove(e, from, to);
      }
    }
  }

  lemma ClearHistoryWindow(e: Engine)
    requires Window(e)
    ensures Window(ClearQueueHistory(e)) <==> !WrapHazard(e, EvClearHistory)
  {
    SectionKeepsConsistent(e.d, DoClearHistory);
    EditWindow(e, ClearQueueHistory(e), false, true);
    if e.d.pos.Some? {
      ClearHistoryIsSound(e.d.queue, e.d.pos.value, e.d.repeat);
    }
  }

  lemma AppendWindow(e: Engine, requested: seq<Child>, admitted: seq<Child>, env: Env)
    requires Window(e)
    ensures Window(EnqueueAppend(e, requested, admitted, env))
  {
    var longer := e.(d := Append(e.d, admitted));
    EditWindow(e, longer, e.d.pos.Some? && e.d.pos.value + 1 == |e.d.queue|, env.preloadOk);
    if e.d.pos.Some? && e.d.pos.value + 1 != |e.d.queue| {
      AppendSkipIsSound(e.d.queue, e.d.pos.value, admitted, e.d.repeat);
    }
  }

  lemma InsertWindow(e: Engine, after: nat, requested: seq<Child>, admitted: seq<Child>, env: Env)
    requires Window(e)
    ensures Window(EnqueueAfter(e, after, requested, admitted, env))
  {
    SectionKeepsConsistent(e.d, DoInsertAfter(after, admitted));
    var longer, at := e.(d := InsertAfter(e.d, after, admitted)), InsertAt(e.d, after);
    EditWindow(e, longer, e.d.pos.Some? && at == e.d.pos.value + 1, env.preloadOk);
    if e.d.pos.Some? && at != e.d.pos.value + 1 {
      InsertSkipIsSound(e.d.queue, e.d.pos.value, at, admitted, e.d.repeat);
    }
  }

  lemma ShuffleWindow(e: Engine, rest: seq<Child>, env: Env)
    requires Window(e) && ShuffleOutcome(e.d, rest)
    ensures Window(ShuffleQueue(e, rest, env))
  {
    SectionKeepsConsistent(e.d, DoShuffle(rest));
    EditWindow(e, e.(d := Shuffle(e.d, rest)), true, env.preloadOk);
  }

  lemma SetRepeatWindow(e: Engine, mode: RepeatMode, env: Env)
    requires Window(e)
    ensures Window(SetRepeatMode(e, mode, env))
  {
    var changed := e.(d := SetRepeat(e.d, mode));
    if Live(e) {
      assert SlotZeroIsCurrent(changed);
      ResyncRestores(changed, env.preloadOk);
    }
  }

  // The song the state commits is the one mpv hopped to, and the window is whole again.
  lemma GaplessCommitsWhatMpvPlays(e: Engine, v: TickView, env: Env)
    requires Window(e) && Live(e) && |e.playlist| == 2 && v.hop
    ensures var heard := Hop(e);
            && DecideTick(GatherTick(heard, v)) == GaplessAdvance
            && GaplessTarget(e.d).Some?
            && Tick(e, v, env).d.np.song == Some(e.d.queue[GaplessTarget(e.d).value])
            && Tick(e, v, env).d.np.song.value.id == heard.playlist[heard.slot]
            && Tick(e, v, env).playlist[0] == heard.playlist[heard.slot]
            && Window(Tick(e, v, env))
  {
    var heard := Hop(e);
    var n := GaplessTarget(e.d).value;
    var committed := heard.(d := GaplessCommit(heard.d));
    var dropped := PlaylistRemove(committed, 0);
    assert dropped.playlist == [e.playlist[1]] && dropped.slot == 0;
    PreloadKeepsWindow(dropped, env.preloadOk);
  }

  lemma TailKeeps(e: Engine, v: TickView)
    requires Inv(e)
    ensures Inv(TickTail(e, v))
    ensures Window(e) ==> Window(TickTail(e, v))
  {
  }

  lemma TickApplyWindow(e: Engine, action: TickAction, v: TickView, env: Env)
    requires Window(e) && !action.GaplessAdvance?
    requires action.Preload? ==> Live(e) && action.fromPos == e.d.pos.value
    ensures Window(TickApply(e, action, v, env))
  {
    match action
    case Preload(fromPos) =>
      PreloadKeepsWindow(e, env.preloadOk);
      TailKeeps(if v.preloadDue then PreloadNext(e, fromPos, env.preloadOk) else e, v);
    case AdvanceEarly => AdvanceKeeps(e, env);
    case AdvanceOnIdle => AdvanceKeeps(e, env);
    case Continue => TailKeeps(e, v);
    case Skip =>
  }

  // A track that plays without being selected has no successor to advance to.
  lemma GaplessWithoutSelection(e: Engine, v: TickView, env: Env)
    requires Window(e) && !Live(e)
    ensures Window(TickApply(e, GaplessAdvance, v, env))
  {
    if GaplessTarget(e.d).None? {
      TailKeeps(e, v);
    }
  }

  lemma TickWindow(e: Engine, v: TickView, env: Env)
    requires Window(e)
    ensures Window(Tick(e, v, env))
  {
    if v.hop && |e.playlist| == 2 && Live(e) {
      GaplessCommitsWhatMpvPlays(e, v, env);
    } else {
      var seen := if v.hop then Hop(e) else e;
      var action := DecideTick(GatherTick(seen, v));
      if action.GaplessAdvance? {
        GaplessWithoutSelection(seen, v, env);
      } else {
        TickApplyWindow(seen, action, v, env);
      }
    }
  }

  lemma PrebufferDoneWindow(e: Engine, fallback: bool, env: Env)
    requires Window(e)
    ensures Window(PrebufferDone(e, fallback, env)) <==> !StalePreloadHazard(e, EvPrebufferDone(fallback), env)
  {
  }

  // A preload never makes a third entry, and never wakes a silent player.
  lemma PreloadKeepsInv(e: Engine, at: nat, ok: bool)
    requires Inv(e)
    ensures Inv(PreloadNext(e, at, ok)) && Inv(PreloadNext(DropPreload(e), at, ok))
  {
  }

  lemma GaplessKeepsInv(e: Engine, env: Env)
    requires Inv(e)
    ensures Inv(GaplessStep(e, env))
  {
    var n := GaplessTarget(e.d);
    if n.Some? {
      SectionKeepsConsistent(e.d, DoGaplessCommit);
      var committed := e.(d := GaplessCommit(e.d));
      var dropped := if e.slot == 1 && e.playlist != [] then PlaylistRemove(committed, 0) else committed;
      assert Inv(dropped);
      PreloadKeepsInv(dropped, n.value, env.preloadOk);
    }
  }

  lemma TickApplyKeepsInv(e: Engine, action: TickAction, v: TickView, env: Env)
    requires Inv(e)
    ensures Inv(TickApply(e, action, v, env))
  {
    match action
    case Preload(fromPos) =>
      PreloadKeepsInv(e, fromPos, env.preloadOk);
      TailKeeps(if v.preloadDue then PreloadNext(e, fromPos, env.preloadOk) else e, v);
    case GaplessAdvance =>
      GaplessKeepsInv(e, env);
      TailKeeps(e, v);
    case AdvanceEarly => AdvanceKeeps(e, env);
    case AdvanceOnIdle => AdvanceKeeps(e, env);
    case Continue => TailKeeps(e, v);
    case Skip =>
  }

  lemma TickKeepsInv(e: Engine, v: TickView, env: Env)
    requires Inv(e)
    ensures Inv(Tick(e, v, env))
  {
    var seen := if v.hop then Hop(e) else e;
    TickApplyKeepsInv(seen, DecideTick(GatherTick(seen, v)), v, env);
  }

  lemma ResyncKeepsInv(e: Engine, ok: bool)
    requires Inv(e)
    ensures Inv(Resync(e, ok))
  {
    if Live(e) {
      PreloadKeepsInv(e, e.d.pos.value, ok);
    }
  }

  // A queue edit that leaves the playing part alone, with or without its resync.
  lemma EditKeepsInv(e: Engine, s: Section, ok: bool)
    requires Inv(e) && Allowed(e.d, s)
    requires s.DoAppend? || s.DoInsertAfter? || s.DoMove? || s.DoClearHistory? || s.DoShuffle?
             || (s.DoRemove? && e.d.pos != Some(s.p))
    ensures var edited := e.(d := Apply(e.d, s));
            Inv(edited) && Inv(Resync(edited, ok))
  {
    SectionKeepsConsistent(e.d, s);
    ResyncKeepsInv(e.(d := Apply(e.d, s)), ok);
  }

  lemma AppendingKeepsInv(e: Engine, requested: seq<Child>, admitted: seq<Child>, env: Env)
    requires Inv(e)
    ensures Inv(EnqueueAppend(e, requested, admitted, env))
  {
    EditKeepsInv(e, DoAppend(admitted), env.preloadOk);
  }

  lemma InsertingKeepsInv(e: Engine, after: nat, requested: seq<Child>, admitted: seq<Child>, env: Env)
    requires Inv(e)
    ensures Inv(EnqueueAfter(e, after, requested, admitted, env))
  {
    EditKeepsInv(e, DoInsertAfter(after, admitted), env.preloadOk);
  }

  lemma RemovingKeepsInv(e: Engine, p: nat, env: Env)
    requires Inv(e)
    ensures Inv(RemoveFromQueue(e, p, env))
  {
    if p < |e.d.queue| && e.d.pos == Some(p) {
      RemoveCurrentKeeps(e, p, env);
    } else {
      EditKeepsInv(e, DoRemove(p), env.preloadOk);
    }
  }

  lemma MovingKeepsInv(e: Engine, from: nat, to: nat, env: Env)
    requires Inv(e)
    ensures Inv(MoveItem(e, from, to, env))
  {
    EditKeepsInv(e, DoMove(from, to), env.preloadOk);
  }

  lemma ClearingHistoryKeepsInv(e: Engine)
    requires Inv(e)
    ensures Inv(ClearQueueHistory(e))
  {
    EditKeepsInv(e, DoClearHistory, true);
  }

  lemma ShufflingKeepsInv(e: Engine, rest: seq<Child>, env: Env)
    requires Inv(e) && ShuffleOutcome(e.d, rest)
    ensures Inv(ShuffleQueue(e, rest, env))
  {
    EditKeepsInv(e, DoShuffle(rest), env.preloadOk);
  }

  lemma DownloadKeepsInv(e: Engine, fallback: bool, env: Env)
    requires Inv(e)
    ensures Inv(PrebufferDone(e, fallback, env))
  {
  }

  lemma QueueEventKeepsInv(e: Engine, ev: Event, env: Env)
    requires Inv(e) && Possible(e, ev) && !IsPlaybackEvent(ev)
    ensures Inv(Step(e, ev, env))
  {
    match ev
    case EvMove(from, to) => MovingKeepsInv(e, from, to, env);
    case EvClearHistory => ClearingHistoryKeepsInv(e);
    case EvShuffle(rest) => ShufflingKeepsInv(e, rest, env);
    case EvAppend(requested, admitted) => AppendingKeepsInv(e, requested, admitted, env);
    case EvInsertAfter(after, requested, admitted) => InsertingKeepsInv(e, after, requested, admitted, env);
    case EvRemove(p) => RemovingKeepsInv(e, p, env);
    case EvSetRepeat(mode) =>
      if e.d.pos.Some? {
        PreloadKeepsInv(e.(d := SetRepeat(e.d, mode)), e.d.pos.value, env.preloadOk);
      }
    case EvTick(view) => TickKeepsInv(e, view, env);
    case EvPrebufferDone(fallback) => DownloadKeepsInv(e, fallback, env);
  }

  // ----- silence while nothing plays

  lemma GoToQuiet(e: Engine, target: Option<nat>, env: Env)
    requires Quiet(e)
    ensures Quiet(GoTo(e, target, env))
  {
  }

  lemma TickApplyQuiet(e: Engine, action: TickAction, v: TickView, env: Env)
    requires Quiet(e) && (action.Preload? || action.GaplessAdvance? ==> e.d.np.state == Playing)
    ensures Quiet(TickApply(e, action, v, env))
  {
    GoToQuiet(e, if e.d.pos.Some? then e.d.repeat.NextAuto(e.d.pos.value, |e.d.queue|) else Some(0), env);
  }

  lemma TickQuiet(e: Engine, v: TickView, env: Env)
    requires Quiet(e)
    ensures Quiet(Tick(e, v, env))
  {
    var seen := if v.hop then Hop(e) else e;
    TickApplyQuiet(seen, DecideTick(GatherTick(seen, v)), v, env);
  }

  lemma PlayAtQuiet(e: Engine, p: nat, buffered: bool, startAt: real, env: Env)
    requires Quiet(e)
    ensures Quiet(PlayAt(e, p, buffered, startAt, env))
  {
  }

  lemma ResumeQuiet(e: Engine, env: Env)
    requires Quiet(e)
    ensures Quiet(Resume(e, env))
  {
    if e.d.pos.Some? {
      PlayAtQuiet(e, e.d.pos.value, false, if e.d.np.state == Paused then e.d.np.position else 0.0, env);
    }
  }

  // Start, pause and stop.
  lemma TransportQuiet(e: Engine, ev: Event, env: Env)
    requires Quiet(e) && (IsStop(ev) || ev.EvPlayIndex? || ev.EvResume? || ev.EvTogglePause? || ev.EvSeek?)
    ensures Quiet(Step(e, ev, env))
  {
    ResumeQuiet(e, env);
    if ev.EvPlayIndex? {
      PlayAtQuiet(e, ev.p, false, 0.0, env);
    } else if e.d.pos.Some? {
      PlayAtQuiet(e, e.d.pos.value, false, 0.0, env);
    }
  }

  lemma ReplaceQuiet(e: Engine, requested: seq<Child>, admitted: seq<Child>, playFrom: Option<nat>, env: Env)
    requires Quiet(e)
    ensures Quiet(EnqueueReplace(e, requested, admitted, playFrom, env))
  {
  }

  lemma PlaybackEventQuiet(e: Engine, ev: Event, env: Env)
    requires Quiet(e) && Possible(e, ev) && IsPlaybackEvent(ev)
    ensures Quiet(Step(e, ev, env))
  {
    match ev
    case EvNext =>
      GoToQuiet(e, if e.d.pos.Some? then e.d.repeat.NextManual(e.d.pos.value, |e.d.queue|) else Some(0), env);
    case EvAdvanceAuto =>
      GoToQuiet(e, if e.d.pos.Some? then e.d.repeat.NextAuto(e.d.pos.value, |e.d.queue|) else Some(0), env);
    case EvPrev =>
      if e.d.pos.Some? && e.d.pos.value > 0 {
        PlayAtQuiet(e, e.d.pos.value - 1, false, 0.0, env);
      } else if e.d.repeat.PrevWrap(|e.d.queue|).Some? {
        PlayAtQuiet(e, e.d.repeat.PrevWrap(|e.d.queue|).value, false, 0.0, env);
      }
    case EvReplace(requested, admitted, playFrom) => ReplaceQuiet(e, requested, admitted, playFrom, env);
    case EvShuffleLibrary(songs) =>
      if songs != [] {
        PlayAtQuiet(e.(d := ReplaceUnplayed(e.d, songs)), 0, env.buffered, 0.0, env);
      }
    case _ => TransportQuiet(e, ev, env);
  }

  lemma RemoveQuietIff(e: Engine, p: nat, env: Env)
    requires Quiet(e)
    ensures Quiet(RemoveFromQueue(e, p, env)) <==> !LeavesDownload(e, EvRemove(p))
  {
  }

  lemma QueueEventQuiet(e: Engine, ev: Event, env: Env)
    requires Quiet(e) && Possible(e, ev) && !IsPlaybackEvent(ev) && !ev.EvRemove?
    ensures Quiet(Step(e, ev, env))
  {
    if ev.EvTick? {
      TickQuiet(e, ev.view, env);
    }
  }

  // Silence survives every event but that one.
  lemma QuietSurvivesIff(e: Engine, ev: Event, env: Env)
    requires Quiet(e) && Possible(e, ev)
    ensures Quiet(Step(e, ev, env)) <==> !LeavesDownload(e, ev)
  {
    if IsPlaybackEvent(ev) {
      PlaybackEventQuiet(e, ev, env);
    } else if ev.EvRemove? {
      RemoveQuietIff(e, ev.p, env);
    } else {
      QueueEventQuiet(e, ev, env);
    }
  }

  // ----- one step

  lemma StepKeepsInv(e: Engine, ev: Event, env: Env)
    requires Inv(e) && Possible(e, ev)
    ensures Inv(Step(e, ev, env))
    ensures Quiet(e) ==> (Quiet(Step(e, ev, env)) <==> !LeavesDownload(e, ev))
  {
    if Quiet(e) {
      QuietSurvivesIff(e, ev, env);
    }
    if IsPlaybackEvent(ev) {
      PlaybackEventKeeps(e, ev, env);
    } else {
      QueueEventKeepsInv(e, ev, env);
    }
  }

  // The refinement step: the window survives an event exactly when the event is no hazard.
  lemma WindowSurvivesIffNoHazard(e: Engine, ev: Event, env: Env)
    requires Window(e) && Possible(e, ev)
    ensures Window(Step(e, ev, env)) <==> !Hazard(e, ev, env)
  {
    if IsPlaybackEvent(ev) {
      PlaybackEventKeeps(e, ev, env);
    } else {
      match ev
      case EvAppend(requested, admitted) => AppendWindow(e, requested, admitted, env);
      case EvInsertAfter(after, requested, admitted) => InsertWindow(e, after, requested, admitted, env);
      case EvRemove(p) => RemoveWindow(e, p, env);
      case EvMove(from, to) => MoveWindow(e, from, to, env);
      case EvClearHistory => ClearHistoryWindow(e);
      case EvShuffle(rest) => ShuffleWindow(e, rest, env);
      case EvSetRepeat(mode) => SetRepeatWindow(e, mode, env);
      case EvTick(view) => TickWindow(e, view, env);
      case EvPrebufferDone(fallback) => PrebufferDoneWindow(e, fallback, env);
    }
  }

  // What a step promises: the invariant, and exactly when window and silence survive.
  ghost predicate Lawful(before: Engine, ev: Event, env: Env, after: Engine) {
    && (Inv(before) ==> Inv(after))
    && (Window(before) ==> (Window(after) <==> !Hazard(before, ev, env)))
    && (Quiet(before) ==> (Quiet(after) <==> !LeavesDownload(before, ev)))
  }

  lemma StepIsLawful(before: Engine, ev: Event, env: Env, after: Engine)
    requires Possible(before, ev) && after == Step(before, ev, env)
    ensures Lawful(before, ev, env, after)
  {
    if Inv(before) {
      StepKeepsInv(before, ev, env);
    }
    if Window(before) {
      WindowSurvivesIffNoHazard(before, ev, env);
    }
    if Quiet(before) {
      QuietSurvivesIff(before, ev, env);
    }
  }

  // ----- runs

  // The daemon comes up with a fresh or restored queue, nothing playing and mpv empty.
  ghost predicate Starts(e: Engine) {
    Consistent(e.d) && e.d.np.state != Playing && e.playlist == [] && e.slot == 0 && e.pending.None?
  }

  ghost predicate Run(es: seq<Engine>, evs: seq<Event>, envs: seq<Env>) {
    && |es| == |evs| + 1 && |envs| == |evs| && Starts(es[0])
    && forall i {:trigger evs[i]} :: 0 <= i < |evs| ==>
         Possible(es[i], evs[i]) && es[i + 1] == Step(es[i], evs[i], envs[i])
  }

  lemma {:induction false} RunKeepsInv(es: seq<Engine>, evs: seq<Event>, envs: seq<Env>, i: nat)
    requires Run(es, evs, envs) && i < |es|
    ensures Inv(es[i])
  {
    if i > 0 {
      RunKeepsInv(es, evs, envs, i - 1);
      StepKeepsInv(es[i - 1], evs[i - 1], envs[i - 1]);
    }
  }

  // Over a whole run nothing sounds or waits while nothing plays, up to the first such removal.
  lemma {:induction false} RunStaysQuiet(es: seq<Engine>, evs: seq<Event>, envs: seq<Env>, i: nat)
    requires Run(es, evs, envs) && i < |es|
    requires forall k :: 0 <= k < i ==> !LeavesDownload(es[k], evs[k])
    ensures Quiet(es[i])
  {
    if i > 0 {
      RunStaysQuiet(es, evs, envs, i - 1);
      QuietSurvivesIff(es[i - 1], evs[i - 1], envs[i - 1]);
    }
  }

  // Wherever a run is not quiet, such a removal made it so, and it has not been quiet since.
  lemma {:induction false} NoiseHasCause(es: seq<Engine>, evs: seq<Event>, envs: seq<Env>, i: nat) returns (k: nat)
    requires Run(es, evs, envs) && i < |es|
    ensures Quiet(es[i]) || (k < i && Quiet(es[k]) && LeavesDownload(es[k], evs[k]))
    ensures forall n :: k < n <= i ==> Quiet(es[i]) || !Quiet(es[n])
  {
    k := 0;
    if i > 0 && !Quiet(es[i]) {
      var last := i - 1;
      if Quiet(es[last]) {
        QuietSurvivesIff(es[last], evs[last], envs[last]);
        k := last;
      } else {
        k := NoiseHasCause(es, evs, envs, last);
      }
    }
  }

  // Over a whole run, the window refines the queue at every point reached without a hazard.
  lemma {:induction false} RunRefinesQueue(es: seq<Engine>, evs: seq<Event>, envs: seq<Env>, i: nat)
    requires Run(es, evs, envs) && i < |es|
    requires forall k :: 0 <= k < i ==> !Hazard(es[k], evs[k], envs[k])
    ensures Window(es[i])
  {
    if i > 0 {
      RunRefinesQueue(es, evs, envs, i - 1);
      WindowSurvivesIffNoHazard(es[i - 1], evs[i - 1], envs[i - 1]);
    }
  }

  // Wherever a run has a broken window, a hazard broke it and nothing has rebuilt it since.
  lemma {:induction false} BrokenWindowHasHazard(es: seq<Engine>, evs: seq<Event>, envs: seq<Env>, i: nat) returns (k: nat)
    requires Run(es, evs, envs) && i < |es|
    ensures Window(es[i]) || (k < i && Window(es[k]) && Hazard(es[k], evs[k], envs[k]))
    ensures forall n :: k < n <= i ==> Window(es[i]) || !Window(es[n])
  {
    k := 0;
    if i > 0 && !Window(es[i]) {
      var last := i - 1;
      if Window(es[last]) {
        WindowSurvivesIffNoHazard(es[last], evs[last], envs[last]);
        k := last;
      } else {
        k := BrokenWindowHasHazard(es, evs, envs, last);
      }
    }
  }

  // ----- the hazards are real

  function SongNamed(id: string): Child {
    Child(id, None, None, None, None, None, None)
  }

  const QUIET_ENV := Env(true, true, false, [])

  // Two tracks, playing the last under `All`, entry 0 preloaded.
  const LAST_OF_TWO :=
    Engine(DState([SongNamed("a"), SongNamed("b")], Some(1), NowPlaying(Some(SongNamed("b")), Playing, 0.0, 0.0), All),
           ["b", "a"], 0, None)

  lemma RemovedUnderWrap()
    ensures Step(LAST_OF_TWO, EvRemove(0), QUIET_ENV) ==
            LAST_OF_TWO.(d := LAST_OF_TWO.d.(queue := [SongNamed("b")], pos := Some(0)))
  {
    assert Removed(LAST_OF_TWO.d.queue, 0) == [SongNamed("b")];
  }

  // Removing entry 0 keeps the preload, and the next gapless advance shows "b" while mpv plays "a".
  lemma RemoveFirstUnderWrapBreaksWindow()
    ensures Window(LAST_OF_TWO)
    ensures var removed := Step(LAST_OF_TWO, EvRemove(0), QUIET_ENV);
            var hopped := Tick(removed, TickView(true, false, false, false, 0.0, 0.0), QUIET_ENV);
            !Window(removed) && hopped.playlist[..1] == ["a"] && hopped.d.np.song == Some(SongNamed("b"))
  {
    RemovedUnderWrap();
    assert Removed(["b", "a"], 0) == ["a"];
  }

  const DOWNLOADING :=
    Engine(DState([SongNamed("a"), SongNamed("b"), SongNamed("c")], Some(0),
                  NowPlaying(Some(SongNamed("a")), Playing, 0.0, 0.0), Off), [], 0, Some(Pending("a", 0)))

  lemma MovedWhileDownloading()
    ensures Step(DOWNLOADING, EvMove(0, 2), QUIET_ENV) ==
            DOWNLOADING.(d := DOWNLOADING.d.(queue := [SongNamed("b"), SongNamed("c"), SongNamed("a")], pos := Some(2)))
  {
    assert Moved(DOWNLOADING.d.queue, 0, 2) == [SongNamed("b"), SongNamed("c"), SongNamed("a")];
  }

  // A Buffered start of entry 0, the entry moved to the end while it downloads, then the load:
  // the preload goes after the old position 0, not after the track's new position 2.
  lemma MoveDuringDownloadBreaksWindow()
    ensures var moved := Step(DOWNLOADING, EvMove(0, 2), QUIET_ENV);
            var loaded := Step(moved, EvPrebufferDone(false), QUIET_ENV);
            Window(DOWNLOADING) && Window(moved) && !Window(loaded) && loaded.playlist == ["a", "c"]
  {
    MovedWhileDownloading();
    var moved := Step(DOWNLOADING, EvMove(0, 2), QUIET_ENV);
    assert NextUp(moved.d.queue, 0, Off) == Some(SongNamed("c"));
    assert NextUp(moved.d.queue, 2, Off) == None;
  }

  // After such a removal the finished download loads a track that is neither selected nor playing.
  lemma RemoveLastLeavesDownloadAlive(e: Engine, p: nat, fallback: bool, env: Env)
    requires Inv(e) && LeavesDownload(e, EvRemove(p))
    ensures var removed := Step(e, EvRemove(p), env);
            var loaded := Step(removed, EvPrebufferDone(fallback), env);
            && removed.d.np == NOTHING_PLAYING && removed.d.pos.None?
            && loaded.d == removed.d && loaded.playlist != [] && loaded.playlist[0] == e.pending.value.id
            && !Quiet(removed) && !Quiet(loaded)
  {
  }

  // ----- and a fresh daemon gets there

  function FreshDaemon(mode: RepeatMode): Engine {
    Engine(DState([], None, NOTHING_PLAYING, mode), [], 0, None)
  }

  function PlaySongs(songs: seq<Child>, p: nat): Event {
    EvReplace(songs, songs, Some(p))
  }

  const BUFFERED_ENV := QUIET_ENV.(buffered := true)

  lemma LastOfTwoIsReached()
    ensures Run([FreshDaemon(All), LAST_OF_TWO], [PlaySongs(LAST_OF_TWO.d.queue, 1)], [QUIET_ENV])
  {
    var queue := LAST_OF_TWO.d.queue;
    assert NextUp(queue, 1, All) == Some(queue[0]);
  }

  lemma DownloadingIsReached()
    ensures Run([FreshDaemon(Off), DOWNLOADING], [PlaySongs(DOWNLOADING.d.queue, 0)], [BUFFERED_ENV])
  {
  }

  const SOLE_DOWNLOADING :=
    Engine(DState([SongNamed("a")], Some(0), NowPlaying(Some(SongNamed("a")), Playing, 0.0, 0.0), Off), [], 0,
           Some(Pending("a", 0)))

  const STRAY_DOWNLOAD := FreshDaemon(Off).(pending := SOLE_DOWNLOADING.pending)

  const STRAY_TRACK := FreshDaemon(Off).(playlist := ["a"])

  lemma SoleTrackRemoved()
    ensures Step(SOLE_DOWNLOADING, EvRemove(0), BUFFERED_ENV) == STRAY_DOWNLOAD
  {
    assert Removed([SongNamed("a")], 0) == [];
  }

  // One buffered track, removed while it downloads: the run ends with mpv playing it, though the
  // queue is empty and nothing is selected.
  lemma RemovedTrackPlaysAnyway()
    ensures Run([FreshDaemon(Off), SOLE_DOWNLOADING, STRAY_DOWNLOAD, STRAY_TRACK],
                [PlaySongs([SongNamed("a")], 0), EvRemove(0), EvPrebufferDone(false)],
                [BUFFERED_ENV, BUFFERED_ENV, BUFFERED_ENV])
    ensures LeavesDownload(SOLE_DOWNLOADING, EvRemove(0)) && !Quiet(STRAY_TRACK)
  {
    SoleTrackRemoved();
    assert Step(FreshDaemon(Off), PlaySongs([SongNamed("a")], 0), BUFFERED_ENV) == SOLE_DOWNLOADING;
    assert Step(STRAY_DOWNLOAD, EvPrebufferDone(false), BUFFERED_ENV) == STRAY_TRACK;
  }
}
