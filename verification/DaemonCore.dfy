// The daemon's playback and queue operations as they run: methods that update the queue, the
// position, the now-playing part and mpv's playlist in place. Each is proved to take the engine
// exactly where its event of PlaybackWindow says and to keep the laws of that step; `HandleAll`
// runs them one after the other and so carries the refinement over whole runs.
module DaemonCore {
  import opened Wrappers
  import opened Models
  import opened QueueEdits
  import opened DaemonState
  import opened PlaybackWindow

  lemma LawfulUnderAll(before: Engine, ev: Event, after: Engine)
    requires Possible(before, ev) && forall env :: after == Step(before, ev, env)
    ensures forall env :: Lawful(before, ev, env, after)
  {
    forall env ensures Lawful(before, ev, env, after) {
      StepIsLawful(before, ev, env, after);
    }
  }

  // Every shuffle in the sequence is possible when its turn comes.
  ghost predicate Feasible(e: Engine, evs: seq<Event>, envs: seq<Env>)
    requires |evs| == |envs|
    decreases |evs|
  {
    evs == [] || (Possible(e, evs[0]) && Feasible(Step(e, evs[0], envs[0]), evs[1..], envs[1..]))
  }

  // A run so far, with the invariant and what its hazards allow.
  ghost predicate Ran(es: seq<Engine>, evs: seq<Event>, envs: seq<Env>) {
    && PlaybackWindow.Run(es, evs, envs) && Inv(es[|evs|])
    && ((forall k :: 0 <= k < |evs| ==> !Hazard(es[k], evs[k], envs[k])) ==> Window(es[|evs|]))
    && ((forall k :: 0 <= k < |evs| ==> !LeavesDownload(es[k], evs[k])) ==> Quiet(es[|evs|]))
  }

  lemma LongerRun(es: seq<Engine>, evs: seq<Event>, envs: seq<Env>, ev: Event, env: Env, after: Engine)
    requires PlaybackWindow.Run(es, evs, envs) && Possible(es[|evs|], ev) && after == Step(es[|evs|], ev, env)
    ensures PlaybackWindow.Run(es + [after], evs + [ev], envs + [env])
  {
  }

  // One more event, by the law of its method alone.
  lemma RanOneMore(es: seq<Engine>, evs: seq<Event>, envs: seq<Env>, ev: Event, env: Env, after: Engine)
    requires Ran(es, evs, envs) && Possible(es[|evs|], ev) && after == Step(es[|evs|], ev, env)
    requires Lawful(es[|evs|], ev, env, after)
    ensures Ran(es + [after], evs + [ev], envs + [env])
  {
    var es', evs', envs' := es + [after], evs + [ev], envs + [env];
    var n := |evs|;
    LongerRun(es, evs, envs, ev, env, after);
    assert es'[n] == es[n] && evs'[n] == ev && envs'[n] == env;
    if forall k :: 0 <= k < |evs'| ==> !Hazard(es'[k], evs'[k], envs'[k]) {
      forall k | 0 <= k < n ensures !Hazard(es[k], evs[k], envs[k]) {
        assert !Hazard(es'[k], evs'[k], envs'[k]);
      }
      assert !Hazard(es'[n], evs'[n], envs'[n]);
    }
    if forall k :: 0 <= k < |evs'| ==> !LeavesDownload(es'[k], evs'[k]) {
      forall k | 0 <= k < n ensures !LeavesDownload(es[k], evs[k]) {
        assert !LeavesDownload(es'[k], evs'[k]);
      }
      assert !LeavesDownload(es'[n], evs'[n]);
    }
  }

  // The first `i` events have been handled and the engine has come to `now`.
  ghost predicate Progress(es: seq<Engine>, evs: seq<Event>, envs: seq<Env>, i: nat, now: Engine)
    requires i <= |evs| == |envs|
  {
    Ran(es, evs[..i], envs[..i]) && es[i] == now && Feasible(now, evs[i..], envs[i..])
  }

  lemma FeasibleRest(now: Engine, evs: seq<Event>, envs: seq<Env>, i: nat)
    requires i < |evs| == |envs| && Feasible(now, evs[i..], envs[i..])
    ensures Possible(now, evs[i]) && Feasible(Step(now, evs[i], envs[i]), evs[i + 1..], envs[i + 1..])
  {
    assert evs[i..][1..] == evs[i + 1..] && envs[i..][1..] == envs[i + 1..];
  }

  lemma NextIsPossible(es: seq<Engine>, evs: seq<Event>, envs: seq<Env>, i: nat, now: Engine)
    requires i < |evs| == |envs| && Progress(es, evs, envs, i, now)
    ensures Inv(now) && Possible(now, evs[i])
  {
    FeasibleRest(now, evs, envs, i);
  }

  lemma OneLonger<T>(s: seq<T>, i: nat)
    requires i < |s|
    ensures s[..i + 1] == s[..i] + [s[i]]
  {
  }

  lemma RanUpToOne(es: seq<Engine>, evs: seq<Event>, envs: seq<Env>, i: nat, after: Engine)
    requires i < |evs| == |envs| && Ran(es, evs[..i], envs[..i]) && Possible(es[i], evs[i])
    requires after == Step(es[i], evs[i], envs[i]) && Lawful(es[i], evs[i], envs[i], after)
    ensures Ran(es + [after], evs[..i + 1], envs[..i + 1])
  {
    OneLonger(evs, i);
    OneLonger(envs, i);
    RanOneMore(es, evs[..i], envs[..i], evs[i], envs[i], after);
  }

  lemma ProgressOne(es: seq<Engine>, evs: seq<Event>, envs: seq<Env>, i: nat, now: Engine, after: Engine)
    requires i < |evs| == |envs| && Progress(es, evs, envs, i, now) && Possible(now, evs[i])
    requires after == Step(now, evs[i], envs[i]) && Lawful(now, evs[i], envs[i], after)
    ensures |es| == i + 1 && Progress(es + [after], evs, envs, i + 1, after)
  {
    FeasibleRest(now, evs, envs, i);
    RanUpToOne(es, evs, envs, i, after);
  }

  lemma ProgressAtEnd(es: seq<Engine>, evs: seq<Event>, envs: seq<Env>, now: Engine)
    requires |evs| == |envs| && Progress(es, evs, envs, |evs|, now)
    ensures Ran(es, evs, envs) && es[|evs|] == now
  {
    assert evs[..|evs|] == evs && envs[..|envs|] == envs;
  }

  lemma ProgressStarts(evs: seq<Event>, envs: seq<Env>, now: Engine)
    requires |evs| == |envs| && Starts(now) && Feasible(now, evs, envs)
    ensures Progress([now], evs, envs, 0, now)
  {
    assert evs[0..] == evs && envs[0..] == envs;
  }

  class Core {
    var queue: seq<Child>
    var queuePosition: Option<nat>
    var nowPlaying: NowPlaying
    var repeatMode: RepeatMode
    var playlist: seq<string>
    var playlistPos: nat
    var prebuffer: Option<Pending>

    ghost function View(): Engine
      reads this
    {
      Engine(DState(queue, queuePosition, nowPlaying, repeatMode), playlist, playlistPos, prebuffer)
    }

    constructor (saved: DState)
      requires Consistent(saved) && saved.np.state != Playing
      ensures View() == Engine(saved, [], 0, None) && Starts(View())
    {
      queue, queuePosition, nowPlaying, repeatMode := saved.queue, saved.pos, saved.np, saved.repeat;
      playlist, playlistPos, prebuffer := [], 0, None;
    }

    // ----- mpv and the pre-buffer slot

    method MpvStop()
      modifies this
      ensures View() == StopMpv(old(View()))
    {
      playlist := [];
      playlistPos := 0;
    }

    method MpvLoadReplace(id: string)
      modifies this
      ensures View() == LoadReplace(old(View()), id)
    {
      playlist := [id];
      playlistPos := 0;
    }

    method MpvPlaylistRemove(i: nat)
      requires i < |playlist|
      modifies this
      ensures View() == PlaylistRemove(old(View()), i)
    {
      playlist := playlist[..i] + playlist[i + 1..];
      if i < playlistPos {
        playlistPos := playlistPos - 1;
      } else if playlistPos >= |playlist| {
        playlistPos := 0;
      }
    }

    method CancelPrebufferTask()
      modifies this
      ensures View() == CancelPrebuffer(old(View()))
    {
      prebuffer := None;
    }

    // ----- playback

    method PreloadNextTrack(currentPos: nat, ok: bool)
      modifies this
      ensures View() == PreloadNext(old(View()), currentPos, ok)
    {
      var target := repeatMode.NextAuto(currentPos, |queue|);
      if target.None? || target.value >= |queue| || !ok {
        return;
      }
      if |playlist| != 1 {
        return;
      }
      playlist := playlist + [queue[target.value].id];
    }

    method ResyncGaplessPreload(ok: bool)
      modifies this
      ensures View() == Resync(old(View()), ok)
    {
      if nowPlaying.state != Playing || queuePosition.None? {
        return;
      }
      var pos := queuePosition.value;
      if |playlist| > 1 {
        MpvPlaylistRemove(1);
      }
      PreloadNextTrack(pos, ok);
    }

    // Validate the entry and commit it as playing; `None` commits nothing.
    method CommitPlayState(pos: nat, urlOk: bool) returns (song: Option<Child>)
      modifies this
      ensures View() == old(View()).(d := CommitPlay(old(View()).d, pos, urlOk))
      ensures song == if pos < |queue| && urlOk then Some(queue[pos]) else None
    {
      if pos >= |queue| || !urlOk {
        return None;
      }
      song := Some(queue[pos]);
      queuePosition := Some(pos);
      nowPlaying := NowPlaying(song, Playing, 0.0, DurationOf(queue[pos]));
    }

    method Dispatch(id: string, pos: nat, buffered: bool, preloadOk: bool)
      modifies this
      ensures View() == DispatchPlay(old(View()), id, pos, buffered, preloadOk)
    {
      if buffered {
        prebuffer := Some(Pending(id, pos));
        MpvStop();
      } else {
        CancelPrebufferTask();
        MpvLoadReplace(id);
        PreloadNextTrack(pos, preloadOk);
      }
    }

    method PlayQueuePositionAt(pos: nat, buffered: bool, startAt: real, env: Env)
      modifies this
      ensures View() == PlayAt(old(View()), pos, buffered, startAt, env)
    {
      var song := CommitPlayState(pos, env.urlOk);
      if song.None? {
        return;
      }
      Dispatch(song.value.id, pos, buffered, env.preloadOk);
      if startAt > 0.0 {
        nowPlaying := nowPlaying.(position := startAt);
      }
    }

    method FinishAtEnd()
      modifies this
      ensures View() == FinishAtQueueEnd(old(View()))
      ensures forall env :: Lawful(old(View()), EvStop, env, View())
    {
      ghost var was := View();
      CancelPrebufferTask();
      MpvStop();
      nowPlaying := nowPlaying.(state := Stopped, position := 0.0);
      LawfulUnderAll(was, EvStop, View());
    }

    method ExtendWithRandomAndPlay(env: Env) returns (played: bool)
      modifies this
      ensures played ==> View() == ExtendOrFinish(old(View()), env)
      ensures !played ==> FinishAtQueueEnd(View()) == ExtendOrFinish(old(View()), env)
    {
      if env.extension == [] {
        return false;
      }
      var startPos := |queue|;
      queue := queue + env.extension;
      var song := CommitPlayState(startPos, env.urlOk);
      if song.None? {
        return false;
      }
      Dispatch(song.value.id, startPos, env.buffered, env.preloadOk);
      return true;
    }

    method PlayTargetOrEnd(target: Option<nat>, env: Env)
      modifies this
      ensures View() == GoTo(old(View()), target, env)
    {
      if |queue| == 0 {
        return;
      }
      if target.Some? {
        PlayQueuePositionAt(target.value, false, 0.0, env);
        return;
      }
      var played := ExtendWithRandomAndPlay(env);
      if !played {
        FinishAtEnd();
      }
    }

    method Next(env: Env)
      modifies this
      ensures View() == NextTrack(old(View()), env)
      ensures Lawful(old(View()), EvNext, env, View())
    {
      ghost var was := View();
      var target := if queuePosition.Some? then repeatMode.NextManual(queuePosition.value, |queue|) else Some(0);
      PlayTargetOrEnd(target, env);
      StepIsLawful(was, EvNext, env, View());
    }

    method Advance(env: Env)
      modifies this
      ensures View() == AdvanceAuto(old(View()), env)
      ensures Lawful(old(View()), EvAdvanceAuto, env, View())
    {
      ghost var was := View();
      var target := if queuePosition.Some? then repeatMode.NextAuto(queuePosition.value, |queue|) else Some(0);
      PlayTargetOrEnd(target, env);
      StepIsLawful(was, EvAdvanceAuto, env, View());
    }

    method Prev(env: Env)
      modifies this
      ensures View() == PrevTrack(old(View()), env)
      ensures Lawful(old(View()), EvPrev, env, View())
    {
      ghost var was := View();
      if |queue| == 0 {
        StepIsLawful(was, EvPrev, env, View());
        return;
      }
      if nowPlaying.position < 3.0 && queuePosition.Some? {
        if queuePosition.value > 0 {
          PlayQueuePositionAt(queuePosition.value - 1, false, 0.0, env);
          StepIsLawful(was, EvPrev, env, View());
          return;
        }
        var wrapTo := repeatMode.PrevWrap(|queue|);
        if wrapTo.Some? {
          PlayQueuePositionAt(wrapTo.value, false, 0.0, env);
          StepIsLawful(was, EvPrev, env, View());
          return;
        }
      }
      nowPlaying := nowPlaying.(position := 0.0);
      StepIsLawful(was, EvPrev, env, View());
    }

    method PausePlayback()
      modifies this
      ensures View() == Pause(old(View()))
      ensures forall env :: Lawful(old(View()), EvPause, env, View())
    {
      ghost var was := View();
      if nowPlaying.state != Playing {
        LawfulUnderAll(was, EvPause, View());
        return;
      }
      nowPlaying := nowPlaying.(state := Paused);
      CancelPrebufferTask();
      MpvStop();
      LawfulUnderAll(was, EvPause, View());
    }

    method ResumePlayback(env: Env)
      modifies this
      ensures View() == Resume(old(View()), env)
      ensures Lawful(old(View()), EvResume, env, View())
    {
      ghost var was := View();
      if nowPlaying.state == Playing || queuePosition.None? {
        StepIsLawful(was, EvResume, env, View());
        return;
      }
      var startAt := if nowPlaying.state == Paused then nowPlaying.position else 0.0;
      PlayQueuePositionAt(queuePosition.value, false, startAt, env);
      StepIsLawful(was, EvResume, env, View());
    }

    method StopPlayback()
      modifies this
      ensures View() == StopMpv(CancelPrebuffer(old(View()))).(d := StopClear(old(View()).d))
      ensures forall env :: Lawful(old(View()), EvClearQueue, env, View())
    {
      ghost var was := View();
      CancelPrebufferTask();
      MpvStop();
      nowPlaying := NOTHING_PLAYING;
      queue := [];
      queuePosition := None;
      LawfulUnderAll(was, EvClearQueue, View());
    }

    method HaltKeepQueue()
      modifies this
      ensures View() == StopMpv(CancelPrebuffer(old(View()))).(d := Halt(old(View()).d))
      ensures forall env :: Lawful(old(View()), EvHalt, env, View())
    {
      ghost var was := View();
      CancelPrebufferTask();
      MpvStop();
      nowPlaying := NOTHING_PLAYING;
      LawfulUnderAll(was, EvHalt, View());
    }

    method TogglePausePlayback(env: Env)
      modifies this
      ensures View() == TogglePause(old(View()), env)
      ensures Lawful(old(View()), EvTogglePause, env, View())
    {
      ghost var was := View();
      match nowPlaying.state
      case Playing => PausePlayback();
      case Paused => ResumePlayback(env);
      case Stopped =>
        if queuePosition.Some? {
          PlayQueuePositionAt(queuePosition.value, false, 0.0, env);
        }
      StepIsLawful(was, EvTogglePause, env, View());
    }

    method SeekTo(secs: real)
      modifies this
      ensures View() == old(View()).(d := SetPosition(old(View()).d, secs))
      ensures forall env :: Lawful(old(View()), EvSeek(secs), env, View())
    {
      ghost var was := View();
      nowPlaying := nowPlaying.(position := secs);
      LawfulUnderAll(was, EvSeek(secs), View());
    }

    method PlayIndex(pos: nat, env: Env)
      modifies this
      ensures View() == PlayAt(old(View()), pos, false, 0.0, env)
      ensures Lawful(old(View()), EvPlayIndex(pos), env, View())
    {
      ghost var was := View();
      PlayQueuePositionAt(pos, false, 0.0, env);
      StepIsLawful(was, EvPlayIndex(pos), env, View());
    }

    // ----- queue commands

    method ShuffleLibraryAndPlay(songs: seq<Child>, env: Env)
      modifies this
      ensures View() == ShuffleLibrary(old(View()), songs, env)
      ensures Lawful(old(View()), EvShuffleLibrary(songs), env, View())
    {
      ghost var was := View();
      if songs == [] {
        StepIsLawful(was, EvShuffleLibrary(songs), env, View());
        return;
      }
      queue := songs;
      queuePosition := None;
      PlayQueuePositionAt(0, env.buffered, 0.0, env);
      StepIsLawful(was, EvShuffleLibrary(songs), env, View());
    }

    method ReplaceQueueAndPlay(requested: seq<Child>, admitted: seq<Child>, playFrom: Option<nat>, env: Env)
      modifies this
      ensures View() == EnqueueReplace(old(View()), requested, admitted, playFrom, env)
      ensures Lawful(old(View()), EvReplace(requested, admitted, playFrom), env, View())
    {
      ghost var was := View();
      if requested != [] && admitted == [] {
        StepIsLawful(was, EvReplace(requested, admitted, playFrom), env, View());
        return;
      }
      queue := admitted;
      queuePosition := None;
      if playFrom.None? {
        StepIsLawful(was, EvReplace(requested, admitted, playFrom), env, View());
        return;
      }
      var song := CommitPlayState(playFrom.value, env.urlOk);
      if song.Some? {
        Dispatch(song.value.id, playFrom.value, env.buffered, env.preloadOk);
      }
      StepIsLawful(was, EvReplace(requested, admitted, playFrom), env, View());
    }

    method AppendSongs(requested: seq<Child>, admitted: seq<Child>, env: Env)
      modifies this
      ensures View() == EnqueueAppend(old(View()), requested, admitted, env)
      ensures Lawful(old(View()), EvAppend(requested, admitted), env, View())
    {
      ghost var was := View();
      if requested != [] && admitted == [] {
        StepIsLawful(was, EvAppend(requested, admitted), env, View());
        return;
      }
      var oldLen := |queue|;
      queue := queue + admitted;
      if queuePosition.Some? && queuePosition.value + 1 == oldLen {
        ResyncGaplessPreload(env.preloadOk);
      }
      StepIsLawful(was, EvAppend(requested, admitted), env, View());
    }

    // Songs go in one at a time, each behind the previous one.
    method InsertEach(insertAt: nat, songs: seq<Child>)
      requires insertAt <= |queue|
      modifies this
      ensures View() == old(View()).(d := old(View()).d.(queue := InsertedBlock(old(queue), insertAt, songs)))
    {
      for i := 0 to |songs|
        invariant queue == InsertedBlock(old(queue), insertAt, songs[..i])
        invariant View() == old(View()).(d := old(View()).d.(queue := queue))
      {
        queue := queue[..insertAt + i] + [songs[i]] + queue[insertAt + i..];
        assert songs[..i + 1] == songs[..i] + [songs[i]];
      }
      assert songs[..|songs|] == songs;
    }

    method InsertSongsAfter(after: nat, requested: seq<Child>, admitted: seq<Child>, env: Env)
      modifies this
      ensures View() == EnqueueAfter(old(View()), after, requested, admitted, env)
      ensures Lawful(old(View()), EvInsertAfter(after, requested, admitted), env, View())
    {
      ghost var was := View();
      if requested != [] && admitted == [] {
        StepIsLawful(was, EvInsertAfter(after, requested, admitted), env, View());
        return;
      }
      var insertAt := if after + 1 < |queue| then after + 1 else |queue|;
      InsertEach(insertAt, admitted);
      if queuePosition.Some? {
        var cur := queuePosition.value;
        if insertAt <= cur {
          queuePosition := Some(cur + |admitted|);
        }
        if insertAt == cur + 1 {
          ResyncGaplessPreload(env.preloadOk);
        }
      }
      StepIsLawful(was, EvInsertAfter(after, requested, admitted), env, View());
    }

    method HandleRemoveFromQueue(pos: nat, env: Env)
      modifies this
      ensures View() == RemoveFromQueue(old(View()), pos, env)
      ensures Lawful(old(View()), EvRemove(pos), env, View())
    {
      ghost var was := View();
      if pos >= |queue| {
        StepIsLawful(was, EvRemove(pos), env, View());
        return;
      }
      var wasPlaying := queuePosition == Some(pos);
      var removedNextUp := pos > 0 && queuePosition == Some(pos - 1);
      queue := queue[..pos] + queue[pos + 1..];
      if queuePosition.Some? {
        if pos < queuePosition.value {
          queuePosition := Some(queuePosition.value - 1);
        } else if pos == queuePosition.value {
          queuePosition := None;
        }
      }
      var mustStop := wasPlaying && pos >= |queue|;
      if mustStop {
        nowPlaying := NOTHING_PLAYING;
        MpvStop();
      } else if wasPlaying {
        PlayQueuePositionAt(pos, false, 0.0, env);
      } else if removedNextUp {
        ResyncGaplessPreload(env.preloadOk);
      }
      StepIsLawful(was, EvRemove(pos), env, View());
    }

    method MoveQueueItem(from: nat, to: nat, env: Env)
      modifies this
      ensures View() == MoveItem(old(View()), from, to, env)
      ensures Lawful(old(View()), EvMove(from, to), env, View())
    {
      ghost var was := View();
      if from >= |queue| || to >= |queue| || from == to {
        StepIsLawful(was, EvMove(from, to), env, View());
        return;
      }
      var song := queue[from];
      queue := queue[..from] + queue[from + 1..];
      queue := queue[..to] + [song] + queue[to..];
      assert queue == Moved(was.d.queue, from, to);
      if queuePosition.None? {
        StepIsLawful(was, EvMove(from, to), env, View());
        return;
      }
      var cur := queuePosition.value;
      var newCur := cur;
      if cur == from {
        newCur := to;
      } else if from < cur && to >= cur {
        newCur := cur - 1;
      } else if from > cur && to <= cur {
        newCur := cur + 1;
      }
      queuePosition := Some(newCur);
      assert newCur == MovedIndex(cur, from, to);
      var lo, hi := if from < to then from else to, if from < to then to else from;
      if !(hi < cur || lo > cur + 1) {
        ResyncGaplessPreload(env.preloadOk);
      }
      StepIsLawful(was, EvMove(from, to), env, View());
    }

    method ClearHistoryBefore() returns (removed: nat)
      requires queuePosition.Some? ==> queuePosition.value < |queue|
      modifies this
      ensures View() == ClearQueueHistory(old(View()))
      ensures removed == if old(queuePosition).Some? then old(queuePosition).value else 0
      ensures |old(queue)| == removed + |queue|
      ensures forall env :: Lawful(old(View()), EvClearHistory, env, View())
    {
      ghost var was := View();
      if queuePosition.None? || queuePosition.value == 0 {
        LawfulUnderAll(was, EvClearHistory, View());
        return 0;
      }
      removed := queuePosition.value;
      queue := queue[removed..];
      queuePosition := Some(0);
      LawfulUnderAll(was, EvClearHistory, View());
    }

    // `shuffled` is the outcome of the random shuffle of the entries that take part.
    method ShuffleInPlace(shuffled: seq<Child>, env: Env)
      requires ShuffleOutcome(View().d, shuffled)
      modifies this
      ensures View() == ShuffleQueue(old(View()), shuffled, env)
      ensures Lawful(old(View()), EvShuffle(shuffled), env, View())
    {
      ghost var was := View();
      if queue == [] {
        StepIsLawful(was, EvShuffle(shuffled), env, View());
        return;
      }
      if queuePosition.Some? && queuePosition.value < |queue| {
        ShuffleLength(View().d, shuffled);
        var cur := queuePosition.value;
        var current := queue[cur];
        queue := shuffled;
        queue := queue[..cur] + [current] + queue[cur..];
      } else {
        queue := shuffled;
      }
      ResyncGaplessPreload(env.preloadOk);
      StepIsLawful(was, EvShuffle(shuffled), env, View());
    }

    method ChangeRepeatMode(mode: RepeatMode, env: Env)
      modifies this
      ensures View() == SetRepeatMode(old(View()), mode, env)
      ensures Lawful(old(View()), EvSetRepeat(mode), env, View())
    {
      ghost var was := View();
      repeatMode := mode;
      if queuePosition.Some? {
        if |playlist| > 1 {
          MpvPlaylistRemove(1);
        }
        PreloadNextTrack(queuePosition.value, env.preloadOk);
      }
      StepIsLawful(was, EvSetRepeat(mode), env, View());
    }

    // ----- the tick

    method TryGaplessAdvance(env: Env) returns (advanced: bool)
      modifies this
      ensures View() == GaplessStep(old(View()), env)
      ensures advanced <==> GaplessTarget(old(View()).d).Some?
    {
      if queuePosition.None? {
        return false;
      }
      var next := repeatMode.NextAuto(queuePosition.value, |queue|);
      if next.None? || next.value >= |queue| {
        return false;
      }
      var song := queue[next.value];
      queuePosition := next;
      nowPlaying := nowPlaying.(song := Some(song), position := 0.0, duration := DurationOf(song));
      if playlistPos == 1 && playlist != [] {
        MpvPlaylistRemove(0);
      }
      PreloadNextTrack(next.value, env.preloadOk);
      return true;
    }

    method GatherTickInputs(v: TickView) returns (inputs: TickInputs)
      ensures inputs == GatherTick(View(), v)
    {
      var hasNext := queuePosition.Some? && queuePosition.value + 1 < |queue|;
      var mpvPos := if playlist == [] then None else Some(playlistPos);
      inputs := TickInputs(
        nowPlaying.state != Stopped, nowPlaying.state == Playing, true,
        nowPlaying.duration - nowPlaying.position, hasNext, nowPlaying.position,
        Some(|playlist|), mpvPos, Some(v.idle), queuePosition, prebuffer.Some?, v.justLoaded);
    }

    // Returns whether the tick goes on to its position and duration updates.
    method ApplyTickAction(action: TickAction, v: TickView, env: Env) returns (tail: bool)
      modifies this
      ensures tail ==> TickTail(View(), v) == TickApply(old(View()), action, v, env)
      ensures !tail ==> View() == TickApply(old(View()), action, v, env)
    {
      match action
      case Skip => return false;
      case AdvanceEarly =>
        Advance(env);
        return false;
      case Preload(fromPos) =>
        if v.preloadDue {
          PreloadNextTrack(fromPos, env.preloadOk);
        }
        return true;
      case GaplessAdvance =>
        var advanced := TryGaplessAdvance(env);
        return !advanced;
      case AdvanceOnIdle =>
        Advance(env);
        return false;
      case Continue => return true;
    }

    method MpvHops()
      modifies this
      ensures View() == Hop(old(View()))
    {
      if |playlist| == 2 {
        playlistPos := 1;
      }
    }

    method EmitPosition(v: TickView)
      modifies this
      ensures View() == TickTail(old(View()), v)
    {
      if nowPlaying.state == Playing {
        nowPlaying := nowPlaying.(position := v.timePos);
      }
      if v.mpvDuration > 0.0 && nowPlaying.duration <= 0.0 {
        nowPlaying := nowPlaying.(duration := v.mpvDuration);
      }
    }

    method UpdatePlaybackInfo(v: TickView, env: Env)
      modifies this
      ensures View() == Tick(old(View()), v, env)
      ensures Lawful(old(View()), EvTick(v), env, View())
    {
      ghost var was := View();
      if v.hop {
        MpvHops();
      }
      var inputs := GatherTickInputs(v);
      var tail := ApplyTickAction(DecideTick(inputs), v, env);
      if tail {
        EmitPosition(v);
      }
      StepIsLawful(was, EvTick(v), env, View());
    }

    method PrebufferFinished(fallback: bool, env: Env)
      modifies this
      ensures View() == PrebufferDone(old(View()), fallback, env)
      ensures Lawful(old(View()), EvPrebufferDone(fallback), env, View())
    {
      ghost var was := View();
      if prebuffer.None? {
        StepIsLawful(was, EvPrebufferDone(fallback), env, View());
        return;
      }
      var request := prebuffer.value;
      prebuffer := None;
      MpvLoadReplace(request.id);
      if !fallback {
        PreloadNextTrack(request.preloadPos, env.preloadOk);
      }
      StepIsLawful(was, EvPrebufferDone(fallback), env, View());
    }

    // ----- whole runs

    method HandlePlayback(ev: Event, env: Env)
      requires IsPlaybackEvent(ev)
      modifies this
      ensures View() == Step(old(View()), ev, env) && Lawful(old(View()), ev, env, View())
    {
      match ev
      case EvPlayIndex(p) => PlayIndex(p, env);
      case EvResume => ResumePlayback(env);
      case EvPause => PausePlayback();
      case EvTogglePause => TogglePausePlayback(env);
      case EvNext => Next(env);
      case EvPrev => Prev(env);
      case EvAdvanceAuto => Advance(env);
      case EvSeek(secs) => SeekTo(secs);
      case EvClearQueue => StopPlayback();
      case EvStop => FinishAtEnd();
      case EvHalt => HaltKeepQueue();
      case EvReplace(requested, admitted, playFrom) => ReplaceQueueAndPlay(requested, admitted, playFrom, env);
      case EvShuffleLibrary(songs) => ShuffleLibraryAndPlay(songs, env);
    }

    method Handle(ev: Event, env: Env)
      requires Inv(View()) && Possible(View(), ev)
      modifies this
      ensures View() == Step(old(View()), ev, env) && Lawful(old(View()), ev, env, View())
    {
      match ev
      case EvAppend(requested, admitted) => AppendSongs(requested, admitted, env);
      case EvInsertAfter(after, requested, admitted) => InsertSongsAfter(after, requested, admitted, env);
      case EvRemove(p) => HandleRemoveFromQueue(p, env);
      case EvMove(from, to) => MoveQueueItem(from, to, env);
      case EvClearHistory => var _ := ClearHistoryBefore();
      case EvShuffle(rest) => ShuffleInPlace(rest, env);
      case EvSetRepeat(mode) => ChangeRepeatMode(mode, env);
      case EvTick(view) => UpdatePlaybackInfo(view, env);
      case EvPrebufferDone(fallback) => PrebufferFinished(fallback, env);
      case _ => HandlePlayback(ev, env);
    }

    // The object itself refines the queue: however its methods are called one after the other, the
    // invariant holds, without a hazard the window is whole, and without a removal that leaves a
    // download mpv is silent while nothing plays.
    method HandleAll(evs: seq<Event>, envs: seq<Env>) returns (ghost es: seq<Engine>)
      requires |evs| == |envs| && Starts(View()) && Feasible(View(), evs, envs)
      modifies this
      ensures Ran(es, evs, envs) && es[0] == old(View()) && es[|evs|] == View()
    {
      es := [View()];
      ProgressStarts(evs, envs, View());
      var i := 0;
      while i < |evs|
        invariant i <= |evs| && |es| == i + 1 && es[0] == old(View())
        invariant Progress(es, evs, envs, i, View())
      {
        ghost var now := View();
        NextIsPossible(es, evs, envs, i, now);
        Handle(evs[i], envs[i]);
        ProgressOne(es, evs, envs, i, now, View());
        es := es + [View()];
        i := i + 1;
      }
      ProgressAtEnd(es, evs, envs, View());
    }
  }
}
