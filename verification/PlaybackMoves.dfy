// Where each command and each tick leaves the player: which entry it is on, what mpv holds, what
// happened to the queue. Stated on the states before and after, without the functions between.
module PlaybackMoves {
  import opened Wrappers
  import opened Models
  import opened QueueEdits
  import opened DaemonState
  import opened PlaybackWindow

  // ----- on an entry, and at the end

  // On entry `p` of `q`, `at` seconds in.
  predicate On(r: Engine, q: seq<Child>, p: nat, at: real) {
    && p < |q| && r.d.queue == q && r.d.pos == Some(p)
    && r.d.np == NowPlaying(Some(q[p]), Playing, at, DurationOf(q[p]))
  }

  // mpv plays the song, or waits empty for its download.
  predicate Sounds(r: Engine, id: string) {
    r.playlist != [] && r.playlist[0] == id && r.slot == 0 && r.pending.None?
  }

  predicate Waits(r: Engine, id: string, p: nat) {
    r.playlist == [] && r.slot == 0 && r.pending == Some(Pending(id, p))
  }

  predicate Starts(r: Engine, q: seq<Child>, p: nat, at: real, buffered: bool, mode: RepeatMode) {
    On(r, q, p, at) && r.d.repeat == mode && if buffered then Waits(r, q[p].id, p) else Sounds(r, q[p].id)
  }

  predicate Silent(r: Engine) {
    r.playlist == [] && r.slot == 0 && r.pending.None?
  }

  // Stopped at the start of what was played, queue and selection kept.
  predicate Ended(e: Engine, r: Engine) {
    && r.d.queue == e.d.queue && r.d.pos == e.d.pos && r.d.repeat == e.d.repeat
    && r.d.np == NowPlaying(e.d.np.song, Stopped, 0.0, e.d.np.duration) && Silent(r)
  }

  // The same queue, selection, song and sound; at most the preloaded successor differs.
  predicate SameSound(e: Engine, r: Engine) {
    (e.slot == 0 ==> r.slot == 0) && r.pending == e.pending && (r.playlist == [] <==> e.playlist == [])
    && (e.playlist != [] ==> r.playlist[0] == e.playlist[0])
  }

  // ----- Next, Previous and the automatic advance

  // To `target`, or beyond the end: into what auto-continue adds, or to a stop.
  predicate SkipsTo(e: Engine, target: Option<nat>, env: Env, r: Engine) {
    if e.d.queue == [] then r == e
    else if target.Some? then
      if env.urlOk then Starts(r, e.d.queue, target.value, 0.0, false, e.d.repeat) else r == e
    else if env.extension == [] then Ended(e, r)
    else
      var longer := e.d.queue + env.extension;
      if env.urlOk then Starts(r, longer, |e.d.queue|, 0.0, env.buffered, e.d.repeat)
      else Ended(e.(d := e.d.(queue := longer)), r)
  }

  lemma NextIndex(p: nat, n: nat)
    requires p < n
    ensures p % n == p && (p + 1) % n == if p + 1 < n then p + 1 else 0
  {
    ModUnique(p, n, 0, p);
    RoundStep(p, n);
  }

  lemma GoToGoes(e: Engine, target: Option<nat>, env: Env)
    requires target.Some? && e.d.queue != [] ==> target.value < |e.d.queue|
    ensures SkipsTo(e, target, env, GoTo(e, target, env))
  {
  }

  // The following entry, or what a skip by hand does behind the last one: `One` wraps like `All`.
  lemma NextGoes(e: Engine, env: Env)
    requires Consistent(e.d)
    ensures var n := |e.d.queue|;
            var target := if e.d.pos.None? then Some(0)
                          else if e.d.pos.value + 1 < n then Some(e.d.pos.value + 1)
                          else if e.d.repeat == Off then None else Some(0);
            SkipsTo(e, target, env, Step(e, EvNext, env))
  {
    var n := |e.d.queue|;
    if e.d.pos.Some? {
      NextIndex(e.d.pos.value, n);
    }
    GoToGoes(e, if e.d.pos.Some? then e.d.repeat.NextManual(e.d.pos.value, n) else Some(0), env);
  }

  // The entry where the track ends by itself.
  function Successor(e: Engine): Option<nat> {
    if e.d.pos.None? then Some(0)
    else if e.d.repeat == One then e.d.pos
    else if e.d.pos.value + 1 < |e.d.queue| then Some(e.d.pos.value + 1)
    else if e.d.repeat == All then Some(0)
    else None
  }

  // At the end of a track `One` stays on it.
  lemma AdvanceGoes(e: Engine, env: Env)
    requires Consistent(e.d)
    ensures SkipsTo(e, Successor(e), env, Step(e, EvAdvanceAuto, env))
  {
    if e.d.pos.Some? {
      NextIndex(e.d.pos.value, |e.d.queue|);
      assert e.d.repeat.NextAuto(e.d.pos.value, |e.d.queue|) == Successor(e);
    }
    GoToGoes(e, Successor(e), env);
  }

  predicate Restarted(e: Engine, r: Engine) {
    && r.d.queue == e.d.queue && r.d.pos == e.d.pos && r.d.repeat == e.d.repeat
    && r.d.np == NowPlaying(e.d.np.song, e.d.np.state, 0.0, e.d.np.duration)
    && r.playlist == e.playlist && r.slot == e.slot && r.pending == e.pending
  }

  // Within three seconds back by one entry, or round to the last under `One` and `All`; otherwise
  // to the start of the same entry.
  lemma PrevGoes(e: Engine, env: Env)
    requires Consistent(e.d)
    ensures var r, n, near := Step(e, EvPrev, env), |e.d.queue|, e.d.np.position < 3.0 && e.d.pos.Some?;
            if n == 0 then r == e
            else if near && (e.d.pos.value > 0 || e.d.repeat != Off) then
              if env.urlOk then
                Starts(r, e.d.queue, if e.d.pos.value > 0 then e.d.pos.value - 1 else n - 1, 0.0, false, e.d.repeat)
              else r == e
            else Restarted(e, r)
  {
  }

  ghost function Presses(e: Engine, ev: Event, k: nat, env: Env): Engine
    requires ev == EvNext || ev == EvPrev
  {
    if k == 0 then e else Step(Presses(e, ev, k - 1, env), ev, env)
  }

  // So k presses of Previous go back k entries.
  lemma {:induction false} PrevPresses(e: Engine, k: nat, env: Env)
    requires Consistent(e.d) && env.urlOk && e.d.np.position < 3.0
    requires e.d.pos.Some? && 1 <= k <= e.d.pos.value
    ensures Starts(Presses(e, EvPrev, k, env), e.d.queue, e.d.pos.value - k, 0.0, false, e.d.repeat)
  {
    var before := Presses(e, EvPrev, k - 1, env);
    if k > 1 {
      PrevPresses(e, k - 1, env);
    }
    PrevGoes(before, env);
  }

  lemma NextOnce(e: Engine, q: seq<Child>, p: nat, env: Env)
    requires p < |q| && env.urlOk && e.d.queue == q && e.d.pos == Some(p)
    ensures var next := e.d.repeat.NextManual(p, |q|);
            next.Some? ==> Starts(Step(e, EvNext, env), q, next.value, 0.0, false, e.d.repeat)
  {
  }

  // And k presses of Next go where k skips by hand lead.
  lemma {:induction false} NextPresses(e: Engine, k: nat, env: Env)
    requires Consistent(e.d) && env.urlOk && e.d.pos.Some? && k >= 1
    requires AfterSkips(e.d.repeat, e.d.pos.value, |e.d.queue|, k).Some?
    ensures Starts(Presses(e, EvNext, k, env), e.d.queue,
                   AfterSkips(e.d.repeat, e.d.pos.value, |e.d.queue|, k).value, 0.0, false, e.d.repeat)
  {
    var before := Presses(e, EvNext, k - 1, env);
    if k > 1 {
      NextPresses(e, k - 1, env);
    }
    NextOnce(before, e.d.queue, before.d.pos.value, env);
  }

  // Next, then Previous at once, is back on the old entry, wherever Next stays inside the queue.
  lemma NextThenPrev(e: Engine, env: Env)
    requires Consistent(e.d) && env.urlOk && e.d.pos.Some?
    requires e.d.pos.value + 1 < |e.d.queue| || e.d.repeat != Off
    ensures Starts(Step(Step(e, EvNext, env), EvPrev, env), e.d.queue, e.d.pos.value, 0.0, false, e.d.repeat)
  {
    NextGoes(e, env);
    PrevGoes(Step(e, EvNext, env), env);
  }

  lemma PrevThenNext(e: Engine, env: Env)
    requires Consistent(e.d) && env.urlOk && e.d.pos.Some? && e.d.np.position < 3.0
    requires e.d.pos.value > 0 || e.d.repeat != Off
    ensures Starts(Step(Step(e, EvPrev, env), EvNext, env), e.d.queue, e.d.pos.value, 0.0, false, e.d.repeat)
  {
    PrevGoes(e, env);
    NextGoes(Step(e, EvPrev, env), env);
  }

  // ----- the other transport commands

  lemma PlayIndexGoes(e: Engine, p: nat, env: Env)
    ensures var r := Step(e, EvPlayIndex(p), env);
            if p < |e.d.queue| && env.urlOk then Starts(r, e.d.queue, p, 0.0, false, e.d.repeat) else r == e
  {
  }

  predicate PausedFrom(e: Engine, r: Engine) {
    && r.d.queue == e.d.queue && r.d.pos == e.d.pos && r.d.repeat == e.d.repeat
    && r.d.np == NowPlaying(e.d.np.song, Paused, e.d.np.position, e.d.np.duration) && Silent(r)
  }

  lemma PauseGoes(e: Engine, env: Env)
    ensures var r := Step(e, EvPause, env); if e.d.np.state == Playing then PausedFrom(e, r) else r == e
  {
  }

  lemma ResumeGoes(e: Engine, env: Env)
    requires Consistent(e.d)
    ensures var r, at := Step(e, EvResume, env), e.d.np.position;
            if e.d.np.state == Playing || e.d.pos.None? || !env.urlOk then r == e
            else Starts(r, e.d.queue, e.d.pos.value, if e.d.np.state == Paused && at > 0.0 then at else 0.0, false,
                        e.d.repeat)
  {
  }

  // Pause, then resume: the same entry plays on from the same second.
  lemma PauseThenResume(e: Engine, env: Env)
    requires Consistent(e.d) && env.urlOk && e.d.np.state == Playing && e.d.pos.Some? && e.d.np.position >= 0.0
    ensures Starts(Step(Step(e, EvPause, env), EvResume, env), e.d.queue, e.d.pos.value, e.d.np.position, false,
                   e.d.repeat)
  {
    PauseGoes(e, env);
    ResumeGoes(Step(e, EvPause, env), env);
  }

  // The toggle is pause or resume by state, and a start from the top when stopped.
  lemma ToggleGoes(e: Engine, env: Env)
    requires Consistent(e.d)
    ensures var r := Step(e, EvTogglePause, env);
            match e.d.np.state
            case Playing => PausedFrom(e, r)
            case Paused => r == Step(e, EvResume, env)
            case Stopped =>
              if e.d.pos.Some? && env.urlOk then Starts(r, e.d.queue, e.d.pos.value, 0.0, false, e.d.repeat) else r == e
  {
  }

  lemma StopsGo(e: Engine, env: Env)
    ensures Ended(e, Step(e, EvStop, env))
    ensures var r := Step(e, EvClearQueue, env);
            r.d == DState([], None, NowPlaying(None, Stopped, 0.0, 0.0), e.d.repeat) && Silent(r)
    ensures var r := Step(e, EvHalt, env);
            r.d == DState(e.d.queue, e.d.pos, NowPlaying(None, Stopped, 0.0, 0.0), e.d.repeat) && Silent(r)
  {
  }

  // Everything but the playhead as before.
  predicate OnlyPlayhead(e: Engine, r: Engine, secs: real) {
    && r.d.queue == e.d.queue && r.d.pos == e.d.pos && r.d.repeat == e.d.repeat
    && r.d.np == NowPlaying(e.d.np.song, e.d.np.state, secs, e.d.np.duration)
    && r.playlist == e.playlist && r.slot == e.slot && r.pending == e.pending
  }

  lemma SeekGoes(e: Engine, secs: real, env: Env)
    ensures OnlyPlayhead(e, Step(e, EvSeek(secs), env), secs)
  {
  }

  // ----- queue commands

  // The song and what sounds stay; only queue and position may differ.
  predicate PlaysOn(e: Engine, r: Engine) {
    r.d.np == e.d.np && r.d.repeat == e.d.repeat && SameSound(e, r)
  }

  lemma ReplaceGoes(e: Engine, requested: seq<Child>, admitted: seq<Child>, playFrom: Option<nat>, env: Env)
    ensures var r := Step(e, EvReplace(requested, admitted, playFrom), env);
            if requested != [] && admitted == [] then r == e
            else if playFrom.Some? && playFrom.value < |admitted| && env.urlOk then
              Starts(r, admitted, playFrom.value, 0.0, env.buffered, e.d.repeat)
            else r.d.queue == admitted && r.d.pos.None? && PlaysOn(e, r)
  {
  }

  lemma ShuffleLibraryGoes(e: Engine, songs: seq<Child>, env: Env)
    ensures var r := Step(e, EvShuffleLibrary(songs), env);
            if songs == [] then r == e
            else if env.urlOk then Starts(r, songs, 0, 0.0, env.buffered, e.d.repeat)
            else r.d.queue == songs && r.d.pos.None? && PlaysOn(e, r)
  {
  }

  lemma AppendGoes(e: Engine, requested: seq<Child>, admitted: seq<Child>, env: Env)
    ensures var r := Step(e, EvAppend(requested, admitted), env);
            if requested != [] && admitted == [] then r == e
            else r.d.queue == e.d.queue + admitted && r.d.pos == e.d.pos && PlaysOn(e, r)
  {
  }

  // Behind entry `after`, or at the end if there is no such entry; the position follows its entry.
  lemma InsertGoes(e: Engine, after: nat, requested: seq<Child>, admitted: seq<Child>, env: Env)
    ensures var r, n := Step(e, EvInsertAfter(after, requested, admitted), env), |e.d.queue|;
            var at := if after + 1 < n then after + 1 else n;
            if requested != [] && admitted == [] then r == e
            else
              && r.d.queue == e.d.queue[..at] + admitted + e.d.queue[at..] && PlaysOn(e, r)
              && r.d.pos == (if e.d.pos.Some? && at <= e.d.pos.value then Some(e.d.pos.value + |admitted|) else e.d.pos)
  {
  }

  // Removing the current entry plays the one behind it, or stops if there is none.
  lemma RemoveGoes(e: Engine, p: nat, env: Env)
    ensures var r, q := Step(e, EvRemove(p), env), e.d.queue;
            if p >= |q| then r == e
            else
              var shorter := q[..p] + q[p + 1..];
              if e.d.pos != Some(p) then
                && r.d.queue == shorter && PlaysOn(e, r)
                && r.d.pos == (if e.d.pos.Some? && p < e.d.pos.value then Some(e.d.pos.value - 1) else e.d.pos)
              else if p + 1 == |q| then
                && r.d == DState(shorter, None, NowPlaying(None, Stopped, 0.0, 0.0), e.d.repeat)
                && r.playlist == [] && r.slot == 0 && r.pending == e.pending
              else if env.urlOk then Starts(r, shorter, p, 0.0, false, e.d.repeat)
              else r.d.queue == shorter && r.d.pos.None? && PlaysOn(e, r)
  {
  }

  lemma MovedRest<T>(q: seq<T>, from: nat, to: nat)
    requires from < |q| && to < |q|
    ensures var m := Moved(q, from, to);
            m[to] == q[from] && m[..to] + m[to + 1..] == q[..from] + q[from + 1..]
  {
    var m, rest := Moved(q, from, to), Removed(q, from);
    assert m[..to] == rest[..to] && m[to + 1..] == rest[to..];
    assert rest == rest[..to] + rest[to..];
  }

  // The entry goes to `to`, the others keep their order, and the position follows its entry.
  lemma MoveGoes(e: Engine, from: nat, to: nat, env: Env)
    ensures var r, q := Step(e, EvMove(from, to), env), e.d.queue;
            if from >= |q| || to >= |q| then r == e
            else
              && PlaysOn(e, r) && |r.d.queue| == |q| && r.d.queue[to] == q[from]
              && r.d.queue[..to] + r.d.queue[to + 1..] == q[..from] + q[from + 1..]
              && match e.d.pos
                 case None => r.d.pos.None?
                 case Some(i) =>
                   r.d.pos == Some(if i == from then to else if from < i <= to then i - 1
                                   else if to <= i < from then i + 1 else i)
  {
    if from < |e.d.queue| && to < |e.d.queue| {
      MovedRest(e.d.queue, from, to);
    }
  }

  lemma ClearHistoryGoes(e: Engine, env: Env)
    requires Consistent(e.d)
    ensures var r := Step(e, EvClearHistory, env);
            && PlaysOn(e, r)
            && (e.d.pos.None? ==> r.d.queue == e.d.queue && r.d.pos.None?)
            && (e.d.pos.Some? ==> r.d.queue == e.d.queue[e.d.pos.value..] && r.d.pos == Some(0))
  {
  }

  lemma ResyncPlaysOn(e: Engine, ok: bool)
    ensures Resync(e, ok).d == e.d && SameSound(e, Resync(e, ok))
  {
  }

  lemma BlockInside<T>(rest: seq<T>, at: nat, x: T)
    requires at <= |rest|
    ensures var q := InsertedBlock(rest, at, [x]); q[at] == x && q[..at] + q[at + 1..] == rest
  {
    var q := InsertedBlock(rest, at, [x]);
    assert q[..at] == rest[..at] && q[at + 1..] == rest[at..];
  }

  lemma ShuffledAround(d: DState, rest: seq<Child>)
    requires Consistent(d) && ShuffleOutcome(d, rest) && d.pos.Some?
    ensures var q, p := Shuffle(d, rest).queue, d.pos.value;
            |q| == |d.queue| && q[p] == d.queue[p] && q[..p] + q[p + 1..] == rest
  {
    ShuffleLength(d, rest);
    BlockInside(rest, d.pos.value, d.queue[d.pos.value]);
  }

  lemma NothingToShuffle(d: DState, rest: seq<Child>)
    requires Consistent(d) && ShuffleOutcome(d, rest) && d.queue == []
    ensures rest == []
  {
    assert |multiset(rest)| == |multiset(d.queue)|;
  }

  // The current entry stays where it is, and the others come in the shuffled order around it.
  predicate ShuffledTo(d: DState, rest: seq<Child>, q: seq<Child>) {
    match d.pos
    case None => q == rest
    case Some(p) => p < |q| == |d.queue| && q[p] == d.queue[p] && q[..p] + q[p + 1..] == rest
  }

  lemma ShuffleGoes(e: Engine, rest: seq<Child>, env: Env)
    requires Consistent(e.d) && ShuffleOutcome(e.d, rest)
    ensures var r := Step(e, EvShuffle(rest), env);
            PlaysOn(e, r) && r.d.pos == e.d.pos && ShuffledTo(e.d, rest, r.d.queue)
  {
    if e.d.queue == [] {
      NothingToShuffle(e.d, rest);
    } else {
      var shuffled := e.(d := Shuffle(e.d, rest));
      if e.d.pos.Some? {
        ShuffledAround(e.d, rest);
      }
      assert ShuffledTo(e.d, rest, shuffled.d.queue);
      ResyncPlaysOn(shuffled, env.preloadOk);
    }
  }

  lemma SetRepeatGoes(e: Engine, mode: RepeatMode, env: Env)
    ensures var r := Step(e, EvSetRepeat(mode), env);
            && r.d.queue == e.d.queue && r.d.pos == e.d.pos && r.d.np == e.d.np && r.d.repeat == mode
            && SameSound(e, r)
  {
  }

  // An edit away from the current entry `c` and the one behind it leaves mpv's playlist untouched.
  lemma EditsElsewhereLeavePreload(e: Engine, c: nat, songs: seq<Child>, p: nat, to: nat, env: Env)
    requires e.d.pos == Some(c)
    ensures c + 1 < |e.d.queue| ==> Step(e, EvAppend(songs, songs), env).playlist == e.playlist
    ensures p != c && c + 1 < |e.d.queue| ==> Step(e, EvInsertAfter(p, songs, songs), env).playlist == e.playlist
    ensures p != c && p != c + 1 ==> Step(e, EvRemove(p), env).playlist == e.playlist
    ensures (p < c && to < c) || (p > c + 1 && to > c + 1) ==> Step(e, EvMove(p, to), env).playlist == e.playlist
    ensures Step(e, EvClearHistory, env).playlist == e.playlist
  {
  }

  // The finished download of the pending request starts to sound; the state does not change.
  lemma PrebufferDoneGoes(e: Engine, fallback: bool, env: Env)
    ensures var r := Step(e, EvPrebufferDone(fallback), env);
            if e.pending.None? then r == e else r.d == e.d && Sounds(r, e.pending.value.id)
  {
  }

  // ----- the tick

  // mpv is on the preloaded song: it has just gone there, or was there before.
  predicate OnSecond(e: Engine, v: TickView) {
    |e.playlist| == 2 && (v.hop || e.slot == 1)
  }

  // Under two seconds are left, a successor is in the queue, and none is preloaded.
  predicate LastSeconds(e: Engine) {
    && e.d.pos.Some? && e.d.pos.value + 1 < |e.d.queue| && |e.playlist| < 2
    && e.d.np.position > 0.5 && e.d.np.duration - 2.0 < e.d.np.position < e.d.np.duration
  }

  // mpv has nothing more to play, and no start is under way.
  predicate RanOut(e: Engine, v: TickView) {
    v.idle && e.pending.None? && !v.justLoaded && !(|e.playlist| == 1 && e.d.pos.Some?)
  }

  // A tick decides nothing exactly if nothing is selected to play or mpv is not there.
  lemma TickSkipsIff(i: TickInputs)
    ensures DecideTick(i) == Skip <==> !(i.isActive && i.mpvRunning)
  {
  }

  // Only the playhead, a missing duration and an empty preload slot are filled in.
  predicate TickStays(e: Engine, v: TickView, env: Env, r: Engine) {
    && r.d.queue == e.d.queue && r.d.pos == e.d.pos && r.d.repeat == e.d.repeat
    && r.d.np.song == e.d.np.song && r.d.np.state == e.d.np.state
    && r.d.np.position == (if e.d.np.state == Playing then v.timePos else e.d.np.position)
    && r.d.np.duration ==
       (if e.d.np.state != Stopped && v.mpvDuration > 0.0 && e.d.np.duration <= 0.0 then v.mpvDuration else e.d.np.duration)
    && r.pending == e.pending && r.slot == (if v.hop && |e.playlist| == 2 then 1 else e.slot)
    && r.playlist == e.playlist
       + if e.d.np.state == Playing && |e.playlist| == 1 && v.preloadDue && env.preloadOk && e.d.pos.Some?
            && Successor(e).Some? && Successor(e).value < |e.d.queue|
         then [e.d.queue[Successor(e).value].id] else []
  }

  // mpv is already on the successor: the daemon takes it over, playhead at the start.
  predicate TakesOver(e: Engine, n: nat, r: Engine) {
    && |e.playlist| == 2 && n < |e.d.queue| && r.d.queue == e.d.queue && r.d.pos == Some(n) && r.d.repeat == e.d.repeat
    && r.d.np == NowPlaying(Some(e.d.queue[n]), Playing, 0.0, DurationOf(e.d.queue[n]))
    && r.playlist != [] && r.playlist[0] == e.playlist[1] && r.slot == 0 && r.pending == e.pending
  }

  lemma SuccessorIsTarget(e: Engine)
    requires Consistent(e.d)
    ensures e.d.pos.Some? ==> GaplessTarget(e.d) == Successor(e)
    ensures e.d.pos.Some? && Successor(e).Some? ==>
              Successor(e).value < |e.d.queue|
              && NextUp(e.d.queue, e.d.pos.value, e.d.repeat) == Some(e.d.queue[Successor(e).value])
    ensures e.d.pos.Some? && Successor(e).None? ==> NextUp(e.d.queue, e.d.pos.value, e.d.repeat).None?
  {
    if e.d.pos.Some? {
      NextIndex(e.d.pos.value, |e.d.queue|);
    }
  }

  lemma IdleTickStays(e: Engine, v: TickView, env: Env)
    requires Consistent(e.d) && e.d.np.state != Playing
    ensures TickStays(e, v, env, Tick(e, v, env))
  {
  }

  lemma SecondTickGoes(e: Engine, v: TickView, env: Env)
    requires Consistent(e.d) && e.d.np.state == Playing && OnSecond(e, v)
    ensures var r := Tick(e, v, env);
            if e.d.pos.Some? && Successor(e).Some? then TakesOver(e, Successor(e).value, r) else TickStays(e, v, env, r)
  {
    SuccessorIsTarget(e);
    var seen := e.(slot := 1);
    assert (if v.hop then Hop(e) else e) == seen;
    assert DecideTick(GatherTick(seen, v)) == GaplessAdvance;
    assert Removed(e.playlist, 0) == [e.playlist[1]];
  }

  // mpv is on an entry it has.
  predicate InRange(e: Engine) {
    e.slot == 0 || e.slot < |e.playlist|
  }

  lemma AdvancingTickGoes(e: Engine, v: TickView, env: Env)
    requires Consistent(e.d) && e.d.np.state == Playing && !OnSecond(e, v) && |e.playlist| <= 2
    requires InRange(e) && (LastSeconds(e) || RanOut(e, v))
    ensures SkipsTo(e, Successor(e), env, Tick(e, v, env))
  {
    assert (if v.hop then Hop(e) else e) == e;
    assert DecideTick(GatherTick(e, v)) == if LastSeconds(e) then AdvanceEarly else AdvanceOnIdle;
    AdvanceGoes(e, env);
  }

  lemma StayingTickGoes(e: Engine, v: TickView, env: Env)
    requires Consistent(e.d) && e.d.np.state == Playing && !OnSecond(e, v) && |e.playlist| <= 2
    requires InRange(e) && !LastSeconds(e) && !RanOut(e, v)
    ensures TickStays(e, v, env, Tick(e, v, env))
  {
    assert (if v.hop then Hop(e) else e) == e;
    assert DecideTick(GatherTick(e, v)) ==
           if |e.playlist| == 1 && e.d.pos.Some? then Preload(e.d.pos.value) else Continue;
    SuccessorIsTarget(e);
  }

  // A tick leaves the current entry exactly if it is playing and mpv is on the successor, or the
  // last two seconds run with nothing preloaded, or mpv has run out; and it then goes to the
  // automatic successor.
  lemma TickGoes(e: Engine, v: TickView, env: Env)
    requires Consistent(e.d) && |e.playlist| <= 2 && InRange(e)
    ensures var r := Step(e, EvTick(v), env);
            if e.d.np.state != Playing then TickStays(e, v, env, r)
            else if OnSecond(e, v) then
              if e.d.pos.Some? && Successor(e).Some? then TakesOver(e, Successor(e).value, r) else TickStays(e, v, env, r)
            else if LastSeconds(e) || RanOut(e, v) then SkipsTo(e, Successor(e), env, r)
            else TickStays(e, v, env, r)
  {
    if e.d.np.state != Playing {
      IdleTickStays(e, v, env);
    } else if OnSecond(e, v) {
      SecondTickGoes(e, v, env);
    } else if LastSeconds(e) || RanOut(e, v) {
      AdvancingTickGoes(e, v, env);
    } else {
      StayingTickGoes(e, v, env);
    }
  }

  lemma PlayKeepsInRange(e: Engine, ev: Event, env: Env)
    requires InRange(e) && IsPlaybackEvent(ev) && Possible(e, ev)
    ensures InRange(Step(e, ev, env))
  {
  }

  lemma EditKeepsInRange(e: Engine, ev: Event, env: Env)
    requires InRange(e) && |e.playlist| <= 2 && Possible(e, ev) && !IsPlaybackEvent(ev) && !ev.EvTick?
    ensures InRange(Step(e, ev, env))
  {
  }

  // Every event of a run keeps it so, which is what a tick relies on.
  lemma StepKeepsInRange(e: Engine, ev: Event, env: Env)
    requires Inv(e) && InRange(e) && Possible(e, ev)
    ensures InRange(Step(e, ev, env))
  {
    if ev.EvTick? {
      TickGoes(e, ev.view, env);
    } else if IsPlaybackEvent(ev) {
      PlayKeepsInRange(e, ev, env);
    } else {
      EditKeepsInRange(e, ev, env);
    }
  }

  lemma {:induction false} RunKeepsInRange(es: seq<Engine>, evs: seq<Event>, envs: seq<Env>, i: nat)
    requires PlaybackWindow.Run(es, evs, envs) && i < |es|
    ensures InRange(es[i])
  {
    if i > 0 {
      var last := i - 1;
      RunKeepsInRange(es, evs, envs, last);
      RunKeepsInv(es, evs, envs, last);
      StepKeepsInRange(es[last], evs[last], envs[last]);
    }
  }
}
