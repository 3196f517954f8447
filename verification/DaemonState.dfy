// The daemon state behind the `state` lock, and every critical section that writes its queue,
// position or now-playing part: the playback and queue operations, and the rating and star passes
// that rewrite the songs themselves. A run of the whole daemon, however its tasks interleave, is
// a sequence of these sections.
module DaemonState {
  import opened Wrappers
  import opened Models
  import opened QueueEdits

  datatype DState = DState(queue: seq<Child>, pos: Option<nat>, np: NowPlaying, repeat: RepeatMode)

  // What every section keeps: the position is a queue index, the current entry is the playing
  // song, and Playing implies a song.
  ghost predicate Consistent(d: DState) {
    && (d.pos.Some? ==> d.pos.value < |d.queue|)
    && (d.pos.Some? && d.np.song.Some? ==> d.queue[d.pos.value].id == d.np.song.value.id)
    && (d.np.state == Playing ==> d.np.song.Some?)
  }

  // ----- playback sections

  // `urlOk`: the stream URL for the entry could be built.
  function CommitPlay(d: DState, p: nat, urlOk: bool): (r: DState) {
    if p < |d.queue| && urlOk then
      d.(pos := Some(p), np := NowPlaying(Some(d.queue[p]), Playing, 0.0, DurationOf(d.queue[p])))
    else d
  }

  function GaplessTarget(d: DState): (n: Option<nat>) {
    if d.pos.None? then None
    else
      var n := d.repeat.NextAuto(d.pos.value, |d.queue|);
      if n.Some? && n.value < |d.queue| then n else None
  }

  function GaplessCommit(d: DState): (r: DState) {
    var n := GaplessTarget(d);
    if n.None? then d
    else
      var song := d.queue[n.value];
      d.(pos := n, np := d.np.(song := Some(song), position := 0.0, duration := DurationOf(song)))
  }

  function PauseState(d: DState): (r: DState) {
    if d.np.state == Playing then d.(np := d.np.(state := Paused)) else d
  }

  // End of queue, and Stop that keeps the queue.
  function StopKeep(d: DState): (r: DState) {
    d.(np := d.np.(state := Stopped, position := 0.0))
  }

  function Halt(d: DState): (r: DState) {
    d.(np := NOTHING_PLAYING)
  }

  function StopClear(d: DState): (r: DState) {
    d.(queue := [], pos := None, np := NOTHING_PLAYING)
  }

  function SetPosition(d: DState, secs: real): (r: DState) {
    d.(np := d.np.(position := secs))
  }

  // The tick writes mpv's playhead only while Playing, and a missing duration whenever mpv knows it.
  function TickPosition(d: DState, secs: real): (r: DState) {
    if d.np.state == Playing then SetPosition(d, secs) else d
  }

  function BackfillDuration(d: DState, secs: real): (r: DState) {
    d.(np := Backfilled(d.np, secs))
  }

  // ----- queue sections

  // `playFrom` is `None` when nothing was asked to play or the server is not configured.
  function Replace(d: DState, songs: seq<Child>, playFrom: Option<nat>, urlOk: bool): (r: DState) {
    var swapped := d.(queue := songs, pos := None);
    if playFrom.Some? then CommitPlay(swapped, playFrom.value, urlOk) else swapped
  }

  function Append(d: DState, songs: seq<Child>): (r: DState) {
    d.(queue := d.queue + songs)
  }

  // Auto-continue: extend, then play the first new entry.
  function ExtendAndPlay(d: DState, songs: seq<Child>, urlOk: bool): (r: DState) {
    CommitPlay(Append(d, songs), |d.queue|, urlOk)
  }

  function InsertAt(d: DState, after: nat): (at: nat)
    ensures at <= |d.queue|
    ensures d.queue != [] ==> 1 <= at
  {
    if after + 1 < |d.queue| then after + 1 else |d.queue|
  }

  function InsertAfter(d: DState, after: nat, songs: seq<Child>): (r: DState) {
    var at := InsertAt(d, after);
    d.(queue := InsertedBlock(d.queue, at, songs),
       pos := if d.pos.Some? then Some(InsertedIndex(d.pos.value, at, |songs|)) else None)
  }

  // The playing entry was the last one: nothing can follow it.
  predicate RemoveStops(d: DState, p: nat) {
    p < |d.queue| && d.pos == Some(p) && p + 1 == |d.queue|
  }

  function Remove(d: DState, p: nat): (r: DState) {
    if p >= |d.queue| then d
    else
      var shorter := d.(queue := Removed(d.queue, p),
                        pos := if d.pos.Some? then RemovedIndex(d.pos.value, p) else None);
      if RemoveStops(d, p) then shorter.(np := NOTHING_PLAYING) else shorter
  }

  function Move(d: DState, from: nat, to: nat): (r: DState) {
    if from >= |d.queue| || to >= |d.queue| || from == to then d
    else d.(queue := Moved(d.queue, from, to),
            pos := if d.pos.Some? then Some(MovedIndex(d.pos.value, from, to)) else None)
  }

  function ClearHistory(d: DState): (r: DState) {
    if d.pos.None? || d.pos.value == 0 || d.pos.value > |d.queue| then d
    else d.(queue := d.queue[d.pos.value..], pos := Some(0))
  }

  ghost predicate ShuffleOutcome(d: DState, rest: seq<Child>) {
    multiset(rest) ==
      if d.pos.Some? && d.pos.value < |d.queue| then multiset(Removed(d.queue, d.pos.value)) else multiset(d.queue)
  }

  lemma ShuffleLength(d: DState, rest: seq<Child>)
    requires ShuffleOutcome(d, rest) && d.pos.Some? && d.pos.value < |d.queue|
    ensures |rest| == |d.queue| - 1
  {
    assert |multiset(rest)| == |multiset(Removed(d.queue, d.pos.value))|;
  }

  // `rest` is the random outcome: a permutation of the entries that take part.
  function Shuffle(d: DState, rest: seq<Child>): (r: DState)
    requires ShuffleOutcome(d, rest)
  {
    if d.pos.Some? && d.pos.value < |d.queue| then
      ShuffleLength(d, rest);
      d.(queue := InsertedBlock(rest, d.pos.value, [d.queue[d.pos.value]]))
    else d.(queue := rest)
  }

  function ReplaceUnplayed(d: DState, songs: seq<Child>): (r: DState) {
    d.(queue := songs, pos := None)
  }

  function SetRepeat(d: DState, mode: RepeatMode): (r: DState) {
    d.(repeat := mode)
  }

  // A rating or a star pass rewrites the markers of every copy of a song.
  ghost predicate KeepsIds(f: Child -> Child) {
    forall s :: f(s).id == s.id
  }

  function RewriteSongs(d: DState, f: Child -> Child): (r: DState) {
    d.(queue := OverList(d.queue, f), np := OverPlaying(d.np, f))
  }

  // ----- all sections, and runs of them

  datatype Section =
    | DoCommitPlay(p: nat, urlOk: bool)
    | DoGaplessCommit
    | DoPause
    | DoStopKeep
    | DoHalt
    | DoStopClear
    | DoSetPosition(secs: real)
    | DoTickPosition(secs: real)
    | DoBackfillDuration(secs: real)
    | DoReplace(songs: seq<Child>, playFrom: Option<nat>, urlOk: bool)
    | DoAppend(songs: seq<Child>)
    | DoExtendAndPlay(songs: seq<Child>, urlOk: bool)
    | DoInsertAfter(after: nat, songs: seq<Child>)
    | DoRemove(p: nat)
    | DoMove(from: nat, to: nat)
    | DoClearHistory
    | DoShuffle(songs: seq<Child>)
    | DoReplaceUnplayed(songs: seq<Child>)
    | DoSetRepeat(mode: RepeatMode)
    | DoRewriteSongs(f: Child -> Child)

  ghost predicate Allowed(d: DState, s: Section) {
    (s.DoShuffle? ==> ShuffleOutcome(d, s.songs)) && (s.DoRewriteSongs? ==> KeepsIds(s.f))
  }

  ghost function Apply(d: DState, s: Section): DState
    requires Allowed(d, s)
  {
    match s
    case DoCommitPlay(p, urlOk) => CommitPlay(d, p, urlOk)
    case DoGaplessCommit => GaplessCommit(d)
    case DoPause => PauseState(d)
    case DoStopKeep => StopKeep(d)
    case DoHalt => Halt(d)
    case DoStopClear => StopClear(d)
    case DoSetPosition(secs) => SetPosition(d, secs)
    case DoTickPosition(secs) => TickPosition(d, secs)
    case DoBackfillDuration(secs) => BackfillDuration(d, secs)
    case DoReplace(songs, playFrom, urlOk) => Replace(d, songs, playFrom, urlOk)
    case DoAppend(songs) => Append(d, songs)
    case DoExtendAndPlay(songs, urlOk) => ExtendAndPlay(d, songs, urlOk)
    case DoInsertAfter(after, songs) => InsertAfter(d, after, songs)
    case DoRemove(p) => Remove(d, p)
    case DoMove(from, to) => Move(d, from, to)
    case DoClearHistory => ClearHistory(d)
    case DoShuffle(rest) => Shuffle(d, rest)
    case DoReplaceUnplayed(songs) => ReplaceUnplayed(d, songs)
    case DoSetRepeat(mode) => SetRepeat(d, mode)
    case DoRewriteSongs(f) => RewriteSongs(d, f)
  }

  // The position is still on the same entry.
  ghost predicate SameEntry(d: DState, r: DState) {
    && Consistent(r)
    && (d.pos.Some? && d.pos.value < |d.queue| ==>
          r.pos.Some? && r.queue[r.pos.value] == d.queue[d.pos.value])
  }

  lemma MoveKeepsEntry(d: DState, from: nat, to: nat)
    requires Consistent(d)
    ensures SameEntry(d, Move(d, from, to))
  {
    if d.pos.Some? && from < |d.queue| && to < |d.queue| {
      MoveTracks(d.queue, from, to, d.pos.value);
    }
  }

  lemma RemoveKeepsEntry(d: DState, p: nat)
    requires Consistent(d)
    ensures Consistent(Remove(d, p))
    ensures d.pos != Some(p) ==> SameEntry(d, Remove(d, p))
    ensures d.pos == Some(p) ==> Remove(d, p).pos.None?
  {
  }

  lemma InsertKeepsEntry(d: DState, after: nat, songs: seq<Child>)
    requires Consistent(d)
    ensures SameEntry(d, InsertAfter(d, after, songs))
  {
  }

  lemma ShuffleKeepsEntry(d: DState, rest: seq<Child>)
    requires Consistent(d) && ShuffleOutcome(d, rest)
    ensures SameEntry(d, Shuffle(d, rest))
  {
    if d.pos.Some? {
      ShuffleLength(d, rest);
      ShuffleKeepsCurrent(d.queue, d.pos.value, rest);
    }
  }

  lemma ClearHistoryKeepsEntry(d: DState)
    requires Consistent(d)
    ensures SameEntry(d, ClearHistory(d))
  {
  }

  // The position stays on the same entry, unless the entry itself was removed.
  lemma EditsKeepConsistent(d: DState, s: Section)
    requires Consistent(d) && Allowed(d, s)
    requires s.DoMove? || s.DoRemove? || s.DoInsertAfter? || s.DoShuffle? || s.DoClearHistory?
    ensures Consistent(Apply(d, s))
    ensures !(s.DoRemove? && d.pos == Some(s.p)) ==> SameEntry(d, Apply(d, s))
    ensures s.DoRemove? && d.pos == Some(s.p) ==> Apply(d, s).pos.None?
  {
    match s
    case DoMove(from, to) => MoveKeepsEntry(d, from, to);
    case DoRemove(p) => RemoveKeepsEntry(d, p);
    case DoInsertAfter(after, songs) => InsertKeepsEntry(d, after, songs);
    case DoShuffle(rest) => ShuffleKeepsEntry(d, rest);
    case DoClearHistory => ClearHistoryKeepsEntry(d);
  }

  // Which entries each edit leaves in the queue, and in what order the untouched ones stand.
  lemma ReorderingConservesQueue(d: DState, s: Section)
    requires Consistent(d) && Allowed(d, s)
    requires s.DoMove? || s.DoShuffle?
    ensures multiset(Apply(d, s).queue) == multiset(d.queue)
  {
    match s
    case DoMove(from, to) =>
      if from < |d.queue| && to < |d.queue| {
        MoveIsPermutation(d.queue, from, to);
      }
    case DoShuffle(rest) =>
      if d.pos.Some? {
        ShuffleLength(d, rest);
        ShuffleKeepsCurrent(d.queue, d.pos.value, rest);
      }
  }

  lemma InsertConservesQueue(d: DState, after: nat, songs: seq<Child>)
    ensures var at, r := InsertAt(d, after), InsertAfter(d, after, songs).queue;
            && |r| == |d.queue| + |songs|
            && r[at..at + |songs|] == songs
            && r[..at] + r[at + |songs|..] == d.queue
  {
    var at, r := InsertAt(d, after), InsertAfter(d, after, songs).queue;
    assert r[..at] == d.queue[..at];
    assert r[at + |songs|..] == d.queue[at..];
  }

  lemma DroppingConservesQueue(d: DState, p: nat)
    requires Consistent(d)
    ensures p < |d.queue| ==> Remove(d, p).queue[..p] + [d.queue[p]] + Remove(d, p).queue[p..] == d.queue
    ensures d.pos.Some? ==> d.queue[..d.pos.value] + ClearHistory(d).queue == d.queue
  {
    if p < |d.queue| {
      var r := Remove(d, p).queue;
      assert r[..p] == d.queue[..p];
      assert r[p..] == d.queue[p + 1..];
    }
  }

  lemma SectionKeepsConsistent(d: DState, s: Section)
    requires Consistent(d) && Allowed(d, s)
    ensures Consistent(Apply(d, s))
  {
    if s.DoMove? || s.DoRemove? || s.DoInsertAfter? || s.DoShuffle? || s.DoClearHistory? {
      EditsKeepConsistent(d, s);
    }
  }

  // A rewrite reaches every entry and the playing song, and nothing else.
  lemma RewriteReachesEveryCopy(d: DState, f: Child -> Child)
    requires KeepsIds(f)
    ensures var r := Apply(d, DoRewriteSongs(f));
            && |r.queue| == |d.queue| && (forall i :: 0 <= i < |d.queue| ==> r.queue[i] == f(d.queue[i]))
            && r.pos == d.pos && r.repeat == d.repeat
            && r.np == d.np.(song := if d.np.song.Some? then Some(f(d.np.song.value)) else None)
  {
  }

  predicate OnlyNowPlaying(d: DState, r: DState, np: NowPlaying) {
    r == DState(d.queue, d.pos, np, d.repeat)
  }

  // What the sections of playback leave in the now-playing part, and that they touch no queue.
  lemma PlaybackSectionWrites(d: DState, s: Section)
    requires s.DoCommitPlay? || s.DoGaplessCommit? || s.DoPause? || s.DoStopKeep? || s.DoHalt? || s.DoSetPosition?
             || s.DoTickPosition? || s.DoBackfillDuration?
    ensures var r, np := Apply(d, s), d.np;
            match s
            case DoCommitPlay(p, urlOk) =>
              if p < |d.queue| && urlOk then
                r == DState(d.queue, Some(p), NowPlaying(Some(d.queue[p]), Playing, 0.0, DurationOf(d.queue[p])), d.repeat)
              else r == d
            case DoGaplessCommit =>
              && r.queue == d.queue && r.repeat == d.repeat && r.np.state == np.state
              && (r.pos != d.pos ==> r.np.position == 0.0 && r.pos.Some? && r.pos.value < |d.queue|
                                     && r.np.song == Some(d.queue[r.pos.value]))
            case DoPause => OnlyNowPlaying(d, r, np.(state := if np.state == Stopped then Stopped else Paused))
            case DoStopKeep => OnlyNowPlaying(d, r, NowPlaying(np.song, Stopped, 0.0, np.duration))
            case DoHalt => OnlyNowPlaying(d, r, NowPlaying(None, Stopped, 0.0, 0.0))
            case DoSetPosition(secs) => OnlyNowPlaying(d, r, NowPlaying(np.song, np.state, secs, np.duration))
            case DoTickPosition(secs) =>
              OnlyNowPlaying(d, r, NowPlaying(np.song, np.state, if np.state == Playing then secs else np.position,
                                              np.duration))
            case DoBackfillDuration(secs) =>
              OnlyNowPlaying(d, r, NowPlaying(np.song, np.state, np.position,
                                              if np.duration <= 0.0 < secs then secs else np.duration))
  {
  }

  // What the sections on the queue as a whole leave in it.
  lemma QueueSectionWrites(d: DState, s: Section)
    requires s.DoStopClear? || s.DoReplace? || s.DoAppend? || s.DoExtendAndPlay? || s.DoReplaceUnplayed? || s.DoSetRepeat?
    ensures var r := Apply(d, s);
            match s
            case DoStopClear => r == DState([], None, NowPlaying(None, Stopped, 0.0, 0.0), d.repeat)
            case DoReplace(songs, playFrom, urlOk) =>
              && r.queue == songs && r.repeat == d.repeat
              && if playFrom.Some? && playFrom.value < |songs| && urlOk then
                   r.pos == playFrom && r.np.song == Some(songs[playFrom.value]) && r.np.state == Playing
                 else r.pos.None? && r.np == d.np
            case DoAppend(songs) => r == DState(d.queue + songs, d.pos, d.np, d.repeat)
            case DoExtendAndPlay(songs, urlOk) =>
              && r.queue == d.queue + songs && r.repeat == d.repeat
              && if songs != [] && urlOk then
                   r.pos == Some(|d.queue|) && r.np.song == Some(songs[0]) && r.np.state == Playing
                 else r.pos == d.pos && r.np == d.np
            case DoReplaceUnplayed(songs) => r == DState(songs, None, d.np, d.repeat)
            case DoSetRepeat(mode) => r == DState(d.queue, d.pos, d.np, mode)
  {
  }

  ghost predicate Run(states: seq<DState>, sections: seq<Section>) {
    && |states| == |sections| + 1
    && forall i {:trigger sections[i]} :: 0 <= i < |sections| ==>
         Allowed(states[i], sections[i]) && states[i + 1] == Apply(states[i], sections[i])
  }

  // However the daemon's tasks interleave, the state is consistent at every release of the lock.
  lemma {:induction false} EveryInterleavingIsConsistent(states: seq<DState>, sections: seq<Section>, i: nat)
    requires Run(states, sections) && Consistent(states[0]) && i < |states|
    ensures Consistent(states[i])
  {
    if i > 0 {
      EveryInterleavingIsConsistent(states, sections, i - 1);
      SectionKeepsConsistent(states[i - 1], sections[i - 1]);
    }
  }
}
