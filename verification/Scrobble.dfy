// Play reporting from the playback tick: per-play tracking, and the reports it sends on the
// classic scrobble path or the playbackReport path.
module Scrobble {
  import opened Wrappers
  import opened Models

  const MAX_U64: nat := 0xFFFF_FFFF_FFFF_FFFF

  datatype Tracking = Tracking(
    songId: Option<string>, instance: nat, duration: real, lastPosition: real, lastState: PlaybackState,
    submitted: bool, nowPlayingSent: bool)

  const IDLE := Tracking(None, 0, 0.0, 0.0, Stopped, false, false)

  datatype Report =
    | NowPlayingReport(id: string)
    | Submission(id: string)
    | Playback(id: string, positionMs: nat, event: string)

  // What one tick reads.
  datatype Sample = Sample(id: Option<string>, instance: nat, state: PlaybackState, position: real, duration: real)

  // Whether the playhead is far enough for a submission: at half of a known duration, though never
  // later than at 240 seconds, and not at all in a track of up to 30 seconds.
  predicate ClassicReached(position: real, duration: real) {
    if 0.0 < duration <= 30.0 then false
    else
      var threshold := if duration > 0.0 then (if duration * 0.5 < 240.0 then duration * 0.5 else 240.0) else 240.0;
      position >= threshold
  }

  function PositionMs(position: real): nat {
    var ms := (if position > 0.0 then position else 0.0) * 1000.0;
    if ms.Floor > MAX_U64 then MAX_U64 else ms.Floor
  }

  function Label(state: PlaybackState): string {
    match state
    case Playing => "playing"
    case Paused => "paused"
    case Stopped => "stopped"
  }

  // Four minutes count in any track, half the length does in a track of more than half a minute, and
  // shorter ones never count.
  lemma ReachedIff(position: real, duration: real)
    ensures ClassicReached(position, duration) <==>
            && (duration <= 0.0 || 30.0 < duration)
            && (240.0 <= position || (0.0 < duration && duration <= position + position))
  {
  }

  // Whole milliseconds, rounded down, within 64 bits, and none before the start.
  lemma MillisecondsRoundDown(position: real)
    ensures position <= 0.0 ==> PositionMs(position) == 0
    ensures 0.0 <= position && 1000.0 * position < 18446744073709551616.0 ==>
              PositionMs(position) as real <= 1000.0 * position < (PositionMs(position) + 1) as real
    ensures 18446744073709551615.0 <= 1000.0 * position ==> PositionMs(position) == 18446744073709551615
  {
  }

  // The three state names, none of which opens a session.
  lemma LabelsNameStates(a: PlaybackState, b: PlaybackState)
    ensures Label(Playing) == "playing" && Label(Paused) == "paused" && Label(Stopped) == "stopped"
    ensures Label(a) == Label(b) ==> a == b
    ensures Label(a) != "starting"
  {
    assert "playing"[1] == 'l' && "paused"[1] == 'a' && "stopped"[1] == 't' && |"starting"| == 8;
  }

  // ----- the tick as a function

  predicate SameRun(t: Tracking, s: Sample) {
    t.songId == s.id && t.instance == s.instance
  }

  function Finalize(t: Tracking, modern: bool): seq<Report> {
    if t.songId.None? then []
    else if modern then [Playback(t.songId.value, PositionMs(t.lastPosition), "stopped")]
    else if !t.submitted && ClassicReached(t.lastPosition, t.duration) then [Submission(t.songId.value)]
    else []
  }

  function Opening(modern: bool, s: Sample): seq<Report> {
    if s.id.None? then []
    else if modern then
      [Playback(s.id.value, PositionMs(s.position), "starting")]
      + (if s.state == Playing then [Playback(s.id.value, PositionMs(s.position), "playing")] else [])
    else if s.state == Playing then [NowPlayingReport(s.id.value)]
    else []
  }

  function Opened(modern: bool, s: Sample): Tracking {
    Tracking(s.id, s.instance, s.duration, s.position, s.state, ClassicReached(s.position, s.duration),
             s.id.Some? && s.state == Playing)
  }

  predicate AnnouncesNow(t: Tracking, s: Sample) {
    s.state != t.lastState && s.state == Playing && !t.nowPlayingSent
  }

  predicate SubmitsNow(t: Tracking, s: Sample) {
    s.state == Playing && !t.submitted && ClassicReached(s.position, s.duration)
  }

  function Continuing(t: Tracking, modern: bool, s: Sample): seq<Report> {
    if s.id.None? then []
    else if modern then
      if s.state != t.lastState then [Playback(s.id.value, PositionMs(s.position), Label(s.state))] else []
    else
      (if AnnouncesNow(t, s) then [NowPlayingReport(s.id.value)] else [])
      + (if SubmitsNow(t, s) then [Submission(s.id.value)] else [])
  }

  function Continued(t: Tracking, modern: bool, s: Sample): Tracking {
    if s.id.None? then t
    else t.(lastState := s.state, lastPosition := s.position,
            duration := if s.duration > 0.0 then s.duration else t.duration,
            nowPlayingSent := t.nowPlayingSent || (!modern && AnnouncesNow(t, s)),
            submitted := t.submitted || (!modern && SubmitsNow(t, s)))
  }

  function Next(t: Tracking, modern: bool, s: Sample): Tracking {
    if SameRun(t, s) then Continued(t, modern, s) else Opened(modern, s)
  }

  function Reports(t: Tracking, modern: bool, s: Sample): seq<Report> {
    if SameRun(t, s) then Continuing(t, modern, s) else Finalize(t, modern) + Opening(modern, s)
  }

  // ----- the tick, imperatively

  class Scrobbler {
    var t: Tracking

    constructor ()
      ensures t == IDLE
    {
      t := IDLE;
    }

    method Tick(enabled: bool, modern: bool, s: Sample) returns (actions: seq<Report>)
      modifies this
      ensures !enabled ==> t == IDLE && actions == []
      ensures enabled ==> t == Next(old(t), modern, s) && actions == Reports(old(t), modern, s)
    {
      actions := [];
      if !enabled {
        t := IDLE;
      } else if t.songId != s.id || t.instance != s.instance {
        if t.songId.Some? {
          if modern {
            actions := actions + [Playback(t.songId.value, PositionMs(t.lastPosition), "stopped")];
          } else if !t.submitted && ClassicReached(t.lastPosition, t.duration) {
            actions := actions + [Submission(t.songId.value)];
          }
        }
        t := Tracking(s.id, s.instance, s.duration, s.position, s.state, ClassicReached(s.position, s.duration), false);
        if s.id.Some? {
          if modern {
            actions := actions + [Playback(s.id.value, PositionMs(s.position), "starting")];
            if s.state == Playing {
              t := t.(nowPlayingSent := true);
              actions := actions + [Playback(s.id.value, PositionMs(s.position), "playing")];
            }
          } else if s.state == Playing {
            t := t.(nowPlayingSent := true);
            actions := actions + [NowPlayingReport(s.id.value)];
          }
        }
      } else if s.id.Some? {
        if s.state != t.lastState {
          if modern {
            actions := actions + [Playback(s.id.value, PositionMs(s.position), Label(s.state))];
          } else if s.state == Playing && !t.nowPlayingSent {
            t := t.(nowPlayingSent := true);
            actions := actions + [NowPlayingReport(s.id.value)];
          }
          t := t.(lastState := s.state);
        }
        if !modern && s.state == Playing && !t.submitted && ClassicReached(s.position, s.duration) {
          t := t.(submitted := true);
          actions := actions + [Submission(s.id.value)];
        }
        t := t.(lastPosition := s.position);
        if s.duration > 0.0 {
          t := t.(duration := s.duration);
        }
      }
    }
  }

  // ----- what a sequence of ticks sends

  function After(samples: seq<Sample>, modern: bool): Tracking {
    if samples == [] then IDLE
    else Next(After(samples[..|samples| - 1], modern), modern, samples[|samples| - 1])
  }

  // Everything sent over a sequence of ticks.
  function Stream(samples: seq<Sample>, modern: bool): seq<Report> {
    if samples == [] then []
    else
      var n := |samples| - 1;
      Stream(samples[..n], modern) + Reports(After(samples[..n], modern), modern, samples[n])
  }

  // ----- maximal runs of one (song, instance)

  predicate SameKey(a: Sample, b: Sample) {
    a.id == b.id && a.instance == b.instance
  }

  // The samples cut into maximal runs of equal key.
  function Runs(samples: seq<Sample>): (runs: seq<seq<Sample>>)
    ensures forall i :: 0 <= i < |runs| ==> runs[i] != []
    ensures samples != [] ==> runs != [] && runs[|runs| - 1][|runs[|runs| - 1]| - 1] == samples[|samples| - 1]
  {
    if samples == [] then []
    else
      var n := |samples| - 1;
      var before := Runs(samples[..n]);
      if n > 0 && SameKey(samples[n - 1], samples[n]) then
        before[..|before| - 1] + [before[|before| - 1] + [samples[n]]]
      else before + [[samples[n]]]
  }

  function Flatten(runs: seq<seq<Sample>>): seq<Sample> {
    if runs == [] then [] else Flatten(runs[..|runs| - 1]) + runs[|runs| - 1]
  }

  ghost predicate OneKey(run: seq<Sample>) {
    run != [] && forall i :: 0 <= i < |run| ==> SameKey(run[0], run[i])
  }

  ghost predicate Maximal(runs: seq<seq<Sample>>) {
    && (forall r :: 0 <= r < |runs| ==> OneKey(runs[r]))
    && (forall r :: 0 < r < |runs| ==> !SameKey(runs[r - 1][0], runs[r][0]))
  }

  // How one more sample changes the cut: it either extends the last run or starts a new one.
  lemma RunsStep(samples: seq<Sample>)
    requires samples != [] && Maximal(Runs(samples[..|samples| - 1]))
    ensures var n := |samples| - 1;
            var before, runs, s := Runs(samples[..n]), Runs(samples), samples[n];
            if before != [] && SameKey(before[|before| - 1][0], s) then
              runs == before[..|before| - 1] + [before[|before| - 1] + [s]]
            else runs == before + [[s]]
  {
    var n := |samples| - 1;
    var before := Runs(samples[..n]);
    if n > 0 {
      var last := before[|before| - 1];
      assert last[|last| - 1] == samples[n - 1];
      assert OneKey(last);
    }
  }

  lemma LastRunExtended(before: seq<seq<Sample>>, s: Sample)
    requires Maximal(before) && before != [] && SameKey(before[|before| - 1][0], s)
    ensures var runs := before[..|before| - 1] + [before[|before| - 1] + [s]];
            Maximal(runs) && Flatten(runs) == Flatten(before) + [s]
  {
    var last := before[|before| - 1];
    var runs := before[..|before| - 1] + [last + [s]];
    assert runs[..|runs| - 1] == before[..|before| - 1];
    assert OneKey(last + [s]);
  }

  lemma NewRunOpened(before: seq<seq<Sample>>, s: Sample)
    requires Maximal(before) && (before == [] || !SameKey(before[|before| - 1][0], s))
    ensures Maximal(before + [[s]]) && Flatten(before + [[s]]) == Flatten(before) + [s]
  {
    var runs := before + [[s]];
    assert runs[..|runs| - 1] == before;
    forall r | 0 <= r < |runs| ensures OneKey(runs[r]) {
      assert r < |before| ==> runs[r] == before[r];
    }
    forall r | 0 < r < |runs| ensures !SameKey(runs[r - 1][0], runs[r][0]) {
      assert runs[r - 1] == before[r - 1] && (r < |before| ==> runs[r] == before[r]);
    }
  }

  // The cut loses nothing, each run has one key, and neighbouring runs differ.
  lemma {:induction false} RunsAreMaximal(samples: seq<Sample>)
    ensures Flatten(Runs(samples)) == samples && Maximal(Runs(samples))
  {
    if samples != [] {
      var n := |samples| - 1;
      RunsAreMaximal(samples[..n]);
      RunsStep(samples);
      var before, s := Runs(samples[..n]), samples[n];
      assert samples == samples[..n] + [s];
      if before != [] && SameKey(before[|before| - 1][0], s) {
        LastRunExtended(before, s);
      } else {
        NewRunOpened(before, s);
      }
    }
  }

  // ----- playbackReport: sessions

  // State labels of one run: `playing` at once if it starts that way, then one label per change.
  function Labels(run: seq<Sample>, id: string): seq<Report>
    requires run != []
  {
    var n := |run| - 1;
    if n == 0 then
      if run[0].state == Playing then [Playback(id, PositionMs(run[0].position), "playing")] else []
    else
      Labels(run[..n], id)
      + if run[n].state != run[n - 1].state then [Playback(id, PositionMs(run[n].position), Label(run[n].state))] else []
  }

  // The session of one run, left open or closed by the next run.
  function Session(run: seq<Sample>, closed: bool): seq<Report> {
    if run == [] || run[0].id.None? then []
    else
      var id := run[0].id.value;
      [Playback(id, PositionMs(run[0].position), "starting")] + Labels(run, id)
      + if closed then [Playback(id, PositionMs(run[|run| - 1].position), "stopped")] else []
  }

  function ClosedSessions(runs: seq<seq<Sample>>): seq<Report> {
    if runs == [] then []
    else ClosedSessions(runs[..|runs| - 1]) + Session(runs[|runs| - 1], true)
  }

  // Closed sessions of all runs but the last, then the open session of the last.
  function Sessions(runs: seq<seq<Sample>>): seq<Report> {
    if runs == [] then []
    else ClosedSessions(runs[..|runs| - 1]) + Session(runs[|runs| - 1], false)
  }

  // What the tracker remembers of the current run.
  ghost predicate Follows(t: Tracking, run: seq<Sample>)
    requires run != []
  {
    && (forall i :: 0 <= i < |run| ==> SameKey(run[0], run[i]))
    && t.songId == run[0].id && t.instance == run[0].instance
    && (run[0].id.Some? ==> t.lastState == run[|run| - 1].state && t.lastPosition == run[|run| - 1].position)
  }

  // The last run takes one more sample.
  lemma SessionsExtend(before: seq<seq<Sample>>, s: Sample)
    requires before != [] && before[|before| - 1] != []
    requires SameKey(before[|before| - 1][0], s)
    ensures var last := before[|before| - 1];
            Sessions(before[..|before| - 1] + [last + [s]]) ==
            Sessions(before)
            + if s.id.Some? && s.state != last[|last| - 1].state
              then [Playback(s.id.value, PositionMs(s.position), Label(s.state))] else []
  {
    var last := before[|before| - 1];
    var grown := before[..|before| - 1] + [last + [s]];
    assert grown[..|grown| - 1] == before[..|before| - 1];
    assert (last + [s])[..|last|] == last;
  }

  // A new run closes the last session and opens its own.
  lemma SessionsOpen(before: seq<seq<Sample>>, s: Sample)
    requires before != [] ==> before[|before| - 1] != []
    ensures Sessions(before + [[s]]) ==
            Sessions(before)
            + (if before != [] && before[|before| - 1][0].id.Some? then
                 var last := before[|before| - 1];
                 [Playback(last[0].id.value, PositionMs(last[|last| - 1].position), "stopped")]
               else [])
            + Opening(true, s)
  {
    var grown := before + [[s]];
    assert grown[..|grown| - 1] == before;
    assert Session([s], false) == Opening(true, s);
  }

  // The tracker always follows the last run.
  lemma {:induction false} TrackerFollows(samples: seq<Sample>, modern: bool)
    requires samples != []
    ensures var runs := Runs(samples); Follows(After(samples, modern), runs[|runs| - 1])
  {
    var n := |samples| - 1;
    RunsAreMaximal(samples[..n]);
    RunsStep(samples);
    if n > 0 {
      TrackerFollows(samples[..n], modern);
    }
  }

  lemma SessionsStep(before: seq<seq<Sample>>, runs: seq<seq<Sample>>, t: Tracking, s: Sample)
    requires before != [] && before[|before| - 1] != [] && Follows(t, before[|before| - 1])
    requires runs == if SameKey(before[|before| - 1][0], s)
                     then before[..|before| - 1] + [before[|before| - 1] + [s]] else before + [[s]]
    ensures Sessions(runs) == Sessions(before) + Reports(t, true, s)
  {
    if SameKey(before[|before| - 1][0], s) {
      SessionsExtend(before, s);
    } else {
      SessionsOpen(before, s);
    }
  }

  lemma FirstSessions(s: Sample)
    ensures Sessions([[s]]) == Reports(IDLE, true, s)
  {
    SessionsOpen([], s);
    assert [] + [[s]] == [[s]];
  }

  // With the playbackReport path on throughout, the stream is exactly one session per maximal run
  // of one (song, instance), each closed before the next opens.
  lemma {:induction false} StreamIsSessions(samples: seq<Sample>)
    ensures Stream(samples, true) == Sessions(Runs(samples))
  {
    if samples != [] {
      var n := |samples| - 1;
      var s, t, before := samples[n], After(samples[..n], true), Runs(samples[..n]);
      StreamIsSessions(samples[..n]);
      RunsAreMaximal(samples[..n]);
      RunsStep(samples);
      if n > 0 {
        TrackerFollows(samples[..n], true);
        SessionsStep(before, Runs(samples), t, s);
      } else {
        FirstSessions(s);
        assert samples[..0] == [] && Runs(samples) == [[s]];
      }
    }
  }

  // ----- the shape of a session

  predicate StateLabel(event: string) {
    event == "playing" || event == "paused" || event == "stopped"
  }

  lemma {:induction false} LabelsFollowState(run: seq<Sample>, id: string)
    requires run != []
    ensures var ls := Labels(run, id);
            && (forall i :: 0 <= i < |ls| ==> ls[i].Playback? && ls[i].id == id && StateLabel(ls[i].event))
            && (forall i :: 0 <= i < |ls| - 1 ==> ls[i].event != ls[i + 1].event)
            && (ls != [] ==> ls[|ls| - 1].event == Label(run[|run| - 1].state))
            && (ls == [] ==> run[|run| - 1].state == run[0].state)
  {
    var n := |run| - 1;
    if n > 0 {
      LabelsFollowState(run[..n], id);
    }
  }

  // The reports between `starting` and, once closed, the final `stopped`.
  function Inner(session: seq<Report>, closed: bool): seq<Report>
    requires |session| >= if closed then 2 else 1
  {
    if closed then session[1..|session| - 1] else session[1..]
  }

  lemma InnerOf(start: Report, ls: seq<Report>, stop: Report)
    ensures Inner([start] + ls, false) == ls
    ensures Inner([start] + ls + [stop], true) == ls
  {
  }

  // A session opens with `starting`, then carries state labels with no two adjacent equal, and
  // ends, once closed, with `stopped`; every report names the run's song.
  lemma SessionShape(run: seq<Sample>, closed: bool)
    requires run != [] && run[0].id.Some?
    ensures var rs := Session(run, closed);
            && |rs| >= (if closed then 2 else 1)
            && rs[0] == Playback(run[0].id.value, PositionMs(run[0].position), "starting")
            && Inner(rs, closed) == Labels(run, run[0].id.value)
            && (closed ==> rs[|rs| - 1] == Playback(run[0].id.value, PositionMs(run[|run| - 1].position), "stopped"))
    ensures var inner := Labels(run, run[0].id.value);
            && (forall i :: 0 <= i < |inner| ==>
                  inner[i].Playback? && inner[i].id == run[0].id.value && StateLabel(inner[i].event))
            && (forall i :: 0 <= i < |inner| - 1 ==> inner[i].event != inner[i + 1].event)
  {
    var id := run[0].id.value;
    LabelsFollowState(run, id);
    var start := Playback(id, PositionMs(run[0].position), "starting");
    var stop := Playback(id, PositionMs(run[|run| - 1].position), "stopped");
    InnerOf(start, Labels(run, id), stop);
    if closed {
      assert Session(run, closed) == [start] + Labels(run, id) + [stop];
    } else {
      assert Session(run, closed) == [start] + Labels(run, id);
    }
  }

  // A closed stretch is empty or ends with `stopped`, and in it every `starting` that is not the
  // very first report directly follows a `stopped`.
  ghost predicate Alternates(rs: seq<Report>) {
    && (forall i :: 0 <= i < |rs| ==> rs[i].Playback?)
    && (rs != [] ==> rs[0].event == "starting")
    && (forall i :: 0 < i < |rs| && rs[i].event == "starting" ==> rs[i - 1].event == "stopped")
  }

  lemma SessionAlternates(run: seq<Sample>, closed: bool)
    ensures Alternates(Session(run, closed))
    ensures closed && Session(run, closed) != [] ==> Session(run, closed)[|Session(run, closed)| - 1].event == "stopped"
  {
    if run != [] && run[0].id.Some? {
      SessionShape(run, closed);
      var rs := Session(run, closed);
      var inner := Labels(run, run[0].id.value);
      forall i | 0 < i < |rs| ensures rs[i].Playback? && rs[i].event != "starting" {
        if i - 1 < |inner| {
          assert rs[i] == inner[i - 1];
        }
      }
    }
  }

  lemma {:induction false} ClosedAlternates(runs: seq<seq<Sample>>)
    ensures Alternates(ClosedSessions(runs))
    ensures ClosedSessions(runs) != [] ==> ClosedSessions(runs)[|ClosedSessions(runs)| - 1].event == "stopped"
  {
    if runs != [] {
      ClosedAlternates(runs[..|runs| - 1]);
      SessionAlternates(runs[|runs| - 1], true);
    }
  }

  lemma JoinAlternates(a: seq<Report>, b: seq<Report>)
    requires Alternates(a) && Alternates(b) && (a != [] ==> a[|a| - 1].event == "stopped")
    ensures Alternates(a + b)
  {
  }

  // No session ever opens before the previous one was reported stopped.
  lemma StoppedBeforeEveryStart(samples: seq<Sample>)
    ensures Alternates(Stream(samples, true))
  {
    StreamIsSessions(samples);
    var runs := Runs(samples);
    if runs != [] {
      ClosedAlternates(runs[..|runs| - 1]);
      SessionAlternates(runs[|runs| - 1], false);
      JoinAlternates(ClosedSessions(runs[..|runs| - 1]), Session(runs[|runs| - 1], false));
    }
  }

  // ----- classic path

  predicate PlayedIn(run: seq<Sample>) {
    exists i :: 0 <= i < |run| && run[i].state == Playing
  }

  // Some tick after the first saw the song playing past the threshold.
  predicate ReachedIn(run: seq<Sample>) {
    exists i :: 1 <= i < |run| && run[i].state == Playing && ClassicReached(run[i].position, run[i].duration)
  }

  predicate SeenPast(run: seq<Sample>)
    requires run != []
  {
    ClassicReached(run[0].position, run[0].duration)
  }

  // The last known duration.
  function TrackedDuration(run: seq<Sample>): real
    requires run != []
  {
    var n := |run| - 1;
    if n == 0 then run[0].duration
    else if run[n].duration > 0.0 then run[n].duration
    else TrackedDuration(run[..n])
  }

  // What one run sends, read off the run itself.
  function ClassicOpen(run: seq<Sample>): seq<Report> {
    if run == [] || run[0].id.None? then []
    else
      var n, id := |run| - 1, run[0].id.value;
      if n == 0 then (if run[0].state == Playing then [NowPlayingReport(id)] else [])
      else
        ClassicOpen(run[..n])
        + (if run[n].state == Playing && !PlayedIn(run[..n]) then [NowPlayingReport(id)] else [])
        + (if ReachedIn(run) && !ReachedIn(run[..n]) && !SeenPast(run) then [Submission(id)] else [])
  }

  function ClassicClose(run: seq<Sample>): seq<Report> {
    if run != [] && run[0].id.Some? && !SeenPast(run) && !ReachedIn(run)
       && ClassicReached(run[|run| - 1].position, TrackedDuration(run))
    then [Submission(run[0].id.value)] else []
  }

  function ClassicClosed(runs: seq<seq<Sample>>): seq<Report> {
    if runs == [] then []
    else ClassicClosed(runs[..|runs| - 1]) + ClassicOpen(runs[|runs| - 1]) + ClassicClose(runs[|runs| - 1])
  }

  function ClassicStream(runs: seq<seq<Sample>>): seq<Report> {
    if runs == [] then []
    else ClassicClosed(runs[..|runs| - 1]) + ClassicOpen(runs[|runs| - 1])
  }

  ghost predicate ClassicTracks(t: Tracking, run: seq<Sample>)
    requires run != []
  {
    run[0].id.Some? ==>
      && t.duration == TrackedDuration(run)
      && t.submitted == (SeenPast(run) || ReachedIn(run))
      && t.nowPlayingSent == PlayedIn(run)
  }

  lemma LastTick(run: seq<Sample>, s: Sample)
    requires run != []
    ensures (run + [s])[..|run|] == run
    ensures PlayedIn(run + [s]) <==> PlayedIn(run) || s.state == Playing
    ensures ReachedIn(run + [s]) <==> ReachedIn(run) || (s.state == Playing && ClassicReached(s.position, s.duration))
    ensures run[|run| - 1].state == Playing ==> PlayedIn(run)
  {
    var longer := run + [s];
    if PlayedIn(run) {
      var i :| 0 <= i < |run| && run[i].state == Playing;
      assert longer[i].state == Playing;
    }
    if s.state == Playing {
      assert longer[|run|].state == Playing;
    }
    if ReachedIn(run) {
      var i :| 1 <= i < |run| && run[i].state == Playing && ClassicReached(run[i].position, run[i].duration);
      assert longer[i] == run[i];
    }
    if s.state == Playing && ClassicReached(s.position, s.duration) {
      assert longer[|run|] == s;
    }
  }

  lemma FirstTick(s: Sample)
    ensures PlayedIn([s]) <==> s.state == Playing
    ensures !ReachedIn([s])
  {
    assert s.state == Playing ==> [s][0].state == Playing;
  }

  lemma ClassicExtend(before: seq<seq<Sample>>, run: seq<Sample>)
    requires before != []
    ensures ClassicStream(before[..|before| - 1] + [run]) == ClassicClosed(before[..|before| - 1]) + ClassicOpen(run)
  {
    var grown := before[..|before| - 1] + [run];
    assert grown[..|grown| - 1] == before[..|before| - 1];
  }

  lemma ClassicNew(before: seq<seq<Sample>>, s: Sample)
    ensures ClassicStream(before + [[s]]) ==
            ClassicStream(before) + (if before != [] then ClassicClose(before[|before| - 1]) else []) + Opening(false, s)
  {
    var grown := before + [[s]];
    assert grown[..|grown| - 1] == before;
    assert ClassicOpen([s]) == Opening(false, s);
  }

  lemma FirstClassic(s: Sample)
    ensures ClassicStream([[s]]) == Reports(IDLE, false, s)
  {
    ClassicNew([], s);
    assert [] + [[s]] == [[s]];
  }

  // One more tick of the same song adds what the tracker reports for it.
  lemma OpenExtends(run: seq<Sample>, s: Sample)
    requires run != [] && run[0].id.Some?
    ensures ClassicOpen(run + [s]) ==
            ClassicOpen(run)
            + (if s.state == Playing && !PlayedIn(run) then [NowPlayingReport(run[0].id.value)] else [])
            + (if ReachedIn(run + [s]) && !ReachedIn(run) && !SeenPast(run) then [Submission(run[0].id.value)] else [])
  {
    var longer := run + [s];
    assert longer[0] == run[0] && longer[|longer| - 1] == s && longer[..|longer| - 1] == run;
  }

  lemma DurationExtends(run: seq<Sample>, s: Sample)
    requires run != []
    ensures TrackedDuration(run + [s]) == if s.duration > 0.0 then s.duration else TrackedDuration(run)
    ensures SeenPast(run + [s]) == SeenPast(run)
  {
    var longer := run + [s];
    assert longer[0] == run[0] && longer[|longer| - 1] == s && longer[..|longer| - 1] == run;
  }

  lemma ContinuedReports(t: Tracking, run: seq<Sample>, s: Sample)
    requires run != [] && Follows(t, run) && ClassicTracks(t, run) && SameKey(run[0], s)
    ensures ClassicOpen(run + [s]) == ClassicOpen(run) + Continuing(t, false, s)
  {
    if s.id.Some? {
      LastTick(run, s);
      OpenExtends(run, s);
      assert AnnouncesNow(t, s) <==> s.state == Playing && !PlayedIn(run);
    }
  }

  lemma ContinuedTracks(t: Tracking, run: seq<Sample>, s: Sample)
    requires run != [] && Follows(t, run) && ClassicTracks(t, run) && SameKey(run[0], s)
    ensures ClassicTracks(Continued(t, false, s), run + [s])
  {
    if s.id.Some? {
      LastTick(run, s);
      DurationExtends(run, s);
    }
  }

  lemma ClassicContinues(before: seq<seq<Sample>>, t: Tracking, s: Sample)
    requires before != [] && before[|before| - 1] != [] && SameKey(before[|before| - 1][0], s)
    requires Follows(t, before[|before| - 1]) && ClassicTracks(t, before[|before| - 1])
    ensures ClassicStream(before[..|before| - 1] + [before[|before| - 1] + [s]]) ==
            ClassicStream(before) + Reports(t, false, s)
    ensures ClassicTracks(Next(t, false, s), before[|before| - 1] + [s])
  {
    var done, last := ClassicClosed(before[..|before| - 1]), before[|before| - 1];
    ContinuedTracks(t, last, s);
    ContinuedReports(t, last, s);
    ClassicExtend(before, last + [s]);
    assert done + (ClassicOpen(last) + Continuing(t, false, s)) == done + ClassicOpen(last) + Continuing(t, false, s);
  }

  lemma ClassicOpens(before: seq<seq<Sample>>, t: Tracking, s: Sample)
    requires before != [] && before[|before| - 1] != [] && !SameKey(before[|before| - 1][0], s)
    requires Follows(t, before[|before| - 1]) && ClassicTracks(t, before[|before| - 1])
    ensures ClassicStream(before + [[s]]) == ClassicStream(before) + Reports(t, false, s)
    ensures ClassicTracks(Next(t, false, s), [s])
  {
    FirstTick(s);
    ClassicNew(before, s);
    assert Finalize(t, false) == ClassicClose(before[|before| - 1]);
  }

  lemma ClassicStep(before: seq<seq<Sample>>, runs: seq<seq<Sample>>, t: Tracking, s: Sample)
    requires before != [] && before[|before| - 1] != []
    requires Follows(t, before[|before| - 1]) && ClassicTracks(t, before[|before| - 1])
    requires runs == if SameKey(before[|before| - 1][0], s)
                     then before[..|before| - 1] + [before[|before| - 1] + [s]] else before + [[s]]
    ensures ClassicStream(runs) == ClassicStream(before) + Reports(t, false, s)
    ensures ClassicTracks(Next(t, false, s), runs[|runs| - 1])
  {
    if SameKey(before[|before| - 1][0], s) {
      ClassicContinues(before, t, s);
    } else {
      ClassicOpens(before, t, s);
    }
  }

  lemma FirstClassicSample(samples: seq<Sample>)
    requires |samples| == 1
    ensures Stream(samples, false) == ClassicStream(Runs(samples))
    ensures Runs(samples) == [[samples[0]]] && ClassicTracks(After(samples, false), [samples[0]])
  {
    FirstTick(samples[0]);
    FirstClassic(samples[0]);
    assert samples[..0] == [];
  }

  // With the classic path on throughout, the stream is the runs' own reports, in order.
  lemma {:induction false} ClassicStreamByRuns(samples: seq<Sample>)
    ensures Stream(samples, false) == ClassicStream(Runs(samples))
    ensures samples != [] ==> var runs := Runs(samples); ClassicTracks(After(samples, false), runs[|runs| - 1])
  {
    if |samples| == 1 {
      FirstClassicSample(samples);
    } else if samples != [] {
      var n := |samples| - 1;
      ClassicStreamByRuns(samples[..n]);
      RunsAreMaximal(samples[..n]);
      RunsStep(samples);
      TrackerFollows(samples[..n], false);
      ClassicStep(Runs(samples[..n]), Runs(samples), After(samples[..n], false), samples[n]);
    }
  }

  function Submissions(rs: seq<Report>): nat {
    if rs == [] then 0 else (if rs[0].Submission? then 1 else 0) + Submissions(rs[1..])
  }

  function Announcements(rs: seq<Report>): nat {
    if rs == [] then 0 else (if rs[0].NowPlayingReport? then 1 else 0) + Announcements(rs[1..])
  }

  lemma {:induction false} CountsAdd(a: seq<Report>, b: seq<Report>)
    ensures Submissions(a + b) == Submissions(a) + Submissions(b)
    ensures Announcements(a + b) == Announcements(a) + Announcements(b)
  {
    if a == [] {
      assert a + b == b;
    } else {
      assert (a + b)[1..] == a[1..] + b;
      CountsAdd(a[1..], b);
    }
  }

  lemma {:induction false} OpenCounts(run: seq<Sample>)
    requires run != [] && run[0].id.Some?
    ensures Announcements(ClassicOpen(run)) == if PlayedIn(run) then 1 else 0
    ensures Submissions(ClassicOpen(run)) == if ReachedIn(run) && !SeenPast(run) then 1 else 0
  {
    var n, id := |run| - 1, run[0].id.value;
    if n == 0 {
      FirstTick(run[0]);
      assert run == [run[0]];
    } else {
      var shorter := run[..n];
      OpenCounts(shorter);
      assert run == shorter + [run[n]];
      LastTick(shorter, run[n]);
      var np := if run[n].state == Playing && !PlayedIn(shorter) then [NowPlayingReport(id)] else [];
      var sub := if ReachedIn(run) && !ReachedIn(shorter) && !SeenPast(run) then [Submission(id)] else [];
      assert ClassicOpen(run) == ClassicOpen(shorter) + np + sub;
      CountsAdd(ClassicOpen(shorter) + np, sub);
      CountsAdd(ClassicOpen(shorter), np);
    }
  }

  predicate PastAtTheEnd(run: seq<Sample>)
    requires run != []
  {
    ClassicReached(run[|run| - 1].position, TrackedDuration(run))
  }

  // Per finished run: one NowPlaying exactly if it was ever seen playing, and a Submission (never
  // two) exactly if it was not first seen past the threshold and then either reached it while
  // playing or stood past it, on the tracked duration, when the next run began.
  lemma ClassicRunCounts(run: seq<Sample>)
    requires run != [] && run[0].id.Some?
    ensures Announcements(ClassicOpen(run) + ClassicClose(run)) == if PlayedIn(run) then 1 else 0
    ensures Submissions(ClassicOpen(run) + ClassicClose(run)) ==
            if !SeenPast(run) && (ReachedIn(run) || PastAtTheEnd(run)) then 1 else 0
  {
    OpenCounts(run);
    CountsAdd(ClassicOpen(run), ClassicClose(run));
  }
}
