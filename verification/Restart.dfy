// Saving the queue with its playhead on the way out, and restoring it at the next start.
module Restart {
  import opened Wrappers
  import opened Models
  import opened DaemonState

  datatype QueueSnapshot = QueueSnapshot(queue: seq<Child>, position: Option<nat>, positionSecs: Option<real>, paused: bool)

  function SnapshotFromState(d: DState): QueueSnapshot {
    var (secs, paused) :=
      match d.np.state
      case Playing => (Some(d.np.position), false)
      case Paused => (Some(d.np.position), true)
      case Stopped => (None, true);
    QueueSnapshot(d.queue, d.pos, secs, paused)
  }

  // `snapshot` is `None` when no readable file exists.
  function Restored(snapshot: Option<QueueSnapshot>, repeat: RepeatMode): (d: DState)
    ensures d.np.state != Playing && d.np.position >= 0.0
  {
    var empty := DState([], None, NOTHING_PLAYING, repeat);
    if snapshot.None? then empty
    else
      var snap := snapshot.value;
      var loaded := empty.(queue := snap.queue, pos := snap.position);
      if snap.positionSecs.Some? && snap.position.Some? && snap.position.value < |snap.queue| then
        var song := snap.queue[snap.position.value];
        var secs := snap.positionSecs.value;
        loaded.(np := NowPlaying(Some(song), Paused, if secs > 0.0 then secs else 0.0, DurationOf(song)))
      else loaded
  }

  // The file says whether anything was playing, and has an offset exactly for an active session.
  lemma SnapshotTellsActivity(d: DState)
    ensures var snap := SnapshotFromState(d);
            && (snap.paused <==> d.np.state != Playing)
            && snap.positionSecs == if d.np.state == Stopped then None else Some(d.np.position)
  {
  }

  // A save and restart keeps the queue and position, keeps the state consistent, and brings an
  // active session back as the same track at the same (non-negative) offset, paused.
  lemma RestartRoundTrip(d: DState)
    requires Consistent(d)
    ensures var r := Restored(Some(SnapshotFromState(d)), d.repeat);
            && Consistent(r)
            && r.queue == d.queue && r.pos == d.pos && r.repeat == d.repeat
            && (d.np.state != Stopped && d.pos.Some? && d.np.song.Some? ==>
                 && r.np.state == Paused
                 && r.np.song == Some(d.queue[d.pos.value])
                 && r.np.song.value.id == d.np.song.value.id
                 && (d.np.position >= 0.0 ==> r.np.position == d.np.position))
            && (d.np.state == Stopped || d.pos.None? ==> r.np == NOTHING_PLAYING)
  {
  }

  // A second restart changes nothing more.
  lemma RestartIsIdempotent(d: DState)
    requires Consistent(d)
    ensures var once := Restored(Some(SnapshotFromState(d)), d.repeat);
            Restored(Some(SnapshotFromState(once)), d.repeat) == once
  {
  }

  // The restored state is consistent exactly when the saved position lies inside the saved queue:
  // the restore copies it without a bounds check.
  lemma RestoreConsistentIff(snap: QueueSnapshot, repeat: RepeatMode)
    ensures Consistent(Restored(Some(snap), repeat)) <==> (snap.position.Some? ==> snap.position.value < |snap.queue|)
  {
  }

  // ----- runs with saves and crashes

  // `file` is the snapshot on disk, `captured` the ones read from the state but not yet written:
  // the debounced writer and the save on shutdown each hold at most one.
  datatype Session = Session(d: DState, file: Option<QueueSnapshot>, captured: map<nat, QueueSnapshot>)

  datatype Step = Work(section: Section) | Capture(writer: nat) | Write(writer: nat) | CrashAndRestore

  ghost predicate StepAllowed(s: Session, t: Step) {
    match t
    case Work(section) => Allowed(s.d, section)
    case Write(writer) => writer in s.captured
    case _ => true
  }

  ghost function ApplyStep(s: Session, t: Step): Session
    requires StepAllowed(s, t)
  {
    match t
    case Work(section) => s.(d := Apply(s.d, section))
    case Capture(writer) => s.(captured := s.captured[writer := SnapshotFromState(s.d)])
    case Write(writer) => s.(file := Some(s.captured[writer]), captured := s.captured - {writer})
    case CrashAndRestore => s.(d := Restored(s.file, s.d.repeat), captured := map[])
  }

  ghost predicate Run(states: seq<Session>, steps: seq<Step>) {
    && |states| == |steps| + 1
    && forall i {:trigger steps[i]} :: 0 <= i < |steps| ==>
         StepAllowed(states[i], steps[i]) && states[i + 1] == ApplyStep(states[i], steps[i])
  }

  predicate InBounds(snap: QueueSnapshot) {
    snap.position.Some? ==> snap.position.value < |snap.queue|
  }

  // Consistent now, and whatever a crash may bring back is consistent too.
  ghost predicate Sound(s: Session) {
    && Consistent(s.d)
    && (s.file.Some? ==> InBounds(s.file.value))
    && forall w :: w in s.captured ==> InBounds(s.captured[w])
  }

  lemma StepKeepsSound(s: Session, t: Step)
    requires Sound(s) && StepAllowed(s, t)
    ensures Sound(ApplyStep(s, t))
  {
    match t
    case Work(section) => SectionKeepsConsistent(s.d, section);
    case Capture(writer) =>
    case Write(writer) => assert InBounds(s.captured[writer]);
    case CrashAndRestore =>
      if s.file.Some? {
        RestoreConsistentIff(s.file.value, s.d.repeat);
      }
  }

  // However old the snapshot a crash brings back, the state is consistent at every release of the
  // lock, if it was at the start and the snapshot on disk was in bounds.
  lemma {:induction false} ConsistentAcrossRestarts(states: seq<Session>, steps: seq<Step>, i: nat)
    requires Run(states, steps) && Sound(states[0]) && i < |states|
    ensures Sound(states[i])
  {
    if i > 0 {
      ConsistentAcrossRestarts(states, steps, i - 1);
      StepKeepsSound(states[i - 1], steps[i - 1]);
    }
  }

  // `writer` still holds the snapshot it captured at `c`.
  lemma {:induction false} StillHeld(states: seq<Session>, steps: seq<Step>, c: nat, w: nat, writer: nat)
    requires Run(states, steps) && c < w <= |steps| && steps[c] == Capture(writer)
    requires forall n :: c < n < w ==>
               steps[n] != Capture(writer) && steps[n] != Write(writer) && steps[n] != CrashAndRestore
    ensures writer in states[w].captured && states[w].captured[writer] == SnapshotFromState(states[c].d)
  {
    if c + 1 < w {
      StillHeld(states, steps, c, w - 1, writer);
      assert steps[w - 1] != Write(writer);
    }
  }

  lemma {:induction false} FileStays(states: seq<Session>, steps: seq<Step>, from: nat, i: nat)
    requires Run(states, steps) && from <= i < |states|
    requires forall n :: from <= n < i ==> !steps[n].Write?
    ensures states[i].file == states[from].file
  {
    if from < i {
      FileStays(states, steps, from, i - 1);
      assert !steps[i - 1].Write?;
    }
  }

  // A crash brings back the state at the capture of the snapshot written last: same queue and
  // position, and an active session as the same song at the same offset, paused.
  lemma LastWrittenComesBack(states: seq<Session>, steps: seq<Step>, c: nat, w: nat, i: nat, writer: nat)
    requires Run(states, steps) && Sound(states[0]) && c < w < i < |steps|
    requires steps[c] == Capture(writer) && steps[w] == Write(writer) && steps[i] == CrashAndRestore
    requires forall n :: c < n < w ==>
               steps[n] != Capture(writer) && steps[n] != Write(writer) && steps[n] != CrashAndRestore
    requires forall n :: w < n < i ==> !steps[n].Write?
    ensures var was, back := states[c].d, states[i + 1].d;
            && back.queue == was.queue && back.pos == was.pos
            && (was.np.state != Stopped && was.pos.Some? && was.np.song.Some? ==>
                  && back.np.state == Paused && back.np.song == Some(was.queue[was.pos.value])
                  && (was.np.position >= 0.0 ==> back.np.position == was.np.position))
            && (was.np.state == Stopped || was.pos.None? ==> back.np == NOTHING_PLAYING)
  {
    StillHeld(states, steps, c, w, writer);
    FileStays(states, steps, w + 1, i);
    ConsistentAcrossRestarts(states, steps, c);
    RestartRoundTrip(states[c].d);
  }

  // Between crashes the daemon moves by its sections alone; saving does not touch the state.
  lemma OnlyWorkMovesState(states: seq<Session>, steps: seq<Step>, i: nat)
    requires Run(states, steps) && i < |steps| && steps[i] != CrashAndRestore
    ensures states[i + 1].d == if steps[i].Work? then Apply(states[i].d, steps[i].section) else states[i].d
  {
    assert StepAllowed(states[i], steps[i]);
  }

  // The writer's capture at `c` is the last before `w`, not written and not lost in a crash since.
  ghost predicate LiveCapture(states: seq<Session>, steps: seq<Step>, c: nat, w: nat, writer: nat)
    requires w < |states| && w <= |steps| && |states| == |steps| + 1
  {
    && c < w && steps[c] == Capture(writer)
    && forall n {:trigger steps[n]} :: c < n < w ==>
         steps[n] != Capture(writer) && steps[n] != Write(writer) && steps[n] != CrashAndRestore
  }

  lemma CapturedStep(s: Session, t: Step, writer: nat)
    requires StepAllowed(s, t) && writer in ApplyStep(s, t).captured && t != Capture(writer)
    ensures writer in s.captured && t != Write(writer) && t != CrashAndRestore
    ensures ApplyStep(s, t).captured[writer] == s.captured[writer]
  {
  }

  // Whatever a writer holds, it captured in this life of the daemon and has not written yet.
  lemma {:induction false} HeldIsLive(states: seq<Session>, steps: seq<Step>, w: nat, writer: nat) returns (c: nat)
    requires Run(states, steps) && states[0].captured == map[] && w < |states| && writer in states[w].captured
    ensures LiveCapture(states, steps, c, w, writer)
    ensures states[w].captured[writer] == SnapshotFromState(states[c].d)
  {
    var last := w - 1;
    if steps[last] == Capture(writer) {
      c := last;
    } else {
      CapturedStep(states[last], steps[last], writer);
      c := HeldIsLive(states, steps, last, writer);
    }
  }

  // So every write puts such a snapshot on disk: nothing from before a crash, and nothing twice.
  lemma WritesLiveCapture(states: seq<Session>, steps: seq<Step>, w: nat, writer: nat) returns (c: nat)
    requires Run(states, steps) && states[0].captured == map[] && w < |steps| && steps[w] == Write(writer)
    ensures LiveCapture(states, steps, c, w, writer) && states[w + 1].file == Some(SnapshotFromState(states[c].d))
  {
    c := HeldIsLive(states, steps, w, writer);
  }
}
