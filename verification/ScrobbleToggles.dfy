// Play reporting while the user switches it off and on, and while the server's answer switches
// between the two paths: what each tick sends, run by run.
module ScrobbleToggles {
  import opened Wrappers
  import opened Models
  import opened Scrobble

  // One tick with the setting and the path it read.
  datatype Tick = Tick(enabled: bool, modern: bool, sample: Sample)

  function TickNext(t: Tracking, k: Tick): Tracking {
    if k.enabled then Next(t, k.modern, k.sample) else IDLE
  }

  function TickReports(t: Tracking, k: Tick): seq<Report> {
    if k.enabled then Reports(t, k.modern, k.sample) else []
  }

  function From(t: Tracking, ticks: seq<Tick>): Tracking {
    if ticks == [] then t
    else
      var n := |ticks| - 1;
      TickNext(From(t, ticks[..n]), ticks[n])
  }

  function SentFrom(t: Tracking, ticks: seq<Tick>): seq<Report> {
    if ticks == [] then []
    else
      var n := |ticks| - 1;
      SentFrom(t, ticks[..n]) + TickReports(From(t, ticks[..n]), ticks[n])
  }

  lemma OneMoreTick(t: Tracking, ticks: seq<Tick>, k: Tick)
    ensures From(t, ticks + [k]) == TickNext(From(t, ticks), k)
    ensures SentFrom(t, ticks + [k]) == SentFrom(t, ticks) + TickReports(From(t, ticks), k)
  {
    assert (ticks + [k])[..|ticks|] == ticks;
  }

  lemma Regroup(x: seq<Report>, y: seq<Report>, z: seq<Report>)
    ensures x + (y + z) == x + y + z
  {
  }

  lemma {:induction false} TicksCompose(t: Tracking, a: seq<Tick>, b: seq<Tick>)
    ensures From(t, a + b) == From(From(t, a), b)
    ensures SentFrom(t, a + b) == SentFrom(t, a) + SentFrom(From(t, a), b)
  {
    if b == [] {
      assert a + b == a;
    } else {
      var n := |b| - 1;
      var less, mid := a + b[..n], From(t, a);
      assert a + b == less + [b[n]];
      TicksCompose(t, a, b[..n]);
      OneMoreTick(t, less, b[n]);
      Regroup(SentFrom(t, a), SentFrom(mid, b[..n]), TickReports(From(mid, b[..n]), b[n]));
    }
  }

  // ----- one path throughout

  function Samples(ticks: seq<Tick>): seq<Sample> {
    seq(|ticks|, i requires 0 <= i < |ticks| => ticks[i].sample)
  }

  // While nothing is switched, the reports are the stream of the samples on that path.
  lemma {:induction false} UnswitchedIsStream(ticks: seq<Tick>, modern: bool)
    requires forall i :: 0 <= i < |ticks| ==> ticks[i].enabled && ticks[i].modern == modern
    ensures From(IDLE, ticks) == After(Samples(ticks), modern)
    ensures SentFrom(IDLE, ticks) == Stream(Samples(ticks), modern)
  {
    if ticks != [] {
      var n := |ticks| - 1;
      UnswitchedIsStream(ticks[..n], modern);
      assert Samples(ticks)[..n] == Samples(ticks[..n]);
    }
  }

  // ----- switching off

  // Switching off sends nothing, and what comes later is reported as if the daemon had just started.
  lemma SwitchingOffForgets(a: seq<Tick>, off: Tick, b: seq<Tick>)
    requires !off.enabled
    ensures SentFrom(IDLE, a + [off] + b) == SentFrom(IDLE, a) + SentFrom(IDLE, b)
  {
    TicksCompose(IDLE, a + [off], b);
    OneMoreTick(IDLE, a, off);
  }

  // ----- one run of a song, whatever path each tick is on

  ghost predicate OneRun(run: seq<Tick>) {
    && run != [] && run[0].sample.id.Some?
    && forall i :: 0 <= i < |run| ==> run[i].enabled && SameKey(run[0].sample, run[i].sample)
  }

  lemma ShorterRun(run: seq<Tick>)
    requires OneRun(run) && |run| > 1
    ensures OneRun(run[..|run| - 1])
  {
  }

  lemma {:induction false} RunIsTracked(t: Tracking, run: seq<Tick>)
    requires OneRun(run)
    ensures From(t, run).songId == run[0].sample.id && From(t, run).instance == run[0].sample.instance
  {
    if |run| > 1 {
      ShorterRun(run);
      RunIsTracked(t, run[..|run| - 1]);
    }
  }

  // What came before a run shows only in the report that ends it.
  lemma {:induction false} RunIsIndependent(t: Tracking, run: seq<Tick>)
    requires OneRun(run) && !SameRun(t, run[0].sample)
    ensures From(t, run) == From(IDLE, run)
    ensures SentFrom(t, run) == Finalize(t, run[0].modern) + SentFrom(IDLE, run)
  {
    var n := |run| - 1;
    if n == 0 {
      assert run == [] + [run[0]];
      OneMoreTick(t, [], run[0]);
      OneMoreTick(IDLE, [], run[0]);
    } else {
      ShorterRun(run);
      RunIsIndependent(t, run[..n]);
      Regroup(Finalize(t, run[0].modern), SentFrom(IDLE, run[..n]), TickReports(From(IDLE, run[..n]), run[n]));
    }
  }

  // So a stream is cut at every new run: the part before, its closing report, the run's own part.
  lemma StreamIsCutAtRuns(before: seq<Tick>, run: seq<Tick>)
    requires OneRun(run) && !SameRun(From(IDLE, before), run[0].sample)
    ensures SentFrom(IDLE, before + run) ==
            SentFrom(IDLE, before) + Finalize(From(IDLE, before), run[0].modern) + SentFrom(IDLE, run)
  {
    var t := From(IDLE, before);
    TicksCompose(IDLE, before, run);
    RunIsIndependent(t, run);
    Regroup(SentFrom(IDLE, before), Finalize(t, run[0].modern), SentFrom(IDLE, run));
  }

  // A tick on the classic path that sees the song playing past the threshold.
  predicate CountsNow(k: Tick) {
    !k.modern && k.sample.state == Playing && ClassicReached(k.sample.position, k.sample.duration)
  }

  // Some tick after the first did.
  predicate ReachedOnClassic(run: seq<Tick>) {
    exists i :: 1 <= i < |run| && CountsNow(run[i])
  }

  lemma ReachedExtends(run: seq<Tick>, k: Tick)
    requires run != []
    ensures ReachedOnClassic(run + [k]) <==> ReachedOnClassic(run) || CountsNow(k)
  {
    var longer := run + [k];
    if ReachedOnClassic(run) {
      var i :| 1 <= i < |run| && CountsNow(run[i]);
      assert CountsNow(longer[i]);
    }
    if CountsNow(k) {
      assert CountsNow(longer[|run|]);
    }
  }

  // What the tracker knows of a run it has followed from its first tick.
  ghost predicate RunTracked(t: Tracking, run: seq<Tick>)
    requires run != []
  {
    && t.songId == run[0].sample.id && t.instance == run[0].sample.instance
    && t.submitted == (SeenPast(Samples(run)) || ReachedOnClassic(run))
    && t.duration == TrackedDuration(Samples(run)) && t.lastPosition == run[|run| - 1].sample.position
  }

  lemma SubmissionsOfOne(t: Tracking, modern: bool, s: Sample)
    requires s.id.Some?
    ensures Submissions(Continuing(t, modern, s)) == if !modern && SubmitsNow(t, s) then 1 else 0
    ensures Submissions(Opening(modern, s)) == 0
  {
    if modern {
      CountsAdd([Playback(s.id.value, PositionMs(s.position), "starting")],
                if s.state == Playing then [Playback(s.id.value, PositionMs(s.position), "playing")] else []);
    } else {
      CountsAdd(if AnnouncesNow(t, s) then [NowPlayingReport(s.id.value)] else [],
                if SubmitsNow(t, s) then [Submission(s.id.value)] else []);
    }
  }

  lemma FirstTickTracked(k: Tick)
    requires OneRun([k])
    ensures RunTracked(From(IDLE, [k]), [k]) && !ReachedOnClassic([k])
    ensures Submissions(SentFrom(IDLE, [k])) == 0
  {
    SubmissionsOfOne(IDLE, k.modern, k.sample);
    OneMoreTick(IDLE, [], k);
    assert [] + [k] == [k];
    CountsAdd(Finalize(IDLE, k.modern), Opening(k.modern, k.sample));
    CountsAdd([], TickReports(IDLE, k));
  }

  lemma NextTickTracked(t: Tracking, run: seq<Tick>, k: Tick)
    requires run != [] && RunTracked(t, run) && k.enabled && SameKey(run[0].sample, k.sample) && k.sample.id.Some?
    ensures RunTracked(TickNext(t, k), run + [k])
    ensures Submissions(TickReports(t, k)) == if CountsNow(k) && !t.submitted then 1 else 0
  {
    ReachedExtends(run, k);
    assert Samples(run + [k]) == Samples(run) + [k.sample];
    DurationExtends(Samples(run), k.sample);
    SubmissionsOfOne(t, k.modern, k.sample);
  }

  lemma {:induction false} RunCounted(run: seq<Tick>)
    requires OneRun(run)
    ensures RunTracked(From(IDLE, run), run)
    ensures Submissions(SentFrom(IDLE, run)) == if !SeenPast(Samples(run)) && ReachedOnClassic(run) then 1 else 0
  {
    var n := |run| - 1;
    var k := run[n];
    if n == 0 {
      assert run == [k];
      FirstTickTracked(k);
    } else {
      var less := run[..n];
      var t := From(IDLE, less);
      assert run == less + [k];
      ShorterRun(run);
      RunCounted(less);
      OneMoreTick(IDLE, less, k);
      NextTickTracked(t, less, k);
      ReachedExtends(less, k);
      CountsAdd(SentFrom(IDLE, less), TickReports(t, k));
      assert SeenPast(Samples(run)) == SeenPast(Samples(less));
    }
  }

  // One run under any switching of the path: a submission from its own ticks exactly if it was not
  // first seen past the threshold and reached it on a classic tick; one from its closing exactly if
  // neither of these, the closing tick is on the classic path, and it stood past the threshold.
  lemma SwitchedRunCounts(run: seq<Tick>, closing: bool)
    requires OneRun(run)
    ensures Submissions(SentFrom(IDLE, run)) == if !SeenPast(Samples(run)) && ReachedOnClassic(run) then 1 else 0
    ensures Submissions(Finalize(From(IDLE, run), closing)) ==
            if !closing && !SeenPast(Samples(run)) && !ReachedOnClassic(run) && PastAtTheEnd(Samples(run)) then 1 else 0
  {
    RunCounted(run);
  }

  // Switched on again in the middle of a play that is already past the threshold, the play is not
  // submitted again, neither while it goes on nor when it ends.
  lemma SwitchedOnPastThreshold(a: seq<Tick>, off: Tick, run: seq<Tick>, closing: bool)
    requires !off.enabled && OneRun(run) && SeenPast(Samples(run))
    ensures Submissions(SentFrom(IDLE, a + [off] + run)) == Submissions(SentFrom(IDLE, a))
    ensures Submissions(Finalize(From(IDLE, a + [off] + run), closing)) == 0
  {
    SwitchingOffForgets(a, off, run);
    OneMoreTick(IDLE, a, off);
    TicksCompose(IDLE, a + [off], run);
    SwitchedRunCounts(run, closing);
    CountsAdd(SentFrom(IDLE, a), SentFrom(IDLE, run));
  }

  // ----- any switching at all

  function SubmissionsOf(rs: seq<Report>, id: string): nat {
    if rs == [] then 0 else (if rs[0] == Submission(id) then 1 else 0) + SubmissionsOf(rs[1..], id)
  }

  lemma {:induction false} SubmissionsAdd(a: seq<Report>, b: seq<Report>, id: string)
    ensures SubmissionsOf(a + b, id) == SubmissionsOf(a, id) + SubmissionsOf(b, id)
  {
    if a == [] {
      assert a + b == b;
    } else {
      assert (a + b)[1..] == a[1..] + b;
      SubmissionsAdd(a[1..], b, id);
    }
  }

  // Tick `n` first sees a play of `id`, and sees it below the threshold.
  predicate OpensBelow(ticks: seq<Tick>, n: nat, id: string)
    requires n < |ticks|
  {
    && ticks[n].enabled && ticks[n].sample.id == Some(id)
    && !(n > 0 && ticks[n - 1].enabled && SameKey(ticks[n - 1].sample, ticks[n].sample))
    && !ClassicReached(ticks[n].sample.position, ticks[n].sample.duration)
  }

  function OpenedBelow(ticks: seq<Tick>, id: string): nat {
    if ticks == [] then 0
    else
      var n := |ticks| - 1;
      OpenedBelow(ticks[..n], id) + if OpensBelow(ticks, n, id) then 1 else 0
  }

  // The tracker may still submit the play it is on.
  function Owed(t: Tracking, id: string): nat {
    if t.songId == Some(id) && !t.submitted then 1 else 0
  }

  lemma {:induction false} TrackerIsOnLastKey(ticks: seq<Tick>)
    requires ticks != []
    ensures var t, k := From(IDLE, ticks), ticks[|ticks| - 1];
            if k.enabled then t.songId == k.sample.id && t.instance == k.sample.instance else t == IDLE
  {
  }

  lemma OpeningSubmitsNothing(modern: bool, s: Sample, id: string)
    ensures SubmissionsOf(Opening(modern, s), id) == 0
  {
    if s.id.Some? && modern {
      SubmissionsAdd([Playback(s.id.value, PositionMs(s.position), "starting")],
                     if s.state == Playing then [Playback(s.id.value, PositionMs(s.position), "playing")] else [], id);
    }
  }

  lemma StepOwes(t: Tracking, k: Tick, id: string)
    ensures SubmissionsOf(TickReports(t, k), id) + Owed(TickNext(t, k), id) <=
            Owed(t, id)
            + if k.enabled && !SameRun(t, k.sample) && k.sample.id == Some(id)
                 && !ClassicReached(k.sample.position, k.sample.duration) then 1 else 0
  {
    var s := k.sample;
    if SameRun(t, s) {
      if s.id.Some? && !k.modern {
        var announced := if AnnouncesNow(t, s) then [NowPlayingReport(s.id.value)] else [];
        var submitted := if SubmitsNow(t, s) then [Submission(s.id.value)] else [];
        SubmissionsAdd(announced, submitted, id);
        assert SubmissionsOf(announced, id) == 0;
      }
    } else {
      OpeningSubmitsNothing(k.modern, s, id);
      SubmissionsAdd(Finalize(t, k.modern), Opening(k.modern, s), id);
    }
  }

  // However reporting and path are switched, a song is submitted at most once for each time it was
  // first seen below the threshold.
  lemma {:induction false} SubmittedOncePerPlay(ticks: seq<Tick>, id: string)
    ensures SubmissionsOf(SentFrom(IDLE, ticks), id) + Owed(From(IDLE, ticks), id) <= OpenedBelow(ticks, id)
  {
    if ticks != [] {
      var n := |ticks| - 1;
      var t, k := From(IDLE, ticks[..n]), ticks[n];
      SubmittedOncePerPlay(ticks[..n], id);
      StepOwes(t, k, id);
      SubmissionsAdd(SentFrom(IDLE, ticks[..n]), TickReports(t, k), id);
      if n > 0 {
        TrackerIsOnLastKey(ticks[..n]);
        assert ticks[..n][n - 1] == ticks[n - 1];
      }
    }
  }
}
