// The single-flight automatic advance and its rivals as interleaved steps. The EOF listener and
// the tick may both call `advance_auto` for one track end; a manual Next may arrive meanwhile;
// plays and skips are serialized by `playback_transitions`, the gapless commit is not.
module Advance {
  import opened Wrappers

  datatype Pc =
    | Due(inst: nat)           // its trigger has seen a track end under this instance
    | Guarded                  // advance_auto: won the in-flight flag
    | Captured(inst: nat)      // remembered the play instance
    | AutoIn(inst: nat)        // holds transitions, instance not compared yet
    | AutoGo                   // holds transitions, still current
    | AutoLeaving              // holds transitions, nothing left to do
    | AutoReleased             // flag still raised
    | AutoOver
    | NextSaw(inFlight: bool)  // next_track: read the flag
    | NextIn(inFlight: bool)   // holds transitions
    | NextLeaving              // holds transitions
    | NextOver
    | PlayIn                   // play, previous, resume, replace: holds transitions
    | PlayOver

  // `commits` counts the queue-position commits of the call; the clock stamps its span.
  datatype Call = Call(pc: Pc, won: bool, commits: nat, began: nat, ended: Option<nat>)

  datatype State = State(
    inFlight: bool,
    instance: nat,
    position: Option<nat>,
    holder: Option<nat>,       // who holds playback_transitions
    calls: map<nat, Call>,
    clock: nat)

  const INITIAL := State(false, 0, None, None, map[], 0)

  datatype Label =
    | AutoDue(k: nat) | AutoEnter(k: nat) | AutoCapture(k: nat) | AutoLock(k: nat) | AutoCheck(k: nat)
    | AutoCommit(k: nat, pos: nat) | AutoNothing(k: nat) | AutoRelease(k: nat) | AutoExit(k: nat)
    | NextEnter(k: nat) | NextLock(k: nat) | NextCommit(k: nat, pos: nat) | NextNothing(k: nat) | NextRelease(k: nat)
    | PlayLock(k: nat) | PlayCommit(k: nat, pos: nat, newInstance: bool) | PlayRelease(k: nat)
    | GaplessCommit(pos: nat)
    | QueueEdit(newPos: Option<nat>)

  predicate Enabled(s: State, l: Label) {
    match l
    case AutoDue(k) => k !in s.calls
    case AutoEnter(k) => k in s.calls && s.calls[k].pc.Due?
    case AutoCapture(k) => k in s.calls && s.calls[k].pc == Guarded
    case AutoLock(k) => k in s.calls && s.calls[k].pc.Captured? && s.holder.None?
    case AutoCheck(k) => k in s.calls && s.calls[k].pc.AutoIn?
    case AutoCommit(k, _) => k in s.calls && s.calls[k].pc == AutoGo
    case AutoNothing(k) => k in s.calls && s.calls[k].pc == AutoGo
    case AutoRelease(k) => k in s.calls && s.calls[k].pc == AutoLeaving
    case AutoExit(k) => k in s.calls && s.calls[k].pc == AutoReleased
    case NextEnter(k) => k !in s.calls
    case NextLock(k) => k in s.calls && s.calls[k].pc.NextSaw? && s.holder.None?
    case NextCommit(k, _) => k in s.calls && s.calls[k].pc == NextIn(false)
    case NextNothing(k) => k in s.calls && s.calls[k].pc.NextIn?
    case NextRelease(k) => k in s.calls && s.calls[k].pc == NextLeaving
    case PlayLock(k) => k !in s.calls && s.holder.None?
    case PlayCommit(k, _, _) => k in s.calls && s.calls[k].pc == PlayIn
    case PlayRelease(k) => k in s.calls && s.calls[k].pc == PlayIn
    case GaplessCommit(_) => true
    case QueueEdit(_) => true
  }

  function Goes(s: State, k: nat, pc: Pc): State
    requires k in s.calls
  {
    s.(calls := s.calls[k := s.calls[k].(pc := pc)], clock := s.clock + 1)
  }

  function Commits(s: State, k: nat, pc: Pc, pos: nat, newInstance: bool): State
    requires k in s.calls
  {
    s.(calls := s.calls[k := s.calls[k].(pc := pc, commits := s.calls[k].commits + 1)],
       position := Some(pos), instance := if newInstance then s.instance + 1 else s.instance, clock := s.clock + 1)
  }

  function Apply(s: State, l: Label): State
    requires Enabled(s, l)
  {
    match l
    case AutoDue(k) =>
      s.(calls := s.calls[k := Call(Due(s.instance), false, 0, s.clock, None)], clock := s.clock + 1)
    case AutoEnter(k) =>
      if s.inFlight then
        s.(calls := s.calls[k := Call(AutoOver, false, 0, s.clock, Some(s.clock))], clock := s.clock + 1)
      else
        s.(inFlight := true, calls := s.calls[k := Call(Guarded, true, 0, s.clock, None)], clock := s.clock + 1)
    case AutoCapture(k) => Goes(s, k, Captured(s.instance))
    case AutoLock(k) => Goes(s, k, AutoIn(s.calls[k].pc.inst)).(holder := Some(k))
    case AutoCheck(k) => Goes(s, k, if s.instance == s.calls[k].pc.inst then AutoGo else AutoLeaving)
    case AutoCommit(k, pos) => Commits(s, k, AutoLeaving, pos, true)
    case AutoNothing(k) => Goes(s, k, AutoLeaving)
    case AutoRelease(k) => Goes(s, k, AutoReleased).(holder := None)
    case AutoExit(k) =>
      s.(inFlight := false, calls := s.calls[k := s.calls[k].(pc := AutoOver, ended := Some(s.clock))], clock := s.clock + 1)
    case NextEnter(k) =>
      s.(calls := s.calls[k := Call(NextSaw(s.inFlight), false, 0, s.clock, None)], clock := s.clock + 1)
    case NextLock(k) => Goes(s, k, NextIn(s.calls[k].pc.inFlight)).(holder := Some(k))
    case NextCommit(k, pos) => Commits(s, k, NextLeaving, pos, true)
    case NextNothing(k) => Goes(s, k, NextLeaving)
    case NextRelease(k) => Goes(s, k, NextOver).(holder := None)
    case PlayLock(k) =>
      s.(holder := Some(k), calls := s.calls[k := Call(PlayIn, false, 0, s.clock, None)], clock := s.clock + 1)
    case PlayCommit(k, pos, newInstance) => Commits(s, k, PlayIn, pos, newInstance)
    case PlayRelease(k) => Goes(s, k, PlayOver).(holder := None)
    case GaplessCommit(pos) => s.(position := Some(pos), instance := s.instance + 1, clock := s.clock + 1)
    case QueueEdit(newPos) => s.(position := newPos, clock := s.clock + 1)
  }

  ghost predicate Trace(states: seq<State>, labels: seq<Label>) {
    && |states| == |labels| + 1 && states[0] == INITIAL
    && forall i {:trigger labels[i]} :: 0 <= i < |labels| ==>
         Enabled(states[i], labels[i]) && states[i + 1] == Apply(states[i], labels[i])
  }

  // ----- the flag has one owner at a time, and owners' spans never overlap

  predicate AutoPc(pc: Pc) {
    pc.Guarded? || pc.Captured? || pc.AutoIn? || pc.AutoGo? || pc.AutoLeaving? || pc.AutoReleased? || pc.AutoOver?
  }

  predicate CallOk(s: State, c: Call) {
    && c.began < s.clock && (c.ended.Some? ==> c.ended.value < s.clock)
    && (c.won ==> AutoPc(c.pc) && (c.ended.Some? <==> c.pc.AutoOver?))
    && (c.won && c.ended.None? ==> s.inFlight)
    && (AutoPc(c.pc) && !c.won ==> c.pc.AutoOver? && c.commits == 0 && c.ended.Some?)
    && (c.won && !c.pc.AutoLeaving? && !c.pc.AutoReleased? && !c.pc.AutoOver? ==> c.commits == 0)
    && (c.won ==> c.commits <= 1)
  }

  predicate Before(a: Call, b: Call) {
    a.ended.Some? && a.ended.value < b.began
  }

  ghost predicate SingleFlight(s: State) {
    && (forall k :: k in s.calls ==> CallOk(s, s.calls[k]))
    && (forall a, b :: a in s.calls && b in s.calls && a != b && s.calls[a].won && s.calls[b].won ==>
          Before(s.calls[a], s.calls[b]) || Before(s.calls[b], s.calls[a]))
  }

  // How a step changes the calls: at most one entry, with the same owner bit and start.
  predicate CallFrame(s: State, t: State, k: nat) {
    && t.clock == s.clock + 1
    && (t.calls == s.calls || (k in t.calls && t.calls == s.calls[k := t.calls[k]]))
    && (k in s.calls && s.calls[k].won ==>
          && k in t.calls && t.calls[k].won && t.calls[k].began == s.calls[k].began
          && (s.calls[k].ended.Some? ==> t.calls[k].ended == s.calls[k].ended))
    && (k in t.calls && t.calls[k].won && !(k in s.calls && s.calls[k].won) ==>
          t.calls[k].began == s.clock && !s.inFlight)
    && (k in t.calls ==> CallOk(t, t.calls[k]))
    && (s.inFlight ==> t.inFlight || (k in s.calls && s.calls[k].won && s.calls[k].ended.None?))
  }

  function Mover(l: Label): nat {
    if l.GaplessCommit? || l.QueueEdit? then 0 else l.k
  }

  // Labels of an automatic advance, of a manual Next, and the rest.
  predicate IsAuto(l: Label) {
    l.AutoDue? || l.AutoEnter? || l.AutoCapture? || l.AutoLock? || l.AutoCheck?
  }

  predicate IsAutoEnd(l: Label) {
    l.AutoCommit? || l.AutoNothing? || l.AutoRelease? || l.AutoExit?
  }

  predicate KnownOk(s: State, k: nat) {
    k in s.calls ==> CallOk(s, s.calls[k])
  }

  lemma AutoFrame(s: State, l: Label)
    requires Enabled(s, l) && KnownOk(s, Mover(l)) && IsAuto(l)
    ensures CallFrame(s, Apply(s, l), Mover(l))
  {
  }

  lemma AutoEndFrame(s: State, l: Label)
    requires Enabled(s, l) && KnownOk(s, Mover(l)) && IsAutoEnd(l)
    ensures CallFrame(s, Apply(s, l), Mover(l))
  {
  }

  lemma OtherFrame(s: State, l: Label)
    requires Enabled(s, l) && KnownOk(s, Mover(l)) && !IsAuto(l) && !IsAutoEnd(l)
    ensures CallFrame(s, Apply(s, l), Mover(l))
  {
  }

  lemma StepFrame(s: State, l: Label)
    requires Enabled(s, l) && KnownOk(s, Mover(l))
    ensures CallFrame(s, Apply(s, l), Mover(l))
  {
    if IsAuto(l) {
      AutoFrame(s, l);
    } else if IsAutoEnd(l) {
      AutoEndFrame(s, l);
    } else {
      OtherFrame(s, l);
    }
  }

  lemma SingleFlightFrame(s: State, t: State, k: nat)
    requires SingleFlight(s) && CallFrame(s, t, k)
    ensures SingleFlight(t)
  {
    forall x | x in t.calls ensures CallOk(t, t.calls[x]) {
      if x != k {
        assert CallOk(s, s.calls[x]);
        if k in s.calls && s.calls[k].won && s.calls[x].won {
          assert Before(s.calls[k], s.calls[x]) || Before(s.calls[x], s.calls[k]);
          assert CallOk(s, s.calls[k]);
        }
      }
    }
    forall a, b | a in t.calls && b in t.calls && a != b && t.calls[a].won && t.calls[b].won
      ensures Before(t.calls[a], t.calls[b]) || Before(t.calls[b], t.calls[a])
    {
      if a in s.calls && b in s.calls && s.calls[a].won && s.calls[b].won {
        assert Before(s.calls[a], s.calls[b]) || Before(s.calls[b], s.calls[a]);
      } else if a != k {
        assert CallOk(s, s.calls[a]);
      } else {
        assert CallOk(s, s.calls[b]);
      }
    }
  }

  lemma {:induction false} ReachableSingleFlight(states: seq<State>, labels: seq<Label>, i: nat)
    requires Trace(states, labels) && i < |states|
    ensures SingleFlight(states[i])
  {
    if i > 0 {
      ReachableSingleFlight(states, labels, i - 1);
      StepFrame(states[i - 1], labels[i - 1]);
      SingleFlightFrame(states[i - 1], states[i], Mover(labels[i - 1]));
    }
  }

  // Of any calls to `advance_auto` that pairwise overlap, at most one commits a queue position,
  // and it commits at most one.
  lemma OverlappingAdvancesCommitOnce(states: seq<State>, labels: seq<Label>, i: nat, family: set<nat>)
    requires Trace(states, labels) && i < |states|
    requires family <= states[i].calls.Keys
    requires forall k :: k in family ==> AutoPc(states[i].calls[k].pc)
    requires forall a, b :: a in family && b in family && a != b ==> !Before(states[i].calls[a], states[i].calls[b])
    ensures forall a, b :: a in family && b in family && states[i].calls[a].commits > 0 && states[i].calls[b].commits > 0 ==>
              a == b
    ensures forall a :: a in family ==> states[i].calls[a].commits <= 1
  {
    ReachableSingleFlight(states, labels, i);
    var s := states[i];
    forall a, b | a in family && b in family && s.calls[a].commits > 0 && s.calls[b].commits > 0
      ensures a == b
    {
      assert CallOk(s, s.calls[a]) && CallOk(s, s.calls[b]);
    }
    forall a | a in family ensures s.calls[a].commits <= 1 {
      assert CallOk(s, s.calls[a]);
    }
  }

  // The flag is up exactly while the advance that won it has not left.
  ghost predicate FlagOwned(s: State) {
    s.inFlight <==> exists k :: k in s.calls && s.calls[k].won && s.calls[k].ended.None?
  }

  lemma OwnerStays(s: State, l: Label, k: nat)
    requires SingleFlight(s) && Enabled(s, l) && k in s.calls && s.calls[k].won && s.calls[k].ended.None?
    ensures Apply(s, l).inFlight ==>
              k in Apply(s, l).calls && Apply(s, l).calls[k].won && Apply(s, l).calls[k].ended.None?
  {
    assert CallOk(s, s.calls[k]);
  }

  lemma RaisedByWinner(s: State, l: Label)
    requires Enabled(s, l) && !s.inFlight && Apply(s, l).inFlight
    ensures l.AutoEnter? && Apply(s, l).calls[l.k].won && Apply(s, l).calls[l.k].ended.None?
  {
  }

  lemma FlagStaysOwned(s: State, l: Label)
    requires SingleFlight(s) && FlagOwned(s) && Enabled(s, l)
    ensures FlagOwned(Apply(s, l))
  {
    var t, m := Apply(s, l), Mover(l);
    StepFrame(s, l);
    SingleFlightFrame(s, t, m);
    if t.inFlight && s.inFlight {
      var k :| k in s.calls && s.calls[k].won && s.calls[k].ended.None?;
      OwnerStays(s, l, k);
    } else if t.inFlight {
      RaisedByWinner(s, l);
    } else if k :| k in t.calls && t.calls[k].won && t.calls[k].ended.None? {
      assert CallOk(t, t.calls[k]);
    }
  }

  lemma {:induction false} ReachableFlagOwned(states: seq<State>, labels: seq<Label>, i: nat)
    requires Trace(states, labels) && i < |states|
    ensures FlagOwned(states[i])
  {
    if i > 0 {
      ReachableFlagOwned(states, labels, i - 1);
      ReachableSingleFlight(states, labels, i - 1);
      FlagStaysOwned(states[i - 1], labels[i - 1]);
    }
  }

  // ----- supersession

  lemma InstanceGrows(s: State, l: Label)
    requires Enabled(s, l)
    ensures s.instance <= Apply(s, l).instance
  {
  }

  lemma {:induction false} InstanceMonotone(states: seq<State>, labels: seq<Label>, i: nat, j: nat)
    requires Trace(states, labels) && i <= j < |states|
    ensures states[i].instance <= states[j].instance
  {
    if i < j {
      InstanceMonotone(states, labels, i, j - 1);
      InstanceGrows(states[j - 1], labels[j - 1]);
    }
  }

  // An advance that can never commit: its instance is stale, or it is already past the commit.
  predicate Barren(s: State, k: nat) {
    && k in s.calls
    && var pc := s.calls[k].pc;
       || (pc.Captured? && pc.inst < s.instance)
       || (pc.AutoIn? && pc.inst < s.instance)
       || pc.AutoLeaving? || pc.AutoReleased? || pc.AutoOver?
  }

  lemma BarrenStays(s: State, l: Label, k: nat)
    requires Barren(s, k) && Enabled(s, l)
    ensures Barren(Apply(s, l), k) && !(l.AutoCommit? && l.k == k)
    ensures Apply(s, l).calls[k].commits == s.calls[k].commits
  {
  }

  lemma {:induction false} BarrenForever(states: seq<State>, labels: seq<Label>, i: nat, j: nat, k: nat)
    requires Trace(states, labels) && i <= j < |states| && Barren(states[i], k)
    ensures Barren(states[j], k) && states[j].calls[k].commits == states[i].calls[k].commits
  {
    if i < j {
      BarrenForever(states, labels, i, j - 1, k);
      BarrenStays(states[j - 1], labels[j - 1], k);
    }
  }

  // An advance that enters while another is in flight never moves anything.
  lemma LosingAdvanceNeverCommits(states: seq<State>, labels: seq<Label>, i: nat, n: nat, k: nat)
    requires Trace(states, labels) && i < n < |labels| && labels[i] == AutoEnter(k) && states[i].inFlight
    ensures !(labels[n].AutoCommit? && labels[n].k == k)
  {
    BarrenForever(states, labels, i + 1, n, k);
    BarrenStays(states[n], labels[n], k);
  }

  predicate NewInstance(l: Label) {
    l.AutoCommit? || l.NextCommit? || l.GaplessCommit? || (l.PlayCommit? && l.newInstance)
  }

  lemma CapturedStays(s: State, l: Label, k: nat)
    requires Enabled(s, l) && k in s.calls && s.calls[k].pc.Captured? && l != AutoLock(k)
    ensures k in Apply(s, l).calls && Apply(s, l).calls[k] == s.calls[k]
  {
  }

  lemma {:induction false} StillCaptured(states: seq<State>, labels: seq<Label>, i: nat, j: nat, k: nat)
    requires Trace(states, labels) && i < j < |states| && labels[i] == AutoCapture(k)
    requires forall n :: i < n < j ==> labels[n] != AutoLock(k)
    ensures k in states[j].calls && states[j].calls[k].pc == Captured(states[i].instance)
    ensures states[j].calls[k].commits == states[i + 1].calls[k].commits
  {
    if i + 1 < j {
      StillCaptured(states, labels, i, j - 1, k);
      CapturedStays(states[j - 1], labels[j - 1], k);
    }
  }

  // A play instance that starts between an advance's capture and its taking of
  // `playback_transitions` makes that advance change nothing, ever.
  lemma SupersededAdvanceChangesNothing(states: seq<State>, labels: seq<Label>, i: nat, m: nat, j: nat, n: nat, k: nat)
    requires Trace(states, labels) && i < m < j < |labels| && j <= n < |labels|
    requires labels[i] == AutoCapture(k) && labels[j] == AutoLock(k)
    requires forall x :: i < x < j ==> labels[x] != AutoLock(k)
    requires NewInstance(labels[m])
    ensures !(labels[n].AutoCommit? && labels[n].k == k)
    ensures k in states[n + 1].calls && states[n + 1].calls[k].commits == 0
  {
    StillCaptured(states, labels, i, j, k);
    InstanceMonotone(states, labels, i, m);
    assert states[m + 1].instance == states[m].instance + 1;
    InstanceMonotone(states, labels, m + 1, j);
    assert Barren(states[j], k);
    BarrenForever(states, labels, j, n, k);
    BarrenStays(states[n], labels[n], k);
    BarrenForever(states, labels, j, n + 1, k);
    ReachableSingleFlight(states, labels, j);
    assert CallOk(states[j], states[j].calls[k]);
  }

  // ----- a second advance for the same track end

  // Some continuation of at most `n` steps makes advance `k` commit a position.
  ghost predicate CommitsWithin(s: State, k: nat, n: nat)
    decreases n
  {
    n > 0 && exists l :: Enabled(s, l) && ((l.AutoCommit? && l.k == k) || CommitsWithin(Apply(s, l), k, n - 1))
  }

  ghost predicate CommitsEventually(s: State, k: nat) {
    exists n: nat :: CommitsWithin(s, k, n)
  }

  lemma {:induction false} BarrenNeverCommits(s: State, k: nat, n: nat)
    requires Barren(s, k)
    ensures !CommitsWithin(s, k, n)
    decreases n
  {
    if n > 0 {
      forall l | Enabled(s, l) ensures !(l.AutoCommit? && l.k == k) && !CommitsWithin(Apply(s, l), k, n - 1) {
        BarrenStays(s, l, k);
        BarrenNeverCommits(Apply(s, l), k, n - 1);
      }
    }
  }

  lemma OneMore(s: State, l: Label, k: nat, n: nat)
    requires Enabled(s, l) && CommitsWithin(Apply(s, l), k, n)
    ensures CommitsWithin(s, k, n + 1)
  {
  }

  lemma GuardedCommits(s: State, k: nat)
    requires k in s.calls && s.calls[k].pc == Guarded && s.holder.None?
    ensures CommitsWithin(s, k, 4)
  {
    var captured := Apply(s, AutoCapture(k));
    var locked := Apply(captured, AutoLock(k));
    var checked := Apply(locked, AutoCheck(k));
    assert Enabled(checked, AutoCommit(k, 0)) && CommitsWithin(checked, k, 1);
    OneMore(locked, AutoCheck(k), k, 1);
    OneMore(captured, AutoLock(k), k, 2);
    OneMore(s, AutoCapture(k), k, 3);
  }

  lemma DueCommits(s: State, a: nat, b: nat)
    requires a in s.calls && b in s.calls && s.calls[a].pc == AutoLeaving && s.calls[b].pc.Due?
    ensures CommitsWithin(s, b, 7)
  {
    var released := Apply(s, AutoRelease(a));
    var exited := Apply(released, AutoExit(a));
    GuardedCommits(Apply(exited, AutoEnter(b)), b);
    OneMore(exited, AutoEnter(b), b, 4);
    OneMore(released, AutoExit(a), b, 5);
    OneMore(s, AutoRelease(a), b, 6);
  }

  // When one advance commits, another can still commit exactly if it has been triggered but not
  // entered; one that has entered by then, for the same track end or an earlier one, never does.
  lemma SecondAdvanceCommitsIff(states: seq<State>, labels: seq<Label>, x: nat, pos: nat, a: nat, b: nat)
    requires Trace(states, labels) && x < |labels| && labels[x] == AutoCommit(a, pos)
    requires b in states[x].calls && b != a && (states[x].calls[b].pc.Due? || AutoPc(states[x].calls[b].pc))
    ensures CommitsEventually(states[x + 1], b) <==> states[x].calls[b].pc.Due?
  {
    var s, t := states[x], states[x + 1];
    if s.calls[b].pc.Due? {
      DueCommits(t, a, b);
    } else {
      ReachableSingleFlight(states, labels, x);
      assert CallOk(s, s.calls[a]) && CallOk(s, s.calls[b]);
      assert Barren(t, b);
      forall n: nat ensures !CommitsWithin(t, b, n) {
        BarrenNeverCommits(t, b, n);
      }
    }
  }

  // If both commit, the later one entered after the earlier one had left.
  lemma SecondEntersAfterFirstLeft(states: seq<State>, labels: seq<Label>, x: nat, y: nat, a: nat, b: nat, p: nat, q: nat)
    requires Trace(states, labels) && x < y < |labels| && a != b
    requires labels[x] == AutoCommit(a, p) && labels[y] == AutoCommit(b, q)
    ensures a in states[y].calls && Before(states[y].calls[a], states[y].calls[b])
  {
    assert Barren(states[x + 1], a);
    BarrenForever(states, labels, x + 1, y, a);
    ReachableSingleFlight(states, labels, x + 1);
    ReachableSingleFlight(states, labels, y);
    assert CallOk(states[y], states[y].calls[a]) && CallOk(states[y], states[y].calls[b]);
  }

  lemma Extend(states: seq<State>, labels: seq<Label>, l: Label, t: State)
    requires Trace(states, labels) && Enabled(states[|labels|], l) && t == Apply(states[|labels|], l)
    ensures Trace(states + [t], labels + [l])
  {
  }

  const BOTH_DUE :=
    INITIAL.(calls := map[0 := Call(Due(0), false, 0, 0, None), 1 := Call(Due(0), false, 0, 1, None)], clock := 2)

  lemma BothTriggered() returns (states: seq<State>, labels: seq<Label>)
    ensures Trace(states, labels) && |labels| == 2 && states[2] == BOTH_DUE
  {
    var one := INITIAL.(calls := map[0 := Call(Due(0), false, 0, 0, None)], clock := 1);
    states, labels := [INITIAL], [];
    Extend(states, labels, AutoDue(0), one);
    states, labels := states + [one], labels + [AutoDue(0)];
    Extend(states, labels, AutoDue(1), BOTH_DUE);
    states, labels := states + [BOTH_DUE], labels + [AutoDue(1)];
  }

  // One advance of this machine, alone.
  lemma FirstAdvances(states0: seq<State>, labels0: seq<Label>) returns (states: seq<State>, labels: seq<Label>)
    requires Trace(states0, labels0) && |labels0| == 2 && states0[2] == BOTH_DUE
    ensures Trace(states, labels) && |labels| == 7 && labels[6] == AutoCommit(0, 1) && states[2] == BOTH_DUE
    ensures 1 in states[6].calls && states[6].calls[1] == BOTH_DUE.calls[1]
  {
    var waiting := BOTH_DUE.calls[1];
    states, labels := states0, labels0;
    var s3 := BOTH_DUE.(inFlight := true, calls := map[0 := Call(Guarded, true, 0, 2, None), 1 := waiting], clock := 3);
    var s4 := s3.(calls := map[0 := Call(Captured(0), true, 0, 2, None), 1 := waiting], clock := 4);
    var s5 := s3.(calls := map[0 := Call(AutoIn(0), true, 0, 2, None), 1 := waiting], holder := Some(0), clock := 5);
    var s6 := s5.(calls := map[0 := Call(AutoGo, true, 0, 2, None), 1 := waiting], clock := 6);
    Extend(states, labels, AutoEnter(0), s3);
    states, labels := states + [s3], labels + [AutoEnter(0)];
    Extend(states, labels, AutoCapture(0), s4);
    states, labels := states + [s4], labels + [AutoCapture(0)];
    Extend(states, labels, AutoLock(0), s5);
    states, labels := states + [s5], labels + [AutoLock(0)];
    Extend(states, labels, AutoCheck(0), s6);
    states, labels := states + [s6], labels + [AutoCheck(0)];
    var s7 := Apply(s6, AutoCommit(0, 1));
    Extend(states, labels, AutoCommit(0, 1), s7);
    states, labels := states + [s7], labels + [AutoCommit(0, 1)];
  }

  // Two triggers of one track end, under one play instance, that can both commit: the second one
  // has not entered when the first commits, and finds the flag down and a fresh instance later.
  lemma OneTrackEndTwoAdvances() returns (states: seq<State>, labels: seq<Label>)
    ensures Trace(states, labels) && |labels| == 7 && labels[6] == AutoCommit(0, 1)
    ensures states[2] == BOTH_DUE && CommitsEventually(states[7], 1)
  {
    states, labels := BothTriggered();
    states, labels := FirstAdvances(states, labels);
    SecondAdvanceCommitsIff(states, labels, 6, 1, 0, 1);
  }

  // ----- manual Next

  predicate Coalesced(s: State, k: nat) {
    && k in s.calls && s.calls[k].commits == 0
    && var pc := s.calls[k].pc;
       pc == NextSaw(true) || pc == NextIn(true) || pc.NextLeaving? || pc.NextOver?
  }

  lemma CoalescedStays(s: State, l: Label, k: nat)
    requires Coalesced(s, k) && Enabled(s, l)
    ensures Coalesced(Apply(s, l), k)
  {
  }

  // A Next that saw an automatic advance in flight changes nothing.
  lemma {:induction false} CoalescedNextChangesNothing(states: seq<State>, labels: seq<Label>, i: nat, j: nat, k: nat)
    requires Trace(states, labels) && i < j < |states|
    requires labels[i] == NextEnter(k) && states[i].inFlight
    ensures Coalesced(states[j], k) && states[j].calls[k].commits == 0
  {
    if i + 1 < j {
      CoalescedNextChangesNothing(states, labels, i, j - 1, k);
      CoalescedStays(states[j - 1], labels[j - 1], k);
    }
  }

  // ----- serialized transitions

  predicate InTransition(pc: Pc) {
    pc.AutoIn? || pc.AutoGo? || pc.AutoLeaving? || pc.NextIn? || pc.NextLeaving? || pc.PlayIn?
  }

  ghost predicate OneTransition(s: State) {
    && (forall k :: k in s.calls ==> (InTransition(s.calls[k].pc) <==> s.holder == Some(k)))
    && (s.holder.Some? ==> s.holder.value in s.calls)
  }

  predicate TransitionFrame(s: State, t: State, k: nat) {
    && (t.calls == s.calls || (k in t.calls && t.calls == s.calls[k := t.calls[k]]))
    && (k in t.calls ==> (InTransition(t.calls[k].pc) <==> t.holder == Some(k)))
    && (t.holder == s.holder || ((s.holder.None? || s.holder == Some(k)) && (t.holder.None? || t.holder == Some(k))))
    && (t.holder == Some(k) ==> k in t.calls)
  }

  predicate KnownTransition(s: State, k: nat) {
    && (k in s.calls ==> (InTransition(s.calls[k].pc) <==> s.holder == Some(k)))
    && (s.holder == Some(k) ==> k in s.calls)
  }

  lemma AutoTransition(s: State, l: Label)
    requires Enabled(s, l) && KnownTransition(s, Mover(l)) && (IsAuto(l) || IsAutoEnd(l))
    ensures TransitionFrame(s, Apply(s, l), Mover(l))
  {
  }

  lemma OtherTransition(s: State, l: Label)
    requires Enabled(s, l) && KnownTransition(s, Mover(l)) && !IsAuto(l) && !IsAutoEnd(l)
    ensures TransitionFrame(s, Apply(s, l), Mover(l))
  {
  }

  lemma StepTransitionFrame(s: State, l: Label)
    requires Enabled(s, l) && KnownTransition(s, Mover(l))
    ensures TransitionFrame(s, Apply(s, l), Mover(l))
  {
    if IsAuto(l) || IsAutoEnd(l) {
      AutoTransition(s, l);
    } else {
      OtherTransition(s, l);
    }
  }

  lemma OneTransitionFrame(s: State, t: State, k: nat)
    requires OneTransition(s) && TransitionFrame(s, t, k)
    ensures OneTransition(t)
  {
  }

  lemma {:induction false} ReachableOneTransition(states: seq<State>, labels: seq<Label>, i: nat)
    requires Trace(states, labels) && i < |states|
    ensures OneTransition(states[i])
  {
    if i > 0 {
      ReachableOneTransition(states, labels, i - 1);
      StepTransitionFrame(states[i - 1], labels[i - 1]);
      OneTransitionFrame(states[i - 1], states[i], Mover(labels[i - 1]));
    }
  }

  // A position commit by one call while another is inside its transition can only be gapless: a
  // second play, skip or advance has to wait.
  lemma TransitionsAreSerialized(states: seq<State>, labels: seq<Label>, i: nat, k: nat)
    requires Trace(states, labels) && i < |labels|
    requires k in states[i].calls && InTransition(states[i].calls[k].pc)
    requires labels[i].AutoCommit? || labels[i].NextCommit? || labels[i].PlayCommit?
    ensures labels[i].k == k
  {
    ReachableOneTransition(states, labels, i);
    assert InTransition(states[i].calls[labels[i].k].pc);
  }

  // ----- what all this means for the queue position

  // The labels that may write the position, and what they leave there.
  predicate Writes(l: Label) {
    l.AutoCommit? || l.NextCommit? || l.PlayCommit? || l.GaplessCommit? || l.QueueEdit?
  }

  function Written(l: Label): Option<nat>
    requires Writes(l)
  {
    if l.QueueEdit? then l.newPos else Some(l.pos)
  }

  // The position and the play instance move with these labels only, and as they say.
  lemma PositionMoves(states: seq<State>, labels: seq<Label>, i: nat)
    requires Trace(states, labels) && i < |labels|
    ensures states[i + 1].position == if Writes(labels[i]) then Written(labels[i]) else states[i].position
    ensures states[i + 1].instance == states[i].instance + if NewInstance(labels[i]) then 1 else 0
  {
    assert Enabled(states[i], labels[i]);
  }

  // The position is what the last label that writes it left there.
  lemma {:induction false} PositionIsLastWritten(states: seq<State>, labels: seq<Label>, i: nat, j: nat)
    requires Trace(states, labels) && i < j < |states| && Writes(labels[i])
    requires forall n :: i < n < j ==> !Writes(labels[n])
    ensures states[j].position == Written(labels[i])
  {
    var last := j - 1;
    PositionMoves(states, labels, last);
    if i < last {
      PositionIsLastWritten(states, labels, i, last);
    }
  }

  // The label is a step of call `k`.
  predicate StepOf(l: Label, k: nat) {
    !l.GaplessCommit? && !l.QueueEdit? && l.k == k
  }

  lemma AutoWritesByCommit(s: State, l: Label, k: nat)
    requires Enabled(s, l) && k in s.calls && AutoPc(s.calls[k].pc) && StepOf(l, k) && Writes(l)
    ensures l.AutoCommit?
  {
  }

  lemma AutoStaysAuto(s: State, l: Label, k: nat)
    requires Enabled(s, l) && k in s.calls && AutoPc(s.calls[k].pc)
    ensures k in Apply(s, l).calls && AutoPc(Apply(s, l).calls[k].pc)
  {
  }

  lemma {:induction false} AutoForever(states: seq<State>, labels: seq<Label>, i: nat, j: nat, k: nat)
    requires Trace(states, labels) && i <= j < |states| && k in states[i].calls && AutoPc(states[i].calls[k].pc)
    ensures k in states[j].calls && AutoPc(states[j].calls[k].pc)
  {
    if i < j {
      AutoForever(states, labels, i, j - 1, k);
      AutoStaysAuto(states[j - 1], labels[j - 1], k);
    }
  }

  // No step of a superseded advance, from its capture on, changes the position.
  lemma SupersededLeavesPosition(states: seq<State>, labels: seq<Label>, i: nat, m: nat, j: nat, n: nat, k: nat)
    requires Trace(states, labels) && i < m < j < |labels| && i <= n < |labels|
    requires labels[i] == AutoCapture(k) && labels[j] == AutoLock(k)
    requires forall x :: i < x < j ==> labels[x] != AutoLock(k)
    requires NewInstance(labels[m]) && StepOf(labels[n], k)
    ensures states[n + 1].position == states[n].position
  {
    PositionMoves(states, labels, n);
    if n > i {
      AutoForever(states, labels, i + 1, n, k);
      if Writes(labels[n]) {
        AutoWritesByCommit(states[n], labels[n], k);
        if n < j {
          StillCaptured(states, labels, i, n, k);
        } else {
          SupersededAdvanceChangesNothing(states, labels, i, m, j, n, k);
        }
      }
    }
  }

  // No step of a Next that saw an automatic advance in flight changes it either.
  lemma CoalescedLeavesPosition(states: seq<State>, labels: seq<Label>, i: nat, n: nat, k: nat)
    requires Trace(states, labels) && i <= n < |labels|
    requires labels[i] == NextEnter(k) && states[i].inFlight && StepOf(labels[n], k)
    ensures states[n + 1].position == states[n].position
  {
    PositionMoves(states, labels, n);
    if n > i {
      CoalescedNextChangesNothing(states, labels, i, n, k);
    }
  }

  lemma CommitCounted(s: State, l: Label, k: nat)
    requires Enabled(s, l) && k in s.calls
    ensures k in Apply(s, l).calls
    ensures l.AutoCommit? && l.k == k ==> Apply(s, l).calls[k].commits > 0
    ensures !s.calls[k].pc.Due? ==> Apply(s, l).calls[k].commits >= s.calls[k].commits
  {
  }

  // Once committed, always counted.
  lemma {:induction false} CommitRemembered(states: seq<State>, labels: seq<Label>, x: nat, i: nat, k: nat)
    requires Trace(states, labels) && x < i < |states| && labels[x].AutoCommit? && labels[x].k == k
    ensures k in states[i].calls && states[i].calls[k].commits > 0 && AutoPc(states[i].calls[k].pc)
  {
    var last := i - 1;
    if x < last {
      CommitRemembered(states, labels, x, last, k);
      AutoStaysAuto(states[last], labels[last], k);
    }
    CommitCounted(states[last], labels[last], k);
  }

  // A call that is no automatic advance and not about to become one.
  predicate RivalPc(pc: Pc) {
    !AutoPc(pc) && !pc.Due?
  }

  lemma RivalStays(s: State, l: Label, k: nat)
    requires Enabled(s, l)
    requires (k in s.calls && RivalPc(s.calls[k].pc)) || (StepOf(l, k) && Writes(l) && !l.AutoCommit?)
    ensures k in Apply(s, l).calls && RivalPc(Apply(s, l).calls[k].pc)
  {
  }

  lemma {:induction false} RivalForever(states: seq<State>, labels: seq<Label>, y: nat, i: nat, k: nat)
    requires Trace(states, labels) && y < i < |states|
    requires StepOf(labels[y], k) && Writes(labels[y]) && !labels[y].AutoCommit?
    ensures k in states[i].calls && RivalPc(states[i].calls[k].pc)
  {
    var last := i - 1;
    if y < last {
      RivalForever(states, labels, y, last, k);
    }
    RivalStays(states[last], labels[last], k);
  }

  lemma CommitsOnce(states: seq<State>, labels: seq<Label>, x: nat, y: nat, k: nat)
    requires Trace(states, labels) && x < y < |labels| && labels[x].AutoCommit? && labels[x].k == k
    ensures !(labels[y].AutoCommit? && labels[y].k == k)
  {
    BarrenForever(states, labels, x + 1, y, k);
    BarrenStays(states[y], labels[y], k);
  }

  // Of all steps of advances that pairwise overlap, at most one in the whole trace moves the position.
  lemma OverlappingAdvancesMoveOnce(states: seq<State>, labels: seq<Label>, i: nat, family: set<nat>,
                                    x: nat, y: nat, a: nat, b: nat)
    requires Trace(states, labels) && i < |states| && x < y < i
    requires family <= states[i].calls.Keys && a in family && b in family
    requires forall k :: k in family ==> AutoPc(states[i].calls[k].pc)
    requires forall c, d :: c in family && d in family && c != d ==> !Before(states[i].calls[c], states[i].calls[d])
    requires StepOf(labels[x], a) && StepOf(labels[y], b)
    ensures states[x + 1].position == states[x].position || states[y + 1].position == states[y].position
  {
    PositionMoves(states, labels, x);
    PositionMoves(states, labels, y);
    if Writes(labels[x]) && Writes(labels[y]) {
      if !labels[x].AutoCommit? {
        RivalForever(states, labels, x, i, a);
      } else if !labels[y].AutoCommit? {
        RivalForever(states, labels, y, i, b);
      } else {
        CommitsOnce(states, labels, x, y, a);
        CommitRemembered(states, labels, x, i, a);
        CommitRemembered(states, labels, y, i, b);
        OverlappingAdvancesCommitOnce(states, labels, i, family);
      }
    }
  }
}
