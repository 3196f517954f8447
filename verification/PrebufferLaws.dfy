// What the labels of a trace alone decide: the length of mpv's playlist, the cells the tasks share,
// the load generation, and when a request gives up.
module PrebufferLaws {
  import opened Wrappers
  import opened Prebuffer

  // ----- mpv's playlist

  // A stop that mpv executed: of a pause, stop, end of queue, or a Buffered start silencing the old track.
  predicate Stops(l: Label) {
    (l.OfCan? && l.ca == CanStop(true)) || (l.OfReq? && l.ra == StopOld(true))
  }

  predicate Appends(l: Label) {
    l.OfPre? && l.pa.AppendNext?
  }

  // The playlist length after one step, read off the label.
  function LengthAfter(l: Label, before: nat): int {
    if LoadsSomething(l) then 1
    else if Stops(l) then 0
    else if Appends(l) then before + 1
    else if l == OfMisc(RemoveEntry) then before - 1
    else if l.OfMisc? && l.ma.MpvLoses? then l.ma.left
    else before
  }

  lemma RequestMovesPlaylist(s: State, r: nat, a: ReqAct)
    requires ReqEnabled(s, r, a)
    ensures ReqApply(s, r, a).count == LengthAfter(OfReq(r, a), s.count)
  {
  }

  // Loads leave one entry, stops none, a preload adds one, and nothing else but mpv itself and the
  // removal of a played or outdated entry touches the playlist.
  lemma PlaylistMoves(states: seq<State>, labels: seq<Label>, i: nat)
    requires Trace(states, labels) && i < |labels|
    ensures states[i + 1].count == LengthAfter(labels[i], states[i].count)
  {
    var s, l := states[i], labels[i];
    assert Enabled(s, l);
    if l.OfReq? {
      RequestMovesPlaylist(s, l.r, l.ra);
    }
  }

  // mpv is empty and no preload has passed its last check.
  ghost predicate Silent(s: State) {
    s.count == 0 && forall p :: p in s.pres ==> !s.pres[p].CountOk?
  }

  lemma StepStaysSilent(s: State, l: Label)
    requires Enabled(s, l) && Silent(s) && !LoadsSomething(l)
    ensures Silent(Apply(s, l))
  {
    match l
    case OfReq(r, a) =>
      RequestMovesPlaylist(s, r, a);
      ReqGrows(s, r, a);
    case OfCan(k, a) =>
    case OfPre(p, a) =>
    case OfMisc(a) =>
  }

  lemma StopSilencesNow(s: State, l: Label)
    requires OneHolder(s) && Enabled(s, l) && Stops(l)
    ensures Silent(Apply(s, l))
  {
    var me := if l.OfReq? then ReqActor(l.r) else CanActor(l.k);
    assert s.holder == Some(me);
    forall p | p in s.pres ensures !s.pres[p].CountOk? {
      assert PreInMpv(s.pres[p]) <==> s.holder == Some(PreActor(p));
    }
  }

  // A stop silences mpv until the next load: no preload gets in between.
  lemma {:induction false} StopSilences(states: seq<State>, labels: seq<Label>, m: nat, j: nat)
    requires Trace(states, labels) && m < j < |states| && Stops(labels[m])
    requires forall i :: m < i < j ==> !LoadsSomething(labels[i])
    ensures Silent(states[j]) && states[j].count == 0
  {
    var last := j - 1;
    if m == last {
      ReachableInv(states, labels, m);
      StopSilencesNow(states[m], labels[m]);
    } else {
      StopSilences(states, labels, m, last);
      StepStaysSilent(states[last], labels[last]);
    }
  }

  // And what is loaded stays, until a stop, the next load, or mpv itself drops it.
  lemma {:induction false} LoadedUntilStopped(states: seq<State>, labels: seq<Label>, m: nat, j: nat)
    requires Trace(states, labels) && m < j < |states| && LoadsSomething(labels[m])
    requires forall i :: m < i < j ==> !Stops(labels[i]) && !(labels[i].OfMisc? && labels[i].ma.MpvLoses?)
    ensures 1 <= states[j].count
  {
    var last := j - 1;
    PlaylistMoves(states, labels, last);
    if m < last {
      LoadedUntilStopped(states, labels, m, last);
      assert Enabled(states[last], labels[last]);
    }
  }

  // ----- the shared cells hold what was written last

  datatype Cell = CancelSlot | LoadingSlot | LoadingFlag

  predicate HoldsFor(s: State, c: Cell, r: nat) {
    match c
    case CancelSlot => s.slot == Some(r)
    case LoadingSlot => s.loading == Some(r)
    case LoadingFlag => r in s.flag
  }

  predicate ClearsFor(l: Label, c: Cell, r: nat) {
    match c
    case CancelSlot => l == OfReq(r, RunCleaner) || (l.OfReq? && l.ra.Install?) || (l.OfCan? && l.ca.Take?)
    case LoadingSlot => (l.OfReq? && l.ra.Install?) || (l.OfCan? && l.ca.ClearLoading?)
    case LoadingFlag => l == OfReq(r, DispatchDropped) || l == OfReq(r, ClearOwnFlag) || l == OfReq(r, DropGate)
  }

  lemma RequestWritesCell(s: State, q: nat, a: ReqAct, c: Cell, r: nat)
    requires ReqEnabled(s, q, a)
    ensures HoldsFor(ReqApply(s, q, a), c, r) <==>
            OfReq(q, a) == OfReq(r, Install) || (HoldsFor(s, c, r) && !ClearsFor(OfReq(q, a), c, r))
  {
  }

  lemma StepWritesCell(s: State, l: Label, c: Cell, r: nat)
    requires Enabled(s, l)
    ensures HoldsFor(Apply(s, l), c, r) <==> l == OfReq(r, Install) || (HoldsFor(s, c, r) && !ClearsFor(l, c, r))
  {
    if l.OfReq? {
      RequestWritesCell(s, l.r, l.ra, c, r);
    }
  }

  // Label `i` installed `r`, and no label between it and `j` cleared the cell.
  predicate StillInstalled(labels: seq<Label>, i: nat, j: nat, c: Cell, r: nat)
    requires j <= |labels|
  {
    i < j && labels[i] == OfReq(r, Install) && forall n {:trigger labels[n]} :: i < n < j ==> !ClearsFor(labels[n], c, r)
  }

  predicate InstalledSince(labels: seq<Label>, j: nat, c: Cell, r: nat)
    requires j <= |labels|
  {
    exists i: nat :: i < j && StillInstalled(labels, i, j, c, r)
  }

  lemma InstalledOneMore(labels: seq<Label>, last: nat, c: Cell, r: nat)
    requires last < |labels|
    ensures InstalledSince(labels, last + 1, c, r) <==>
            labels[last] == OfReq(r, Install) || (InstalledSince(labels, last, c, r) && !ClearsFor(labels[last], c, r))
  {
    var j := last + 1;
    if InstalledSince(labels, j, c, r) {
      var i: nat :| i < j && StillInstalled(labels, i, j, c, r);
      if i < last {
        assert StillInstalled(labels, i, last, c, r);
      }
    }
    if labels[last] == OfReq(r, Install) {
      assert StillInstalled(labels, last, j, c, r);
    } else if InstalledSince(labels, last, c, r) && !ClearsFor(labels[last], c, r) {
      var i: nat :| i < last && StillInstalled(labels, i, last, c, r);
      assert StillInstalled(labels, i, j, c, r);
    }
  }

  // Cancel slot, loading slot and loading flag name a request exactly if it was installed and none
  // of the labels that clear them came since.
  lemma {:induction false} CellIsLastWritten(states: seq<State>, labels: seq<Label>, j: nat, c: Cell, r: nat)
    requires Trace(states, labels) && j < |states|
    ensures HoldsFor(states[j], c, r) <==> InstalledSince(labels, j, c, r)
  {
    if j > 0 {
      var last := j - 1;
      CellIsLastWritten(states, labels, last, c, r);
      StepWritesCell(states[last], labels[last], c, r);
      InstalledOneMore(labels, last, c, r);
    }
  }

  // The label flips the token of `r`: a newer request displaces it, or a command that took it.
  predicate FlipsFor(s: State, l: Label, r: nat) {
    || (l.OfReq? && l.ra.Install? && s.slot == Some(r))
    || (l.OfCan? && l.ca.Flip? && l.k in s.cans && s.cans[l.k].tok == Some(r))
  }

  lemma RequestFlips(s: State, q: nat, a: ReqAct, r: nat)
    requires ReqEnabled(s, q, a)
    ensures r in ReqApply(s, q, a).flipped <==> r in s.flipped || FlipsFor(s, OfReq(q, a), r)
  {
  }

  lemma StepFlips(s: State, l: Label, r: nat)
    requires Enabled(s, l)
    ensures r in Apply(s, l).flipped <==> r in s.flipped || FlipsFor(s, l, r)
  {
    if l.OfReq? {
      RequestFlips(s, l.r, l.ra, r);
    }
  }

  // A token is true exactly if one of these flipped it.
  lemma {:induction false} FlippedIff(states: seq<State>, labels: seq<Label>, j: nat, r: nat)
    requires Trace(states, labels) && j < |states|
    ensures r in states[j].flipped <==> exists m {:trigger labels[m]} :: 0 <= m < j && FlipsFor(states[m], labels[m], r)
  {
    if j > 0 {
      var last := j - 1;
      FlippedIff(states, labels, last, r);
      StepFlips(states[last], labels[last], r);
    }
  }

  // ----- the load generation

  predicate Stamps(l: Label) {
    || l == OfMisc(CommitStamp)
    || (l.OfReq? && (l.ra.FallbackStamp? || l.ra.FinalStamp?))
    || (l.OfCan? && l.ca.CanStamp?)
  }

  lemma RequestStamps(s: State, r: nat, a: ReqAct)
    requires ReqEnabled(s, r, a)
    ensures ReqApply(s, r, a).gen == s.gen + if Stamps(OfReq(r, a)) then 1 else 0
  {
  }

  lemma StepStamps(s: State, l: Label)
    requires Enabled(s, l)
    ensures Apply(s, l).gen == s.gen + if Stamps(l) then 1 else 0
  {
    if l.OfReq? {
      RequestStamps(s, l.r, l.ra);
    }
  }

  lemma {:induction false} GenGrows(states: seq<State>, labels: seq<Label>, i: nat, j: nat)
    requires Trace(states, labels) && i <= j < |states|
    ensures states[i].gen <= states[j].gen
    ensures forall m :: i <= m < j && Stamps(labels[m]) ==> states[i].gen < states[j].gen
  {
    if i < j {
      var last := j - 1;
      GenGrows(states, labels, i, last);
      StepStamps(states[last], labels[last]);
    }
  }

  lemma PreloadMoves(s: State, l: Label, p: nat)
    requires Enabled(s, l) && p in s.pres
    ensures p in Apply(s, l).pres
    ensures s.pres[p].PreDone? ==> Apply(s, l).pres[p].PreDone?
    ensures Apply(s, l).pres[p].PreDone? || (!s.pres[p].PreDone? && Apply(s, l).pres[p].gen == s.pres[p].gen)
  {
    if l.OfReq? {
      ReqGrows(s, l.r, l.ra);
    }
  }

  lemma {:induction false} GenRemembered(states: seq<State>, labels: seq<Label>, i: nat, j: nat, p: nat)
    requires Trace(states, labels) && i < j < |states| && labels[i] == OfPre(p, Capture)
    ensures p in states[j].pres && (states[j].pres[p].PreDone? || states[j].pres[p].gen == states[i].gen)
  {
    var last := j - 1;
    if i < last {
      GenRemembered(states, labels, i, last, p);
      PreloadMoves(states[last], labels[last], p);
    }
  }

  lemma {:induction false} DoneForever(states: seq<State>, labels: seq<Label>, i: nat, j: nat, p: nat)
    requires Trace(states, labels) && i <= j < |states| && p in states[i].pres && states[i].pres[p].PreDone?
    ensures p in states[j].pres && states[j].pres[p].PreDone?
  {
    if i < j {
      DoneForever(states, labels, i, j - 1, p);
      PreloadMoves(states[j - 1], labels[j - 1], p);
    }
  }

  // A preload appends only if nothing was stamped between its capture and its check: neither a load
  // nor the commit of a new play.
  lemma StampOutdatesCapture(states: seq<State>, labels: seq<Label>, i: nat, g: nat, j: nat, p: nat, m: nat)
    requires Trace(states, labels) && i < g < j < |labels| && i <= m < g
    requires labels[i] == OfPre(p, Capture) && labels[g] == OfPre(p, CheckGen) && labels[j] == OfPre(p, AppendNext)
    ensures !Stamps(labels[m])
  {
    GenRemembered(states, labels, i, g, p);
    GenGrows(states, labels, i, g);
    if states[g].gen != states[i].gen {
      DoneForever(states, labels, g + 1, j, p);
    }
  }

  // ----- when a request gives up

  // The steps after which no load lies ahead of the request: its one load, a cancel or shutdown it
  // sees, or the dispatch being dropped. A download or temp file that fails is none of them.
  predicate GivesUp(s: State, r: nat, a: ReqAct) {
    || a.FinalLoad? || a.FallbackLoad? || a.DispatchDropped? || a.SeeCancel? || a.SeeShutdown?
    || (a.FinalRead? && r in s.flipped)
    || (a.FallbackRead? && (a.shutdown || r in s.flipped))
  }

  lemma GivesUpIff(s: State, r: nat, a: ReqAct)
    requires r in s.reqs && !Spent(s.reqs[r]) && ReqEnabled(s, r, a)
    ensures r in ReqApply(s, r, a).reqs
    ensures Spent(ReqApply(s, r, a).reqs[r]) <==> GivesUp(s, r, a)
  {
  }

  lemma StepGivesUpIff(s: State, l: Label, r: nat)
    requires Enabled(s, l) && r in s.reqs && !Spent(s.reqs[r])
    ensures r in Apply(s, l).reqs
    ensures Spent(Apply(s, l).reqs[r]) <==> l.OfReq? && l.r == r && GivesUp(s, r, l.ra)
  {
    if l.OfReq? && l.r == r {
      GivesUpIff(s, r, l.ra);
    } else {
      OthersKeepPc(s, l, r);
    }
  }

  // From its installation on, a request has a load ahead of it until the first such step.
  lemma {:induction false} KeepsTryingUntilItGivesUp(states: seq<State>, labels: seq<Label>, i: nat, j: nat, r: nat)
    requires Trace(states, labels) && i < j < |states| && labels[i] == OfReq(r, Install)
    requires forall n {:trigger labels[n]} :: i < n < j ==>
               !(labels[n].OfReq? && labels[n].r == r && GivesUp(states[n], r, labels[n].ra))
    ensures r in states[j].reqs && !Spent(states[j].reqs[r])
  {
    var last := j - 1;
    if i < last {
      KeepsTryingUntilItGivesUp(states, labels, i, last, r);
      StepGivesUpIff(states[last], labels[last], r);
    }
  }

  // ----- what a download leaves behind

  predicate InTask(pc: ReqPc) {
    match pc
    case Installed => false
    case Stopping => false
    case Prepared => false
    case WantsFallback(inTask) => inTask
    case FallbackIn(inTask) => inTask
    case FallbackGo(inTask) => inTask
    case FallbackLoaded(inTask) => inTask
    case TempDone => false
    case _ => true
  }

  // Once it is over without a cancel, its token is out of the slot or a cleaner is on its way.
  predicate CleansUp(s: State, r: nat) {
    && r in s.reqs && InTask(s.reqs[r])
    && ((s.reqs[r].Dropping? || s.reqs[r].Gone?) && r !in s.flipped ==> s.slot != Some(r) || r in s.cleaners)
  }

  lemma OwnStepCleansUp(s: State, r: nat, a: ReqAct)
    requires CleansUp(s, r) && ReqEnabled(s, r, a)
    ensures CleansUp(ReqApply(s, r, a), r)
  {
  }

  lemma OtherRequestKeepsOut(s: State, q: nat, a: ReqAct, r: nat)
    requires ReqEnabled(s, q, a) && q != r
    ensures r in s.flipped ==> r in ReqApply(s, q, a).flipped
    ensures s.slot != Some(r) ==> ReqApply(s, q, a).slot != Some(r)
    ensures r in s.cleaners ==> r in ReqApply(s, q, a).cleaners
  {
  }

  lemma SlotKeepsOut(s: State, l: Label, r: nat)
    requires Enabled(s, l) && r in s.reqs && !(l.OfReq? && l.r == r)
    ensures r in s.flipped ==> r in Apply(s, l).flipped
    ensures s.slot != Some(r) ==> Apply(s, l).slot != Some(r)
    ensures r in s.cleaners ==> r in Apply(s, l).cleaners
  {
    if l.OfReq? {
      OtherRequestKeepsOut(s, l.r, l.ra, r);
    }
  }

  lemma OtherStepCleansUp(s: State, l: Label, r: nat)
    requires CleansUp(s, r) && Enabled(s, l) && !(l.OfReq? && l.r == r)
    ensures CleansUp(Apply(s, l), r)
  {
    OthersKeepPc(s, l, r);
    SlotKeepsOut(s, l, r);
  }

  // A spawned download that ends without a cancel leaves no token of its own in the cancel slot, up
  // to the cleaner it spawned.
  lemma {:induction false} DownloadCleansUp(states: seq<State>, labels: seq<Label>, i: nat, j: nat, r: nat)
    requires Trace(states, labels) && i < j < |states| && labels[i] == OfReq(r, Spawn)
    ensures CleansUp(states[j], r)
  {
    var last := j - 1;
    if i < last {
      DownloadCleansUp(states, labels, i, last, r);
      if labels[last].OfReq? && labels[last].r == r {
        OwnStepCleansUp(states[last], r, labels[last].ra);
      } else {
        OtherStepCleansUp(states[last], labels[last], r);
      }
    }
  }

  // Without a spawned task, the dispatch alone sees the request through.
  lemma DispatchStays(s: State, r: nat, a: ReqAct)
    requires ReqEnabled(s, r, a) && !a.Spawn? && !a.RunCleaner?
    requires r in s.reqs ==> !InTask(s.reqs[r]) || s.reqs[r].Gone?
    ensures r in ReqApply(s, r, a).reqs && (!InTask(ReqApply(s, r, a).reqs[r]) || ReqApply(s, r, a).reqs[r].Gone?)
  {
  }

  lemma {:induction false} UnspawnedStaysWithDispatch(states: seq<State>, labels: seq<Label>, j: nat, r: nat)
    requires Trace(states, labels) && j < |states| && r in states[j].reqs
    requires forall n {:trigger labels[n]} :: 0 <= n < j ==> labels[n] != OfReq(r, Spawn)
    ensures !InTask(states[j].reqs[r]) || states[j].reqs[r].Gone?
  {
    var last := j - 1;
    var s, l := states[last], labels[last];
    if r in s.reqs {
      UnspawnedStaysWithDispatch(states, labels, last, r);
    }
    if l.OfReq? && l.r == r {
      if !l.ra.RunCleaner? {
        DispatchStays(s, r, l.ra);
      }
    } else if r in s.reqs {
      OthersKeepPc(s, l, r);
    } else if l.OfReq? {
      ReqGrows(s, l.r, l.ra);
    }
  }

  // A task that sees its cancel ends there: it does not settle the device rate and unpause.
  predicate Unsettled(s: State, r: nat) {
    r in s.reqs && r in s.flipped && !s.reqs[r].Settling?
  }

  lemma OwnStepUnsettled(s: State, r: nat, a: ReqAct)
    requires Unsettled(s, r) && ReqEnabled(s, r, a)
    ensures r in ReqApply(s, r, a).reqs && !ReqApply(s, r, a).reqs[r].Settling?
    ensures a.SeeCancel? || a.FinalRead? || a.Recheck? ==> ReqApply(s, r, a).reqs[r].Gone?
  {
  }

  lemma StaysUnsettled(s: State, l: Label, r: nat)
    requires Unsettled(s, r) && Enabled(s, l)
    ensures Unsettled(Apply(s, l), r) && l != OfReq(r, Settle)
  {
    FlippedGrows(s, l);
    if l.OfReq? && l.r == r {
      OwnStepUnsettled(s, r, l.ra);
    } else {
      OthersKeepPc(s, l, r);
    }
  }

  lemma {:induction false} CancelledNeverSettles(states: seq<State>, labels: seq<Label>, i: nat, j: nat, r: nat)
    requires Trace(states, labels) && i <= j < |labels| && Unsettled(states[i], r)
    ensures Unsettled(states[j], r) && labels[j] != OfReq(r, Settle)
  {
    if i < j {
      CancelledNeverSettles(states, labels, i, j - 1, r);
      StaysUnsettled(states[j - 1], labels[j - 1], r);
    }
    StaysUnsettled(states[j], labels[j], r);
  }
}
