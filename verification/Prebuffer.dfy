// The pre-buffer protocol as interleaved steps: Buffered requests with their cancel token and
// loading flag, the commands that cancel them, preloads guarded by the load generation, and mpv
// behind its lock. One step is one atomic access or one move inside a critical section, so the
// window between reading a token and acting on it is visible to every other task.
module Prebuffer {
  import opened Wrappers

  // A Buffered request, numbered; its cancel token and loading flag carry the same number.
  // `inTask` tells the spawned download from the dispatch that failed to create its temp file.
  datatype ReqPc =
    | Installed                        // both slots swapped
    | Stopping                         // holds mpv: silencing the old track
    | Prepared                         // about to create the temp file
    | WantsFallback(inTask: bool)
    | FallbackIn(inTask: bool)         // holds mpv, token not read yet
    | FallbackGo(inTask: bool)         // holds mpv, token read as live
    | FallbackLoaded(inTask: bool)     // holds mpv, loaded, generation not stamped
    | TempDone                         // dispatch side: about to clear its flag
    | Downloading
    | FinalIn                          // holds mpv, token not read yet
    | FinalGo                          // holds mpv, token read as live
    | FinalLoaded                      // holds mpv, loaded, generation not stamped
    | Rechecking
    | Settling
    | Exiting                          // armed guards about to drop
    | Dropping                         // slot cleaner spawned, flag not cleared yet
    | Gone

  // A command that calls `cancel_prebuffer` and then takes mpv: pause, stop, end of queue, or a
  // Direct load. `tok` is the token it took out of the slot.
  datatype CanPc =
    | Took(tok: Option<nat>)           // token out of the slot, not flipped yet
    | Flipped(tok: Option<nat>)        // between the two slots
    | Cleared(tok: Option<nat>)        // cancel_prebuffer returned
    | CanIn(tok: Option<nat>)          // holds mpv
    | CanLoaded(tok: Option<nat>)      // holds mpv, Direct load sent, not stamped
    | CanDone(tok: Option<nat>)

  // A preload; `loadsThen` remembers how many loads mpv had confirmed at the capture.
  datatype PrePc =
    | Captured(gen: nat, loadsThen: nat)
    | PreIn(gen: nat, loadsThen: nat)  // holds mpv
    | GenOk(gen: nat, loadsThen: nat)
    | CountOk(gen: nat, loadsThen: nat)
    | PreDone

  datatype Actor = ReqActor(r: nat) | CanActor(k: nat) | PreActor(p: nat)

  datatype State = State(
    slot: Option<nat>,                 // prebuffer_cancel
    loading: Option<nat>,              // prebuffer_loading
    flipped: set<nat>,                 // tokens set to true
    flag: set<nat>,                    // loading flags that are true
    reqs: map<nat, ReqPc>,
    cleaners: set<nat>,                // slot-cleaner tasks not run yet
    cans: map<nat, CanPc>,
    pres: map<nat, PrePc>,
    holder: Option<Actor>,             // who holds mpv
    gen: nat,                          // loadfile_gen
    loads: nat,                        // load commands mpv has confirmed
    count: nat)                        // mpv's playlist length

  const INITIAL := State(None, None, {}, {}, map[], {}, map[], map[], None, 0, 0, 0)

  // What the sender of a load hears: `Lost` is an executed load whose reply misses the deadline,
  // which the sender takes for a failure.
  datatype Reply = Confirmed | Refused | Lost

  // ----- steps of a request

  datatype ReqAct =
    | Install | LockToStop | StopOld(stopped: bool) | TempFails | Spawn | DispatchDropped
    | SeeCancel | SeeShutdown | FetchFails
    | FallbackLock | FallbackRead(shutdown: bool) | FallbackLoad(reply: Reply) | FallbackStamp
    | ClearOwnFlag
    | FinalLock | FinalRead | FinalLoad(reply: Reply) | FinalStamp | Recheck | Settle
    | SpawnCleaner | DropGate | RunCleaner

  predicate ReqEnabled(s: State, r: nat, a: ReqAct) {
    if a.Install? then r !in s.reqs
    else if a.RunCleaner? then r in s.cleaners
    else
      && r in s.reqs
      && var pc := s.reqs[r];
         match a
         case LockToStop => pc == Installed && s.holder.None?
         case StopOld(_) => pc == Stopping
         case TempFails => pc == Prepared
         case Spawn => pc == Prepared
         case DispatchDropped => pc == Installed || pc == Prepared || pc == WantsFallback(false) || pc == TempDone
         case SeeCancel => pc == Downloading && r in s.flipped
         case SeeShutdown => pc == Downloading
         case FetchFails => pc == Downloading
         case FallbackLock => pc.WantsFallback? && s.holder.None?
         case FallbackRead(_) => pc.FallbackIn?
         case FallbackLoad(_) => pc.FallbackGo?
         case FallbackStamp => pc.FallbackLoaded?
         case ClearOwnFlag => pc == TempDone
         case FinalLock => pc == Downloading && s.holder.None?
         case FinalRead => pc == FinalIn
         case FinalLoad(_) => pc == FinalGo
         case FinalStamp => pc == FinalLoaded
         case Recheck => pc == Rechecking
         case Settle => pc == Settling
         case SpawnCleaner => pc == Exiting
         case DropGate => pc == Dropping
  }

  function At(s: State, r: nat, pc: ReqPc): State {
    s.(reqs := s.reqs[r := pc])
  }

  function AfterFallback(inTask: bool): ReqPc {
    if inTask then Exiting else TempDone
  }

  function ReqApply(s: State, r: nat, a: ReqAct): State
    requires ReqEnabled(s, r, a)
  {
    match a
    case Install =>
      At(s, r, Installed).(
        slot := Some(r), loading := Some(r), flag := s.flag + {r},
        flipped := if s.slot.Some? then s.flipped + {s.slot.value} else s.flipped)
    case LockToStop => At(s, r, Stopping).(holder := Some(ReqActor(r)))
    case StopOld(stopped) => At(s, r, Prepared).(holder := None, count := if stopped then 0 else s.count)
    case TempFails => At(s, r, WantsFallback(false))
    case Spawn => At(s, r, Downloading)
    case DispatchDropped => At(s, r, Gone).(flag := s.flag - {r})
    case SeeCancel => At(s, r, Gone)
    case SeeShutdown => At(s, r, Exiting)
    case FetchFails => At(s, r, WantsFallback(true))
    case FallbackLock => At(s, r, FallbackIn(s.reqs[r].inTask)).(holder := Some(ReqActor(r)))
    case FallbackRead(shutdown) =>
      if r in s.flipped || shutdown then At(s, r, AfterFallback(s.reqs[r].inTask)).(holder := None)
      else At(s, r, FallbackGo(s.reqs[r].inTask))
    case FallbackLoad(reply) =>
      if reply.Confirmed? then At(s, r, FallbackLoaded(s.reqs[r].inTask)).(loads := s.loads + 1, count := 1)
      else At(s, r, AfterFallback(s.reqs[r].inTask)).(holder := None, count := if reply.Lost? then 1 else s.count)
    case FallbackStamp => At(s, r, AfterFallback(s.reqs[r].inTask)).(holder := None, gen := s.gen + 1)
    case ClearOwnFlag => At(s, r, Gone).(flag := s.flag - {r})
    case FinalLock => At(s, r, FinalIn).(holder := Some(ReqActor(r)))
    case FinalRead =>
      if r in s.flipped then At(s, r, Gone).(holder := None) else At(s, r, FinalGo)
    case FinalLoad(reply) =>
      if reply.Confirmed? then At(s, r, FinalLoaded).(loads := s.loads + 1, count := 1)
      else At(s, r, Exiting).(holder := None, count := if reply.Lost? then 1 else s.count)
    case FinalStamp => At(s, r, Rechecking).(holder := None, gen := s.gen + 1)
    case Recheck => if r in s.flipped then At(s, r, Gone) else At(s, r, Settling)
    case Settle => At(s, r, Exiting)
    case SpawnCleaner => At(s, r, Dropping).(cleaners := s.cleaners + {r})
    case DropGate => At(s, r, Gone).(flag := s.flag - {r})
    case RunCleaner =>
      s.(cleaners := s.cleaners - {r}, slot := if s.slot == Some(r) then None else s.slot)
  }

  // ----- steps of a cancelling command

  datatype CanAct = Take | Flip | ClearLoading | CanLock | CanStop(ok: bool) | CanLoad(reply: Reply) | CanStamp

  predicate CanEnabled(s: State, k: nat, a: CanAct) {
    if a.Take? then k !in s.cans
    else
      && k in s.cans
      && match a
         case Flip => s.cans[k].Took?
         case ClearLoading => s.cans[k].Flipped?
         case CanLock => s.cans[k].Cleared? && s.holder.None?
         case CanStop(_) => s.cans[k].CanIn?
         case CanLoad(_) => s.cans[k].CanIn?
         case CanStamp => s.cans[k].CanLoaded?
  }

  function CanApply(s: State, k: nat, a: CanAct): State
    requires CanEnabled(s, k, a)
  {
    match a
    case Take => s.(cans := s.cans[k := Took(s.slot)], slot := None)
    case Flip =>
      var tok := s.cans[k].tok;
      s.(cans := s.cans[k := Flipped(tok)],
         flipped := if tok.Some? then s.flipped + {tok.value} else s.flipped)
    case ClearLoading => s.(cans := s.cans[k := Cleared(s.cans[k].tok)], loading := None)
    case CanLock => s.(cans := s.cans[k := CanIn(s.cans[k].tok)], holder := Some(CanActor(k)))
    case CanStop(ok) =>
      s.(cans := s.cans[k := CanDone(s.cans[k].tok)], holder := None, count := if ok then 0 else s.count)
    case CanLoad(reply) =>
      if reply.Confirmed? then s.(cans := s.cans[k := CanLoaded(s.cans[k].tok)], loads := s.loads + 1, count := 1)
      else s.(cans := s.cans[k := CanDone(s.cans[k].tok)], holder := None, count := if reply.Lost? then 1 else s.count)
    case CanStamp => s.(cans := s.cans[k := CanDone(s.cans[k].tok)], holder := None, gen := s.gen + 1)
  }

  // ----- steps of a preload

  datatype PreAct = Capture | PreLock | CheckGen | CheckCount | AppendNext

  predicate PreEnabled(s: State, p: nat, a: PreAct) {
    if a.Capture? then p !in s.pres
    else
      && p in s.pres
      && match a
         case PreLock => s.pres[p].Captured? && s.holder.None?
         case CheckGen => s.pres[p].PreIn?
         case CheckCount => s.pres[p].GenOk?
         case AppendNext => s.pres[p].CountOk?
  }

  function PreApply(s: State, p: nat, a: PreAct): State
    requires PreEnabled(s, p, a)
  {
    match a
    case Capture => s.(pres := s.pres[p := Captured(s.gen, s.loads)])
    case PreLock => s.(pres := s.pres[p := PreIn(s.pres[p].gen, s.pres[p].loadsThen)], holder := Some(PreActor(p)))
    case CheckGen =>
      if s.gen == s.pres[p].gen then s.(pres := s.pres[p := GenOk(s.pres[p].gen, s.pres[p].loadsThen)])
      else s.(pres := s.pres[p := PreDone], holder := None)
    case CheckCount =>
      if s.count == 1 then s.(pres := s.pres[p := CountOk(s.pres[p].gen, s.pres[p].loadsThen)])
      else s.(pres := s.pres[p := PreDone], holder := None)
    case AppendNext => s.(pres := s.pres[p := PreDone], holder := None, count := s.count + 1)
  }

  // ----- the rest: a play commit stamping under the state lock, a resync or gapless removal of
  // one entry under mpv, and mpv losing entries on its own

  datatype MiscAct = CommitStamp | RemoveEntry | MpvLoses(left: nat)

  predicate MiscEnabled(s: State, a: MiscAct) {
    match a
    case CommitStamp => true
    case RemoveEntry => s.holder.None? && s.count > 1
    case MpvLoses(left) => left <= s.count
  }

  function MiscApply(s: State, a: MiscAct): State
    requires MiscEnabled(s, a)
  {
    match a
    case CommitStamp => s.(gen := s.gen + 1)
    case RemoveEntry => s.(count := s.count - 1)
    case MpvLoses(left) => s.(count := left)
  }

  datatype Label = OfReq(r: nat, ra: ReqAct) | OfCan(k: nat, ca: CanAct) | OfPre(p: nat, pa: PreAct) | OfMisc(ma: MiscAct)

  predicate Enabled(s: State, l: Label) {
    match l
    case OfReq(r, a) => ReqEnabled(s, r, a)
    case OfCan(k, a) => CanEnabled(s, k, a)
    case OfPre(p, a) => PreEnabled(s, p, a)
    case OfMisc(a) => MiscEnabled(s, a)
  }

  function Apply(s: State, l: Label): State
    requires Enabled(s, l)
  {
    match l
    case OfReq(r, a) => ReqApply(s, r, a)
    case OfCan(k, a) => CanApply(s, k, a)
    case OfPre(p, a) => PreApply(s, p, a)
    case OfMisc(a) => MiscApply(s, a)
  }

  ghost predicate Trace(states: seq<State>, labels: seq<Label>) {
    && |states| == |labels| + 1 && states[0] == INITIAL
    && forall i {:trigger labels[i]} :: 0 <= i < |labels| ==>
         Enabled(states[i], labels[i]) && states[i + 1] == Apply(states[i], labels[i])
  }

  predicate Loads(l: Label, r: nat) {
    l.OfReq? && l.r == r && (l.ra.FinalLoad? || l.ra.FallbackLoad?)
  }

  // ----- mutual exclusion on mpv

  predicate ReqInMpv(pc: ReqPc) {
    pc.Stopping? || pc.FallbackIn? || pc.FallbackGo? || pc.FallbackLoaded? || pc.FinalIn? || pc.FinalGo? || pc.FinalLoaded?
  }

  predicate CanInMpv(pc: CanPc) {
    pc.CanIn? || pc.CanLoaded?
  }

  predicate PreInMpv(pc: PrePc) {
    pc.PreIn? || pc.GenOk? || pc.CountOk?
  }

  ghost predicate OneHolder(s: State) {
    && (forall r :: r in s.reqs ==> (ReqInMpv(s.reqs[r]) <==> s.holder == Some(ReqActor(r))))
    && (forall k :: k in s.cans ==> (CanInMpv(s.cans[k]) <==> s.holder == Some(CanActor(k))))
    && (forall p :: p in s.pres ==> (PreInMpv(s.pres[p]) <==> s.holder == Some(PreActor(p))))
    && (s.holder.Some? ==>
          match s.holder.value
          case ReqActor(r) => r in s.reqs
          case CanActor(k) => k in s.cans
          case PreActor(p) => p in s.pres)
  }

  // Only the stepping actor can have taken or released the lock.
  predicate LockMove(before: Option<Actor>, after: Option<Actor>, me: Actor) {
    after == before || ((before.None? || before == Some(me)) && (after.None? || after == Some(me)))
  }

  // What a request's step leaves alone, and how it moves the mpv lock.
  predicate ReqFrame(s: State, t: State, r: nat) {
    && t.cans == s.cans && t.pres == s.pres
    && (r in s.reqs ==> r in t.reqs)
    && (t.reqs == s.reqs || (r in t.reqs && t.reqs == s.reqs[r := t.reqs[r]]))
    && (r in t.reqs ==> (ReqInMpv(t.reqs[r]) <==> t.holder == Some(ReqActor(r))))
    && (r !in t.reqs ==> t.holder != Some(ReqActor(r)))
    && LockMove(s.holder, t.holder, ReqActor(r))
  }

  predicate IsFallback(a: ReqAct) {
    a.FallbackLock? || a.FallbackRead? || a.FallbackLoad? || a.FallbackStamp?
  }

  predicate IsFinal(a: ReqAct) {
    a.FinalLock? || a.FinalRead? || a.FinalLoad? || a.FinalStamp? || a.Recheck? || a.Settle?
  }

  predicate IsDispatch(a: ReqAct) {
    a.Install? || a.LockToStop? || a.StopOld? || a.TempFails? || a.Spawn? || a.DispatchDropped? || a.ClearOwnFlag?
  }

  predicate IsEnding(a: ReqAct) {
    a.SeeCancel? || a.SeeShutdown? || a.FetchFails? || a.SpawnCleaner? || a.DropGate? || a.RunCleaner?
  }

  predicate OwnLock(s: State, r: nat) {
    && (r in s.reqs ==> (ReqInMpv(s.reqs[r]) <==> s.holder == Some(ReqActor(r))))
    && (r !in s.reqs ==> s.holder != Some(ReqActor(r)))
  }

  lemma FallbackFrame(s: State, r: nat, a: ReqAct)
    requires ReqEnabled(s, r, a) && OwnLock(s, r) && IsFallback(a)
    ensures ReqFrame(s, ReqApply(s, r, a), r)
  {
  }

  lemma FinalFrame(s: State, r: nat, a: ReqAct)
    requires ReqEnabled(s, r, a) && OwnLock(s, r) && IsFinal(a)
    ensures ReqFrame(s, ReqApply(s, r, a), r)
  {
  }

  lemma DispatchFrame(s: State, r: nat, a: ReqAct)
    requires ReqEnabled(s, r, a) && OwnLock(s, r) && IsDispatch(a)
    ensures ReqFrame(s, ReqApply(s, r, a), r)
  {
  }

  lemma EndingFrame(s: State, r: nat, a: ReqAct)
    requires ReqEnabled(s, r, a) && OwnLock(s, r) && IsEnding(a)
    ensures ReqFrame(s, ReqApply(s, r, a), r)
  {
  }

  lemma ReqStepFrame(s: State, r: nat, a: ReqAct)
    requires ReqEnabled(s, r, a) && OwnLock(s, r)
    ensures ReqFrame(s, ReqApply(s, r, a), r)
  {
    if IsFallback(a) {
      FallbackFrame(s, r, a);
    } else if IsFinal(a) {
      FinalFrame(s, r, a);
    } else if IsDispatch(a) {
      DispatchFrame(s, r, a);
    } else {
      EndingFrame(s, r, a);
    }
  }

  lemma OneHolderReq(s: State, t: State, r: nat)
    requires OneHolder(s) && ReqFrame(s, t, r)
    ensures OneHolder(t)
  {
  }

  predicate CanFrame(s: State, t: State, k: nat) {
    && t.reqs == s.reqs && t.pres == s.pres
    && k in t.cans && t.cans == s.cans[k := t.cans[k]]
    && (CanInMpv(t.cans[k]) <==> t.holder == Some(CanActor(k)))
    && LockMove(s.holder, t.holder, CanActor(k))
  }

  lemma CanStepFrame(s: State, k: nat, a: CanAct)
    requires CanEnabled(s, k, a)
    requires k in s.cans ==> (CanInMpv(s.cans[k]) <==> s.holder == Some(CanActor(k)))
    requires k !in s.cans ==> s.holder != Some(CanActor(k))
    ensures CanFrame(s, CanApply(s, k, a), k)
  {
  }

  lemma OneHolderCan(s: State, t: State, k: nat)
    requires OneHolder(s) && CanFrame(s, t, k)
    ensures OneHolder(t)
  {
  }

  predicate PreFrame(s: State, t: State, p: nat) {
    && t.reqs == s.reqs && t.cans == s.cans && t.gen == s.gen && t.loads == s.loads
    && p in t.pres && t.pres == s.pres[p := t.pres[p]]
    && (PreInMpv(t.pres[p]) <==> t.holder == Some(PreActor(p)))
    && LockMove(s.holder, t.holder, PreActor(p))
    && (t.count == s.count || (s.holder == Some(PreActor(p)) && t.holder.None?))
  }

  lemma PreStepFrame(s: State, p: nat, a: PreAct)
    requires PreEnabled(s, p, a)
    requires p in s.pres ==> (PreInMpv(s.pres[p]) <==> s.holder == Some(PreActor(p)))
    requires p !in s.pres ==> s.holder != Some(PreActor(p))
    ensures PreFrame(s, PreApply(s, p, a), p)
  {
  }

  lemma OneHolderPre(s: State, t: State, p: nat)
    requires OneHolder(s) && PreFrame(s, t, p)
    ensures OneHolder(t)
  {
  }

  lemma OneHolderStep(s: State, l: Label)
    requires OneHolder(s) && Enabled(s, l)
    ensures OneHolder(Apply(s, l))
  {
    match l
    case OfReq(r, a) =>
      ReqStepFrame(s, r, a);
      OneHolderReq(s, ReqApply(s, r, a), r);
    case OfCan(k, a) =>
      CanStepFrame(s, k, a);
      OneHolderCan(s, CanApply(s, k, a), k);
    case OfPre(p, a) =>
      PreStepFrame(s, p, a);
      OneHolderPre(s, PreApply(s, p, a), p);
    case OfMisc(a) =>
  }

  // ----- tokens: a request that is still active and not cancelled is the one in the slot, or its
  // token is in the hands of a command that is about to flip it

  predicate Active(pc: ReqPc) {
    !pc.Dropping? && !pc.Gone?
  }

  ghost predicate TokenHeld(s: State, r: nat) {
    exists k :: k in s.cans && s.cans[k] == Took(Some(r))
  }

  ghost predicate Tokens(s: State) {
    && (forall r :: r in s.reqs && Active(s.reqs[r]) && r !in s.flipped ==> s.slot == Some(r) || TokenHeld(s, r))
    && (s.slot.Some? ==> s.slot.value in s.reqs)
    && (forall k :: k in s.cans && s.cans[k].tok.Some? ==> s.cans[k].tok.value in s.reqs)
    && (forall r :: r in s.cleaners ==> r in s.reqs && !Active(s.reqs[r]))
  }

  // What a request's step does to the token side.
  predicate ReqTokenFrame(s: State, t: State, r: nat) {
    && t.cans == s.cans
    && (t.reqs == s.reqs || (r in t.reqs && t.reqs == s.reqs[r := t.reqs[r]]))
    && (r in s.reqs && r in t.reqs && Active(t.reqs[r]) ==> Active(s.reqs[r]))
    && (if r !in s.reqs && r in t.reqs then
          && t.slot == Some(r)
          && t.flipped == (if s.slot.Some? then s.flipped + {s.slot.value} else s.flipped)
          && t.cleaners == s.cleaners
        else
          && t.flipped == s.flipped
          && (t.slot == s.slot || (t.slot.None? && s.slot == Some(r) && r in s.cleaners))
          && (t.cleaners <= s.cleaners || (t.cleaners == s.cleaners + {r} && r in t.reqs && !Active(t.reqs[r]))))
  }

  lemma FallbackTokenFrame(s: State, r: nat, a: ReqAct)
    requires ReqEnabled(s, r, a) && IsFallback(a)
    ensures ReqTokenFrame(s, ReqApply(s, r, a), r)
  {
  }

  lemma FinalTokenFrame(s: State, r: nat, a: ReqAct)
    requires ReqEnabled(s, r, a) && IsFinal(a)
    ensures ReqTokenFrame(s, ReqApply(s, r, a), r)
  {
  }

  lemma DispatchTokenFrame(s: State, r: nat, a: ReqAct)
    requires ReqEnabled(s, r, a) && IsDispatch(a)
    ensures ReqTokenFrame(s, ReqApply(s, r, a), r)
  {
  }

  lemma EndingTokenFrame(s: State, r: nat, a: ReqAct)
    requires ReqEnabled(s, r, a) && IsEnding(a)
    ensures ReqTokenFrame(s, ReqApply(s, r, a), r)
  {
  }

  lemma ReqStepTokenFrame(s: State, r: nat, a: ReqAct)
    requires ReqEnabled(s, r, a)
    ensures ReqTokenFrame(s, ReqApply(s, r, a), r)
  {
    if IsFallback(a) {
      FallbackTokenFrame(s, r, a);
    } else if IsFinal(a) {
      FinalTokenFrame(s, r, a);
    } else if IsDispatch(a) {
      DispatchTokenFrame(s, r, a);
    } else {
      EndingTokenFrame(s, r, a);
    }
  }

  lemma TokensReqStep(s: State, t: State, r: nat)
    requires Tokens(s) && ReqTokenFrame(s, t, r)
    ensures Tokens(t)
  {
    forall x | x in t.reqs && Active(t.reqs[x]) && x !in t.flipped
      ensures t.slot == Some(x) || TokenHeld(t, x)
    {
      if x in s.reqs && TokenHeld(s, x) {
        var k :| k in s.cans && s.cans[k] == Took(Some(x));
        assert t.cans[k] == Took(Some(x));
      }
    }
  }

  lemma TokensCanStep(s: State, k: nat, a: CanAct)
    requires Tokens(s) && CanEnabled(s, k, a)
    ensures Tokens(CanApply(s, k, a))
  {
    var t := CanApply(s, k, a);
    forall x | x in t.reqs && Active(t.reqs[x]) && x !in t.flipped
      ensures t.slot == Some(x) || TokenHeld(t, x)
    {
      if s.slot == Some(x) {
        if a.Take? {
          assert t.cans[k] == Took(Some(x));
        }
      } else {
        var k' :| k' in s.cans && s.cans[k'] == Took(Some(x));
        assert k' != k;
        assert t.cans[k'] == Took(Some(x));
      }
    }
  }

  lemma SameTokens(s: State, t: State)
    requires Tokens(s) && t.slot == s.slot && t.reqs == s.reqs && t.flipped == s.flipped
    requires t.cans == s.cans && t.cleaners == s.cleaners
    ensures Tokens(t)
  {
    forall x | x in t.reqs && Active(t.reqs[x]) && x !in t.flipped
      ensures t.slot == Some(x) || TokenHeld(t, x)
    {
      if TokenHeld(s, x) {
        var k :| k in s.cans && s.cans[k] == Took(Some(x));
        assert t.cans[k] == Took(Some(x));
      }
    }
  }

  lemma TokensStep(s: State, l: Label)
    requires Tokens(s) && Enabled(s, l)
    ensures Tokens(Apply(s, l))
  {
    match l
    case OfReq(r, a) =>
      ReqStepTokenFrame(s, r, a);
      TokensReqStep(s, ReqApply(s, r, a), r);
    case OfCan(k, a) => TokensCanStep(s, k, a);
    case OfPre(p, a) =>
      SameTokens(s, Apply(s, l));
    case OfMisc(a) =>
      SameTokens(s, Apply(s, l));
  }

  // ----- the loading gate: a raised flag in the slot belongs to a request that still runs

  // A command flipped `r` and has yet to clear the loading slot.
  ghost predicate ClearingFor(s: State, r: nat) {
    exists k :: k in s.cans && s.cans[k] == Flipped(Some(r))
  }

  ghost predicate Gate(s: State) {
    && (s.loading.Some? ==> s.loading.value in s.reqs)
    && (forall r :: r in s.reqs && s.reqs[r] == Gone && r in s.flag ==> r in s.flipped)
    && (s.loading.Some? && s.loading.value in s.flipped ==> ClearingFor(s, s.loading.value))
    && (forall k :: k in s.cans && s.cans[k].tok.Some? ==> s.cans[k].tok.value in s.reqs)
    && (s.slot.Some? ==> s.slot.value in s.reqs)
    && s.flipped <= s.reqs.Keys
  }

  // What a request's step does to the gate side.
  predicate ReqGateFrame(s: State, t: State, r: nat) {
    && t.cans == s.cans
    && (t.reqs == s.reqs || (r in t.reqs && t.reqs == s.reqs[r := t.reqs[r]]))
    && (r in s.reqs ==> r in t.reqs)
    && (if r !in s.reqs && r in t.reqs then
          && t.slot == Some(r) && t.loading == Some(r) && t.reqs[r] != Gone
          && t.flag == s.flag + {r}
          && t.flipped == (if s.slot.Some? then s.flipped + {s.slot.value} else s.flipped)
        else
          && t.flipped == s.flipped && t.loading == s.loading && t.flag <= s.flag
          && (t.slot == s.slot || t.slot.None?)
          && (t.reqs == s.reqs || (t.reqs[r] == Gone ==> r !in t.flag || r in t.flipped)))
  }

  lemma FallbackGateFrame(s: State, r: nat, a: ReqAct)
    requires ReqEnabled(s, r, a) && IsFallback(a)
    ensures ReqGateFrame(s, ReqApply(s, r, a), r)
  {
  }

  lemma FinalGateFrame(s: State, r: nat, a: ReqAct)
    requires ReqEnabled(s, r, a) && IsFinal(a)
    ensures ReqGateFrame(s, ReqApply(s, r, a), r)
  {
  }

  lemma DispatchGateFrame(s: State, r: nat, a: ReqAct)
    requires ReqEnabled(s, r, a) && IsDispatch(a)
    ensures ReqGateFrame(s, ReqApply(s, r, a), r)
  {
  }

  lemma EndingGateFrame(s: State, r: nat, a: ReqAct)
    requires ReqEnabled(s, r, a) && IsEnding(a)
    ensures ReqGateFrame(s, ReqApply(s, r, a), r)
  {
  }

  lemma ReqStepGateFrame(s: State, r: nat, a: ReqAct)
    requires ReqEnabled(s, r, a)
    ensures ReqGateFrame(s, ReqApply(s, r, a), r)
  {
    if IsFallback(a) {
      FallbackGateFrame(s, r, a);
    } else if IsFinal(a) {
      FinalGateFrame(s, r, a);
    } else if IsDispatch(a) {
      DispatchGateFrame(s, r, a);
    } else {
      EndingGateFrame(s, r, a);
    }
  }

  lemma GateReqStep(s: State, t: State, r: nat)
    requires Gate(s) && ReqGateFrame(s, t, r)
    ensures Gate(t)
  {
    if t.loading.Some? && t.loading.value in t.flipped {
      var x := t.loading.value;
      assert x in s.flipped;
      var k :| k in s.cans && s.cans[k] == Flipped(Some(x));
      assert t.cans[k] == Flipped(Some(x));
    }
  }

  lemma GateCanStep(s: State, k: nat, a: CanAct)
    requires Gate(s) && CanEnabled(s, k, a)
    ensures Gate(CanApply(s, k, a))
  {
    var t := CanApply(s, k, a);
    if t.loading.Some? && t.loading.value in t.flipped {
      var x := t.loading.value;
      if a.Flip? && s.cans[k].tok == Some(x) {
        assert t.cans[k] == Flipped(Some(x));
      } else {
        var k' :| k' in s.cans && s.cans[k'] == Flipped(Some(x));
        assert t.cans[k'] == Flipped(Some(x));
      }
    }
  }

  lemma SameGate(s: State, t: State)
    requires Gate(s) && t.loading == s.loading && t.reqs == s.reqs && t.flag == s.flag
    requires t.flipped == s.flipped && t.cans == s.cans && t.slot == s.slot
    ensures Gate(t)
  {
    if t.loading.Some? && t.loading.value in t.flipped {
      var k :| k in s.cans && s.cans[k] == Flipped(Some(s.loading.value));
      assert t.cans[k] == Flipped(Some(t.loading.value));
    }
  }

  lemma GateStep(s: State, l: Label)
    requires Gate(s) && Enabled(s, l)
    ensures Gate(Apply(s, l))
  {
    match l
    case OfReq(r, a) =>
      ReqStepGateFrame(s, r, a);
      GateReqStep(s, ReqApply(s, r, a), r);
    case OfCan(k, a) => GateCanStep(s, k, a);
    case OfPre(p, a) => SameGate(s, Apply(s, l));
    case OfMisc(a) => SameGate(s, Apply(s, l));
  }

  // A `cancel_prebuffer` stands between its two locks.
  ghost predicate SomeoneCancelling(s: State) {
    exists k :: k in s.cans && (s.cans[k].Took? || s.cans[k].Flipped?)
  }

  // ----- generations and the playlist length

  predicate Unstamped(s: State) {
    s.holder.Some? &&
    match s.holder.value
    case ReqActor(r) => r in s.reqs && (s.reqs[r].FinalLoaded? || s.reqs[r].FallbackLoaded?)
    case CanActor(k) => k in s.cans && s.cans[k].CanLoaded?
    case PreActor(_) => false
  }

  predicate Epoch(s: State, pc: PrePc) {
    pc.PreDone? ||
    (&& pc.gen <= s.gen
     && pc.loadsThen <= s.loads
     && (pc.gen == s.gen ==> s.loads == pc.loadsThen || (Unstamped(s) && s.loads == pc.loadsThen + 1))
     && ((pc.GenOk? || pc.CountOk?) ==> s.loads == pc.loadsThen)
     && (pc.CountOk? ==> s.count <= 1))
  }

  ghost predicate Preloads(s: State) {
    && OneHolder(s)
    && s.count <= 2
    && forall p :: p in s.pres ==> Epoch(s, s.pres[p])
  }

  // How any step moves generation, load count and playlist length.
  predicate LoadFrame(s: State, t: State, me: Actor) {
    || (t.gen == s.gen && t.loads == s.loads && (t.count <= s.count || t.count == 1) && Unstamped(t) == Unstamped(s))
    || (&& s.holder == Some(me) && !me.PreActor? && !Unstamped(s)
        && Unstamped(t) && t.gen == s.gen && t.loads == s.loads + 1 && t.count == 1)
    || (t.gen == s.gen + 1 && t.loads == s.loads && t.count == s.count)
  }

  lemma FallbackLoadFrame(s: State, r: nat, a: ReqAct)
    requires ReqEnabled(s, r, a) && OwnLock(s, r) && IsFallback(a)
    ensures LoadFrame(s, ReqApply(s, r, a), ReqActor(r))
  {
  }

  lemma FinalLoadFrame(s: State, r: nat, a: ReqAct)
    requires ReqEnabled(s, r, a) && OwnLock(s, r) && IsFinal(a)
    ensures LoadFrame(s, ReqApply(s, r, a), ReqActor(r))
  {
  }

  lemma DispatchLoadFrame(s: State, r: nat, a: ReqAct)
    requires ReqEnabled(s, r, a) && OwnLock(s, r) && IsDispatch(a)
    ensures LoadFrame(s, ReqApply(s, r, a), ReqActor(r))
  {
  }

  lemma EndingLoadFrame(s: State, r: nat, a: ReqAct)
    requires ReqEnabled(s, r, a) && OwnLock(s, r) && IsEnding(a)
    ensures LoadFrame(s, ReqApply(s, r, a), ReqActor(r))
  {
  }

  lemma ReqStepLoadFrame(s: State, r: nat, a: ReqAct)
    requires OneHolder(s) && ReqEnabled(s, r, a)
    ensures LoadFrame(s, ReqApply(s, r, a), ReqActor(r))
  {
    assert OwnLock(s, r);
    if IsFallback(a) {
      FallbackLoadFrame(s, r, a);
    } else if IsFinal(a) {
      FinalLoadFrame(s, r, a);
    } else if IsDispatch(a) {
      DispatchLoadFrame(s, r, a);
    } else {
      EndingLoadFrame(s, r, a);
    }
  }

  lemma CanStepLoadFrame(s: State, k: nat, a: CanAct)
    requires OneHolder(s) && CanEnabled(s, k, a)
    ensures LoadFrame(s, CanApply(s, k, a), CanActor(k))
  {
    assert k in s.cans ==> (CanInMpv(s.cans[k]) <==> s.holder == Some(CanActor(k)));
    assert k !in s.cans ==> s.holder != Some(CanActor(k));
  }

  // No preload that has passed a check can be overtaken by a load.
  lemma EpochsSurvive(s: State, t: State, me: Actor)
    requires Preloads(s) && OneHolder(t) && LoadFrame(s, t, me)
    requires t.pres == s.pres
    ensures Preloads(t)
  {
    forall p | p in t.pres ensures Epoch(t, t.pres[p]) {
      assert Epoch(s, s.pres[p]);
      assert PreInMpv(s.pres[p]) <==> s.holder == Some(PreActor(p));
    }
  }

  lemma PreloadsPreStep(s: State, q: nat, a: PreAct)
    requires Preloads(s) && PreEnabled(s, q, a)
    ensures Preloads(PreApply(s, q, a))
  {
    OneHolderStep(s, OfPre(q, a));
    var t := PreApply(s, q, a);
    assert q in s.pres ==> Epoch(s, s.pres[q]);
    assert q in s.pres ==> (PreInMpv(s.pres[q]) <==> s.holder == Some(PreActor(q)));
    forall p | p in t.pres ensures Epoch(t, t.pres[p]) {
      if p != q {
        assert Epoch(s, s.pres[p]);
        assert PreInMpv(s.pres[p]) <==> s.holder == Some(PreActor(p));
      }
    }
  }

  lemma PreloadsStep(s: State, l: Label)
    requires Preloads(s) && Enabled(s, l)
    ensures Preloads(Apply(s, l))
  {
    OneHolderStep(s, l);
    match l
    case OfReq(r, a) =>
      ReqStepLoadFrame(s, r, a);
      ReqStepFrame(s, r, a);
      EpochsSurvive(s, ReqApply(s, r, a), ReqActor(r));
    case OfCan(k, a) =>
      CanStepLoadFrame(s, k, a);
      CanStepFrame(s, k, a);
      EpochsSurvive(s, CanApply(s, k, a), CanActor(k));
    case OfPre(q, a) => PreloadsPreStep(s, q, a);
    case OfMisc(a) => EpochsSurvive(s, MiscApply(s, a), ReqActor(0));
  }

  // ----- every reachable state

  // A command past its flip has really flipped what it took.
  ghost predicate Flips(s: State) {
    forall k :: k in s.cans && s.cans[k].tok.Some? && !s.cans[k].Took? ==> s.cans[k].tok.value in s.flipped
  }

  ghost predicate Inv(s: State) {
    OneHolder(s) && Tokens(s) && Gate(s) && Preloads(s) && Flips(s)
  }

  lemma FallbackGrows(s: State, r: nat, a: ReqAct)
    requires ReqEnabled(s, r, a) && IsFallback(a)
    ensures s.flipped <= ReqApply(s, r, a).flipped
    ensures s.reqs.Keys <= ReqApply(s, r, a).reqs.Keys
    ensures ReqApply(s, r, a).cans == s.cans && ReqApply(s, r, a).pres == s.pres
    ensures forall x :: x in s.reqs && x != r ==> ReqApply(s, r, a).reqs[x] == s.reqs[x]
    ensures ReqApply(s, r, a).slot == s.slot || ReqApply(s, r, a).slot.None?
            || (r !in s.reqs && ReqApply(s, r, a).slot == Some(r))
  {
  }

  lemma FinalGrows(s: State, r: nat, a: ReqAct)
    requires ReqEnabled(s, r, a) && IsFinal(a)
    ensures s.flipped <= ReqApply(s, r, a).flipped
    ensures s.reqs.Keys <= ReqApply(s, r, a).reqs.Keys
    ensures ReqApply(s, r, a).cans == s.cans && ReqApply(s, r, a).pres == s.pres
    ensures forall x :: x in s.reqs && x != r ==> ReqApply(s, r, a).reqs[x] == s.reqs[x]
    ensures ReqApply(s, r, a).slot == s.slot || ReqApply(s, r, a).slot.None?
            || (r !in s.reqs && ReqApply(s, r, a).slot == Some(r))
  {
  }

  lemma DispatchGrows(s: State, r: nat, a: ReqAct)
    requires ReqEnabled(s, r, a) && IsDispatch(a)
    ensures s.flipped <= ReqApply(s, r, a).flipped
    ensures s.reqs.Keys <= ReqApply(s, r, a).reqs.Keys
    ensures ReqApply(s, r, a).cans == s.cans && ReqApply(s, r, a).pres == s.pres
    ensures forall x :: x in s.reqs && x != r ==> ReqApply(s, r, a).reqs[x] == s.reqs[x]
    ensures ReqApply(s, r, a).slot == s.slot || ReqApply(s, r, a).slot.None?
            || (r !in s.reqs && ReqApply(s, r, a).slot == Some(r))
  {
  }

  lemma EndingGrows(s: State, r: nat, a: ReqAct)
    requires ReqEnabled(s, r, a) && IsEnding(a)
    ensures s.flipped <= ReqApply(s, r, a).flipped
    ensures s.reqs.Keys <= ReqApply(s, r, a).reqs.Keys
    ensures ReqApply(s, r, a).cans == s.cans && ReqApply(s, r, a).pres == s.pres
    ensures forall x :: x in s.reqs && x != r ==> ReqApply(s, r, a).reqs[x] == s.reqs[x]
    ensures ReqApply(s, r, a).slot == s.slot || ReqApply(s, r, a).slot.None?
            || (r !in s.reqs && ReqApply(s, r, a).slot == Some(r))
  {
  }

  lemma ReqGrows(s: State, r: nat, a: ReqAct)
    requires ReqEnabled(s, r, a)
    ensures s.flipped <= ReqApply(s, r, a).flipped
    ensures s.reqs.Keys <= ReqApply(s, r, a).reqs.Keys
    ensures ReqApply(s, r, a).cans == s.cans && ReqApply(s, r, a).pres == s.pres
    ensures forall x :: x in s.reqs && x != r ==> ReqApply(s, r, a).reqs[x] == s.reqs[x]
    ensures ReqApply(s, r, a).slot == s.slot || ReqApply(s, r, a).slot.None?
            || (r !in s.reqs && ReqApply(s, r, a).slot == Some(r))
  {
    if IsFallback(a) {
      FallbackGrows(s, r, a);
    } else if IsFinal(a) {
      FinalGrows(s, r, a);
    } else if IsDispatch(a) {
      DispatchGrows(s, r, a);
    } else {
      EndingGrows(s, r, a);
    }
  }

  lemma FlippedGrows(s: State, l: Label)
    requires Enabled(s, l)
    ensures s.flipped <= Apply(s, l).flipped
    ensures s.reqs.Keys <= Apply(s, l).reqs.Keys
  {
    match l
    case OfReq(r, a) => ReqGrows(s, r, a);
    case OfCan(k, a) =>
    case OfPre(p, a) =>
    case OfMisc(a) =>
  }

  lemma CansOnlyMoveThemselves(s: State, l: Label)
    requires Enabled(s, l) && !l.OfCan?
    ensures Apply(s, l).cans == s.cans
  {
    if l.OfReq? {
      ReqGrows(s, l.r, l.ra);
    }
  }

  lemma FlipsStep(s: State, l: Label)
    requires Flips(s) && Enabled(s, l)
    ensures Flips(Apply(s, l))
  {
    FlippedGrows(s, l);
    var t := Apply(s, l);
    if !l.OfCan? {
      CansOnlyMoveThemselves(s, l);
    }
  }

  lemma {:induction false} ReachableInv(states: seq<State>, labels: seq<Label>, i: nat)
    requires Trace(states, labels) && i < |states|
    ensures Inv(states[i])
  {
    if i > 0 {
      ReachableInv(states, labels, i - 1);
      var s, l := states[i - 1], labels[i - 1];
      OneHolderStep(s, l);
      TokensStep(s, l);
      GateStep(s, l);
      PreloadsStep(s, l);
      FlipsStep(s, l);
    }
  }

  // Under every interleaving: the slot (or a command about to flip it) knows every request that
  // could still load.
  lemma LiveRequestIsCancellable(states: seq<State>, labels: seq<Label>, i: nat, r: nat)
    requires Trace(states, labels) && i < |states|
    requires r in states[i].reqs && Active(states[i].reqs[r]) && r !in states[i].flipped
    ensures states[i].slot == Some(r) || TokenHeld(states[i], r)
  {
    ReachableInv(states, labels, i);
  }

  // No stuck gate: with no cancel between its two locks, a raised flag in the slot belongs to a
  // request that still runs (and will clear it), although the cancel paths never clear theirs.
  lemma NoStuckGate(states: seq<State>, labels: seq<Label>, i: nat)
    requires Trace(states, labels) && i < |states|
    requires !SomeoneCancelling(states[i])
    requires states[i].loading.Some? && states[i].loading.value in states[i].flag
    ensures states[i].loading.value in states[i].reqs && states[i].reqs[states[i].loading.value] != Gone
    ensures states[i].loading.value !in states[i].flipped
  {
    ReachableInv(states, labels, i);
    var s, r := states[i], states[i].loading.value;
    assert r in s.flipped ==> ClearingFor(s, r);
  }

  // mpv never holds more than the current track and one successor.
  lemma PlaylistAtMostTwo(states: seq<State>, labels: seq<Label>, i: nat)
    requires Trace(states, labels) && i < |states|
    ensures states[i].count <= 2
  {
    ReachableInv(states, labels, i);
  }

  // ----- once cancelled, never loaded

  predicate AboutToLoad(s: State, r: nat) {
    r in s.reqs && (s.reqs[r].FinalGo? || s.reqs[r].FallbackGo?)
  }

  // No load lies ahead of a request here, whatever its token says.
  predicate Spent(pc: ReqPc) {
    pc.FallbackLoaded? || pc.TempDone? || pc.FinalLoaded? || pc.Rechecking? || pc.Settling? || pc.Exiting?
    || pc.Dropping? || pc.Gone?
  }

  // `r` can never load again.
  predicate Silenced(s: State, r: nat) {
    r in s.reqs && (Spent(s.reqs[r]) || (r in s.flipped && !AboutToLoad(s, r)))
  }

  lemma SilentLoadingStep(s: State, r: nat, a: ReqAct)
    requires Silenced(s, r) && ReqEnabled(s, r, a) && (IsFallback(a) || IsFinal(a))
    ensures Silenced(ReqApply(s, r, a), r) && !a.FinalLoad? && !a.FallbackLoad?
  {
  }

  lemma SilentOtherStep(s: State, r: nat, a: ReqAct)
    requires Silenced(s, r) && ReqEnabled(s, r, a) && !IsFallback(a) && !IsFinal(a)
    ensures Silenced(ReqApply(s, r, a), r)
  {
  }

  lemma OwnStepStaysSilent(s: State, r: nat, a: ReqAct)
    requires Silenced(s, r) && ReqEnabled(s, r, a)
    ensures Silenced(ReqApply(s, r, a), r) && !a.FinalLoad? && !a.FallbackLoad?
  {
    if IsFallback(a) || IsFinal(a) {
      SilentLoadingStep(s, r, a);
    } else {
      SilentOtherStep(s, r, a);
    }
  }

  lemma OthersKeepPc(s: State, l: Label, r: nat)
    requires Enabled(s, l) && r in s.reqs && !(l.OfReq? && l.r == r)
    ensures r in Apply(s, l).reqs && Apply(s, l).reqs[r] == s.reqs[r]
  {
    match l
    case OfReq(q, a) => ReqGrows(s, q, a);
    case OfCan(k, a) =>
    case OfPre(p, a) =>
    case OfMisc(a) =>
  }

  lemma SilencedStays(s: State, l: Label, r: nat)
    requires Silenced(s, r) && Enabled(s, l)
    ensures Silenced(Apply(s, l), r) && !Loads(l, r)
  {
    FlippedGrows(s, l);
    if l.OfReq? && l.r == r {
      OwnStepStaysSilent(s, r, l.ra);
    } else {
      OthersKeepPc(s, l, r);
    }
  }

  lemma {:induction false} SilencedForever(states: seq<State>, labels: seq<Label>, i: nat, j: nat, r: nat)
    requires Trace(states, labels) && i <= j <= |labels| && Silenced(states[i], r)
    ensures Silenced(states[j], r) && (j < |labels| ==> !Loads(labels[j], r))
  {
    if i < j {
      SilencedForever(states, labels, i, j - 1, r);
      SilencedStays(states[j - 1], labels[j - 1], r);
    }
    if j < |labels| {
      SilencedStays(states[j], labels[j], r);
    }
  }

  // A pause, stop or Direct load that flipped a token and then took mpv: that request never loads
  // a file again, neither its own nor a fallback.
  lemma FlippedThenLockedNeverLoads(states: seq<State>, labels: seq<Label>, i: nat, k: nat, r: nat, j: nat)
    requires Trace(states, labels) && i < |labels| && labels[i] == OfCan(k, CanLock)
    requires states[i].cans[k] == Cleared(Some(r))
    requires i <= j < |labels|
    ensures !Loads(labels[j], r)
  {
    ReachableInv(states, labels, i);
    assert states[i].reqs[r] == states[i].reqs[r] && ReqInMpv(states[i].reqs[r]) <==> states[i].holder == Some(ReqActor(r));
    SilencedForever(states, labels, i, j, r);
  }

  lemma SlotOnlyTakesFresh(s: State, l: Label, r: nat)
    requires Enabled(s, l) && r in s.reqs && s.slot != Some(r)
    ensures Apply(s, l).slot != Some(r)
  {
    if l.OfReq? {
      ReqGrows(s, l.r, l.ra);
    }
  }

  // A request known at `i` and no longer in the slot cannot come back into it.
  lemma {:induction false} NeverReinstalled(states: seq<State>, labels: seq<Label>, i: nat, j: nat, r: nat)
    requires Trace(states, labels) && i <= j < |states|
    requires r in states[i].reqs && states[i].slot != Some(r)
    ensures r in states[j].reqs && states[j].slot != Some(r)
  {
    if i < j {
      NeverReinstalled(states, labels, i, j - 1, r);
      FlippedGrows(states[j - 1], labels[j - 1]);
      SlotOnlyTakesFresh(states[j - 1], labels[j - 1], r);
    }
  }

  // Stronger: whatever Buffered request was installed before a command entered `cancel_prebuffer`
  // never loads once that command holds mpv, unless at that moment another command has taken the
  // request's token and not flipped it yet.
  lemma CancelCoversAllEarlier(states: seq<State>, labels: seq<Label>, i: nat, m: nat, k: nat, r: nat, j: nat)
    requires Trace(states, labels) && i < m < |labels| && m <= j < |labels|
    requires labels[i] == OfCan(k, Take) && labels[m] == OfCan(k, CanLock)
    requires r in states[i].reqs
    requires !TokenHeld(states[m], r)
    ensures !Loads(labels[j], r)
  {
    assert states[i + 1].slot.None? && r in states[i + 1].reqs;
    NeverReinstalled(states, labels, i + 1, m, r);
    ReachableInv(states, labels, m);
    assert ReqInMpv(states[m].reqs[r]) <==> states[m].holder == Some(ReqActor(r));
    SilencedForever(states, labels, m, j, r);
  }

  // ----- which requests a command that holds mpv has not silenced

  // The reply to a load command.
  function ReplyOf(l: Label): Option<Reply> {
    match l
    case OfReq(_, FinalLoad(reply)) => Some(reply)
    case OfReq(_, FallbackLoad(reply)) => Some(reply)
    case OfCan(_, CanLoad(reply)) => Some(reply)
    case _ => None
  }

  // A load command that mpv executed, whatever its sender heard.
  predicate LoadsSomething(l: Label) {
    ReplyOf(l) == Some(Confirmed) || ReplyOf(l) == Some(Lost)
  }

  // Some continuation of at most `n` steps makes mpv load for `r`.
  ghost predicate LoadsWithin(s: State, r: nat, n: nat)
    decreases n
  {
    n > 0 && exists l :: Enabled(s, l) && ((Loads(l, r) && LoadsSomething(l)) || LoadsWithin(Apply(s, l), r, n - 1))
  }

  ghost predicate LoadsEventually(s: State, r: nat) {
    exists n: nat :: LoadsWithin(s, r, n)
  }

  lemma {:induction false} SilencedNeverLoads(s: State, r: nat, n: nat)
    requires Silenced(s, r)
    ensures !LoadsWithin(s, r, n)
    decreases n
  {
    if n > 0 {
      forall l | Enabled(s, l) ensures !Loads(l, r) && !LoadsWithin(Apply(s, l), r, n - 1) {
        SilencedStays(s, l, r);
        SilencedNeverLoads(Apply(s, l), r, n - 1);
      }
    }
  }

  lemma OneMore(s: State, l: Label, r: nat, n: nat)
    requires Enabled(s, l) && LoadsWithin(Apply(s, l), r, n)
    ensures LoadsWithin(s, r, n + 1)
  {
  }

  lemma LastStep(s: State, l: Label, r: nat)
    requires Enabled(s, l) && Loads(l, r) && LoadsSomething(l)
    ensures LoadsWithin(s, r, 1)
  {
  }

  lemma DownloadingLoads(s: State, r: nat)
    requires r in s.reqs && s.reqs[r] == Downloading && r !in s.flipped && s.holder.None?
    ensures LoadsWithin(s, r, 3)
  {
    var s1 := ReqApply(s, r, FinalLock);
    var s2 := ReqApply(s1, r, FinalRead);
    LastStep(s2, OfReq(r, FinalLoad(Confirmed)), r);
    OneMore(s1, OfReq(r, FinalRead), r, 1);
    OneMore(s, OfReq(r, FinalLock), r, 2);
  }

  lemma FallbackLoads(s: State, r: nat)
    requires r in s.reqs && s.reqs[r].WantsFallback? && r !in s.flipped && s.holder.None?
    ensures LoadsWithin(s, r, 3)
  {
    var s1 := ReqApply(s, r, FallbackLock);
    var s2 := ReqApply(s1, r, FallbackRead(false));
    LastStep(s2, OfReq(r, FallbackLoad(Confirmed)), r);
    OneMore(s1, OfReq(r, FallbackRead(false)), r, 1);
    OneMore(s, OfReq(r, FallbackLock), r, 2);
  }

  lemma PreparedLoads(s: State, r: nat)
    requires r in s.reqs && s.reqs[r] == Prepared && r !in s.flipped && s.holder.None?
    ensures LoadsWithin(s, r, 4)
  {
    DownloadingLoads(ReqApply(s, r, Spawn), r);
    OneMore(s, OfReq(r, Spawn), r, 3);
  }

  lemma InstalledLoads(s: State, r: nat)
    requires r in s.reqs && s.reqs[r] == Installed && r !in s.flipped && s.holder.None?
    ensures LoadsWithin(s, r, 6)
  {
    var s1 := ReqApply(s, r, LockToStop);
    PreparedLoads(ReqApply(s1, r, StopOld(false)), r);
    OneMore(s1, OfReq(r, StopOld(false)), r, 4);
    OneMore(s, OfReq(r, LockToStop), r, 5);
  }

  lemma UnspentLoads(s: State, r: nat)
    requires r in s.reqs && !Spent(s.reqs[r]) && !ReqInMpv(s.reqs[r]) && r !in s.flipped && s.holder.None?
    ensures LoadsEventually(s, r)
  {
    match s.reqs[r]
    case Downloading => DownloadingLoads(s, r);
    case WantsFallback(_) => FallbackLoads(s, r);
    case Prepared => PreparedLoads(s, r);
    case Installed => InstalledLoads(s, r);
  }

  lemma LoadsAfterRelease(s: State, k: nat, r: nat)
    requires k in s.cans && s.cans[k].CanIn? && r in s.reqs
    requires !Spent(s.reqs[r]) && !ReqInMpv(s.reqs[r]) && r !in s.flipped
    ensures LoadsEventually(s, r)
  {
    UnspentLoads(CanApply(s, k, CanStop(true)), r);
    var n: nat :| LoadsWithin(CanApply(s, k, CanStop(true)), r, n);
    OneMore(s, OfCan(k, CanStop(true)), r, n);
  }

  // Once command `k` holds mpv, a request can still load exactly when its token has not been
  // flipped and a load lies ahead of it.
  lemma LoadsAfterLockIff(states: seq<State>, labels: seq<Label>, m: nat, k: nat, r: nat)
    requires Trace(states, labels) && m < |labels| && labels[m] == OfCan(k, CanLock) && r in states[m].reqs
    ensures LoadsEventually(states[m + 1], r) <==> r !in states[m].flipped && !Spent(states[m].reqs[r])
  {
    ReachableInv(states, labels, m);
    var s, t := states[m], states[m + 1];
    assert ReqInMpv(s.reqs[r]) <==> s.holder == Some(ReqActor(r));
    if r !in s.flipped && !Spent(s.reqs[r]) {
      LoadsAfterRelease(t, k, r);
    } else {
      assert Silenced(t, r);
      forall n: nat ensures !LoadsWithin(t, r, n) {
        SilencedNeverLoads(t, r, n);
      }
    }
  }

  // The exact version of `CancelCoversAllEarlier`: what can still load is what another command
  // holds unflipped with a load ahead of it.
  lemma CancelCoversExactly(states: seq<State>, labels: seq<Label>, i: nat, m: nat, k: nat, r: nat)
    requires Trace(states, labels) && i < m < |labels|
    requires labels[i] == OfCan(k, Take) && labels[m] == OfCan(k, CanLock)
    requires r in states[i].reqs
    ensures r in states[m].reqs
    ensures LoadsEventually(states[m + 1], r) <==>
            TokenHeld(states[m], r) && r !in states[m].flipped && !Spent(states[m].reqs[r])
  {
    assert states[i + 1].slot.None? && r in states[i + 1].reqs;
    NeverReinstalled(states, labels, i + 1, m, r);
    LoadsAfterLockIff(states, labels, m, k, r);
    if r !in states[m].flipped && !Spent(states[m].reqs[r]) {
      LiveRequestIsCancellable(states, labels, m, r);
    }
  }

  predicate Leads(s: State, l: Label, t: State) {
    Enabled(s, l) && t == Apply(s, l)
  }

  lemma Extend(states: seq<State>, labels: seq<Label>, l: Label, t: State)
    requires Trace(states, labels) && Leads(states[|labels|], l, t)
    ensures Trace(states + [t], labels + [l])
  {
  }

  // Every continuation counted by `LoadsWithin` is the end of a trace.
  lemma {:induction false} LoadingTrace(states: seq<State>, labels: seq<Label>, r: nat, n: nat)
    returns (states': seq<State>, labels': seq<Label>)
    requires Trace(states, labels) && LoadsWithin(states[|labels|], r, n)
    ensures Trace(states', labels') && states <= states' && labels < labels'
    ensures Loads(labels'[|labels'| - 1], r) && LoadsSomething(labels'[|labels'| - 1])
    decreases n
  {
    var s := states[|labels|];
    var l :| Enabled(s, l) && ((Loads(l, r) && LoadsSomething(l)) || LoadsWithin(Apply(s, l), r, n - 1));
    Extend(states, labels, l, Apply(s, l));
    states', labels' := states + [Apply(s, l)], labels + [l];
    if !(Loads(l, r) && LoadsSomething(l)) {
      states', labels' := LoadingTrace(states', labels', r, n - 1);
    }
  }

  lemma TakenStep(s: State, l: Label, h: nat)
    requires Enabled(s, l) && h in s.cans
    ensures h in Apply(s, l).cans && Apply(s, l).cans[h].tok == s.cans[h].tok
  {
    match l
    case OfReq(q, a) => ReqGrows(s, q, a);
    case OfCan(k, a) =>
    case OfPre(p, a) =>
    case OfMisc(a) =>
  }

  lemma {:induction false} KeepsItsToken(states: seq<State>, labels: seq<Label>, i: nat, j: nat, h: nat)
    requires Trace(states, labels) && i <= j < |states| && h in states[i].cans
    ensures h in states[j].cans && states[j].cans[h].tok == states[i].cans[h].tok
  {
    if i < j {
      KeepsItsToken(states, labels, i, j - 1, h);
      TakenStep(states[j - 1], labels[j - 1], h);
    }
  }

  // So overtaking is transient: once the command that holds the token has mpv, the request is silent.
  lemma HolderEndsIt(states: seq<State>, labels: seq<Label>, m: nat, h: nat, r: nat, i: nat, j: nat)
    requires Trace(states, labels) && m <= i <= j < |labels|
    requires h in states[m].cans && states[m].cans[h] == Took(Some(r))
    requires labels[i] == OfCan(h, CanLock)
    ensures !Loads(labels[j], r)
  {
    KeepsItsToken(states, labels, m, i, h);
    FlippedThenLockedNeverLoads(states, labels, i, h, r, j);
  }

  lemma {:induction false} FlippedForever(states: seq<State>, labels: seq<Label>, i: nat, j: nat, r: nat)
    requires Trace(states, labels) && i <= j < |states| && r in states[i].flipped && r in states[i].reqs
    ensures r in states[j].flipped && r in states[j].reqs
  {
    if i < j {
      FlippedForever(states, labels, i, j - 1, r);
      FlippedGrows(states[j - 1], labels[j - 1]);
    }
  }

  // A newer Buffered request silences the one it displaces once it has taken mpv to stop it.
  lemma DisplacedNeverLoads(states: seq<State>, labels: seq<Label>, i: nat, m: nat, q: nat, r: nat, j: nat)
    requires Trace(states, labels) && i < m < |labels| && m <= j < |labels|
    requires labels[i] == OfReq(q, Install) && states[i].slot == Some(r)
    requires labels[m] == OfReq(q, LockToStop)
    ensures !Loads(labels[j], r)
  {
    ReachableInv(states, labels, i);
    FlippedForever(states, labels, i + 1, m, r);
    ReachableInv(states, labels, m);
    assert ReqInMpv(states[m].reqs[r]) <==> states[m].holder == Some(ReqActor(r));
    SilencedForever(states, labels, m, j, r);
  }

  const REQUESTED := INITIAL.(slot := Some(0), loading := Some(0), flag := {0}, reqs := map[0 := Downloading])
  const BOTH_TOOK := REQUESTED.(slot := None, cans := map[1 := Took(Some(0)), 2 := Took(None)])
  const STOPPED := BOTH_TOOK.(cans := map[1 := Took(Some(0)), 2 := CanDone(None)], loading := None)

  lemma RequestStarts() returns (states: seq<State>, labels: seq<Label>)
    ensures Trace(states, labels) && |labels| == 4 && states[4] == REQUESTED
  {
    var s1 := REQUESTED.(reqs := map[0 := Installed]);
    var s2 := REQUESTED.(reqs := map[0 := Stopping], holder := Some(ReqActor(0)));
    var s3 := REQUESTED.(reqs := map[0 := Prepared]);
    states, labels := [INITIAL], [];
    Extend(states, labels, OfReq(0, Install), s1);
    states, labels := states + [s1], labels + [OfReq(0, Install)];
    Extend(states, labels, OfReq(0, LockToStop), s2);
    states, labels := states + [s2], labels + [OfReq(0, LockToStop)];
    Extend(states, labels, OfReq(0, StopOld(true)), s3);
    states, labels := states + [s3], labels + [OfReq(0, StopOld(true))];
    Extend(states, labels, OfReq(0, Spawn), REQUESTED);
    states, labels := states + [REQUESTED], labels + [OfReq(0, Spawn)];
  }

  lemma StopFindsEmptySlot() returns (states: seq<State>, labels: seq<Label>)
    ensures Trace(states, labels) && |labels| == 10
    ensures states[5].slot.None? && 0 in states[5].reqs && labels[5] == OfCan(2, Take)
    ensures labels[8] == OfCan(2, CanLock) && TokenHeld(states[8], 0)
    ensures labels[9] == OfCan(2, CanStop(true)) && states[10] == STOPPED
  {
    states, labels := RequestStarts();
    var s5 := REQUESTED.(slot := None, cans := map[1 := Took(Some(0))]);
    var s7 := BOTH_TOOK.(cans := map[1 := Took(Some(0)), 2 := Flipped(None)]);
    var s8 := STOPPED.(cans := map[1 := Took(Some(0)), 2 := Cleared(None)]);
    var s9 := STOPPED.(cans := map[1 := Took(Some(0)), 2 := CanIn(None)], holder := Some(CanActor(2)));
    Extend(states, labels, OfCan(1, Take), s5);
    states, labels := states + [s5], labels + [OfCan(1, Take)];
    Extend(states, labels, OfCan(2, Take), BOTH_TOOK);
    states, labels := states + [BOTH_TOOK], labels + [OfCan(2, Take)];
    Extend(states, labels, OfCan(2, Flip), s7);
    states, labels := states + [s7], labels + [OfCan(2, Flip)];
    Extend(states, labels, OfCan(2, ClearLoading), s8);
    states, labels := states + [s8], labels + [OfCan(2, ClearLoading)];
    assert s8.cans[1] == Took(Some(0));
    Extend(states, labels, OfCan(2, CanLock), s9);
    states, labels := states + [s9], labels + [OfCan(2, CanLock)];
    Extend(states, labels, OfCan(2, CanStop(true)), STOPPED);
    states, labels := states + [STOPPED], labels + [OfCan(2, CanStop(true))];
  }

  lemma HeldRequestLoads(states0: seq<State>, labels0: seq<Label>) returns (states: seq<State>, labels: seq<Label>)
    requires Trace(states0, labels0) && |labels0| == 10 && states0[10] == STOPPED
    ensures Trace(states, labels) && |labels| == 13 && states[..11] == states0 && labels[..10] == labels0
    ensures labels[12] == OfReq(0, FinalLoad(Confirmed)) && states[13].count == 1
  {
    states, labels := states0, labels0;
    var s11 := STOPPED.(reqs := map[0 := FinalIn], holder := Some(ReqActor(0)));
    var s12 := s11.(reqs := map[0 := FinalGo]);
    var s13 := s11.(reqs := map[0 := FinalLoaded], loads := 1, count := 1);
    Extend(states, labels, OfReq(0, FinalLock), s11);
    states, labels := states + [s11], labels + [OfReq(0, FinalLock)];
    Extend(states, labels, OfReq(0, FinalRead), s12);
    states, labels := states + [s12], labels + [OfReq(0, FinalRead)];
    Extend(states, labels, OfReq(0, FinalLoad(Confirmed)), s13);
    states, labels := states + [s13], labels + [OfReq(0, FinalLoad(Confirmed))];
  }

  // The exception is real: command 1 has taken token 0 but not flipped it when command 2 finds the
  // slot empty and stops mpv; request 0 then loads over the stop.
  lemma StopOvertakenByHeldToken() returns (states: seq<State>, labels: seq<Label>)
    ensures Trace(states, labels) && |labels| == 13
    ensures 0 in states[5].reqs && labels[5] == OfCan(2, Take)
    ensures labels[8] == OfCan(2, CanLock) && labels[9] == OfCan(2, CanStop(true)) && TokenHeld(states[8], 0)
    ensures labels[12] == OfReq(0, FinalLoad(Confirmed)) && states[13].count == 1
  {
    states, labels := StopFindsEmptySlot();
    states, labels := HeldRequestLoads(states, labels);
  }

  // ----- the load epoch of a preload

  lemma ReqLoadCount(s: State, r: nat, a: ReqAct)
    requires ReqEnabled(s, r, a)
    ensures ReqApply(s, r, a).loads == s.loads + if ReplyOf(OfReq(r, a)) == Some(Confirmed) then 1 else 0
  {
  }

  lemma LoadCountStep(s: State, l: Label)
    requires Enabled(s, l)
    ensures Apply(s, l).loads == s.loads + if ReplyOf(l) == Some(Confirmed) then 1 else 0
  {
    if l.OfReq? {
      ReqLoadCount(s, l.r, l.ra);
    }
  }

  lemma {:induction false} LoadsMonotone(states: seq<State>, labels: seq<Label>, i: nat, j: nat)
    requires Trace(states, labels) && i <= j < |states|
    ensures states[i].loads <= states[j].loads
  {
    if i < j {
      LoadsMonotone(states, labels, i, j - 1);
      LoadCountStep(states[j - 1], labels[j - 1]);
    }
  }

  lemma PresOnlyMoveThemselves(s: State, l: Label, p: nat)
    requires Enabled(s, l) && p in s.pres
    ensures p in Apply(s, l).pres
    ensures Apply(s, l).pres[p].PreDone? || (!s.pres[p].PreDone? && Apply(s, l).pres[p].loadsThen == s.pres[p].loadsThen)
  {
    if l.OfReq? {
      ReqGrows(s, l.r, l.ra);
    }
  }

  lemma {:induction false} CaptureRemembered(states: seq<State>, labels: seq<Label>, i: nat, j: nat, p: nat)
    requires Trace(states, labels) && i < j < |states| && labels[i] == OfPre(p, Capture)
    ensures p in states[j].pres && (states[j].pres[p].PreDone? || states[j].pres[p].loadsThen == states[i].loads)
  {
    if i + 1 < j {
      CaptureRemembered(states, labels, i, j - 1, p);
      PresOnlyMoveThemselves(states[j - 1], labels[j - 1], p);
    }
  }

  // A preload appends only to a lone current entry, and only if mpv confirmed no load between the
  // capture of the generation and the append.
  lemma AppendOnlyInSameEpoch(states: seq<State>, labels: seq<Label>, i: nat, j: nat, p: nat, m: nat)
    requires Trace(states, labels) && i < j < |labels|
    requires labels[i] == OfPre(p, Capture) && labels[j] == OfPre(p, AppendNext)
    requires i <= m < j
    ensures states[j].count <= 1
    ensures ReplyOf(labels[m]) != Some(Confirmed)
  {
    ReachableInv(states, labels, j);
    CaptureRemembered(states, labels, i, j, p);
    assert Epoch(states[j], states[j].pres[p]);
    LoadsMonotone(states, labels, i, m);
    LoadCountStep(states[m], labels[m]);
    LoadsMonotone(states, labels, m + 1, j);
  }

  // So no load at all came in between exactly if no reply to one was lost.
  lemma NoLoadBetweenIff(states: seq<State>, labels: seq<Label>, i: nat, j: nat, p: nat)
    requires Trace(states, labels) && i < j < |labels|
    requires labels[i] == OfPre(p, Capture) && labels[j] == OfPre(p, AppendNext)
    ensures (forall m :: i <= m < j ==> !LoadsSomething(labels[m])) <==>
            (forall m :: i <= m < j ==> ReplyOf(labels[m]) != Some(Lost))
  {
    forall m | i <= m < j ensures ReplyOf(labels[m]) != Some(Confirmed) {
      AppendOnlyInSameEpoch(states, labels, i, j, p, m);
    }
  }

  const CAPTURED := INITIAL.(pres := map[0 := Captured(0, 0)])
  const REPLACED := CAPTURED.(cans := map[0 := CanDone(None)], count := 1)

  lemma LoadWithoutReply() returns (states: seq<State>, labels: seq<Label>)
    ensures Trace(states, labels) && |labels| == 6 && states[6] == REPLACED
    ensures labels[0] == OfPre(0, Capture) && labels[5] == OfCan(0, CanLoad(Lost))
  {
    var s2 := CAPTURED.(cans := map[0 := Took(None)]);
    var s3 := CAPTURED.(cans := map[0 := Flipped(None)]);
    var s4 := CAPTURED.(cans := map[0 := Cleared(None)]);
    var s5 := CAPTURED.(cans := map[0 := CanIn(None)], holder := Some(CanActor(0)));
    states, labels := [INITIAL], [];
    Extend(states, labels, OfPre(0, Capture), CAPTURED);
    states, labels := states + [CAPTURED], labels + [OfPre(0, Capture)];
    Extend(states, labels, OfCan(0, Take), s2);
    states, labels := states + [s2], labels + [OfCan(0, Take)];
    Extend(states, labels, OfCan(0, Flip), s3);
    states, labels := states + [s3], labels + [OfCan(0, Flip)];
    Extend(states, labels, OfCan(0, ClearLoading), s4);
    states, labels := states + [s4], labels + [OfCan(0, ClearLoading)];
    Extend(states, labels, OfCan(0, CanLock), s5);
    states, labels := states + [s5], labels + [OfCan(0, CanLock)];
    Extend(states, labels, OfCan(0, CanLoad(Lost)), REPLACED);
    states, labels := states + [REPLACED], labels + [OfCan(0, CanLoad(Lost))];
  }

  // And that happens: the append follows a load that was executed but never confirmed.
  lemma AppendAfterLostReply() returns (states: seq<State>, labels: seq<Label>)
    ensures Trace(states, labels) && |labels| == 10
    ensures labels[0] == OfPre(0, Capture) && labels[5] == OfCan(0, CanLoad(Lost)) && labels[9] == OfPre(0, AppendNext)
    ensures states[10].count == 2
  {
    states, labels := LoadWithoutReply();
    var s7 := REPLACED.(pres := map[0 := PreIn(0, 0)], holder := Some(PreActor(0)));
    var s8 := s7.(pres := map[0 := GenOk(0, 0)]);
    var s9 := s7.(pres := map[0 := CountOk(0, 0)]);
    var s10 := REPLACED.(pres := map[0 := PreDone], count := 2);
    Extend(states, labels, OfPre(0, PreLock), s7);
    states, labels := states + [s7], labels + [OfPre(0, PreLock)];
    Extend(states, labels, OfPre(0, CheckGen), s8);
    states, labels := states + [s8], labels + [OfPre(0, CheckGen)];
    Extend(states, labels, OfPre(0, CheckCount), s9);
    states, labels := states + [s9], labels + [OfPre(0, CheckCount)];
    Extend(states, labels, OfPre(0, AppendNext), s10);
    states, labels := states + [s10], labels + [OfPre(0, AppendNext)];
  }
}
