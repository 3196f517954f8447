// Concurrent downloaders, lookups, evictions and crashes around the track cache. A step is one
// move under the cache lock or one file-system action; a crash may fall between any two.
module TrackCacheRuns {
  import opened Wrappers
  import opened TrackCache

  // One `populate_cache` task.
  datatype Dl =
    | Reserved(id: string)               // slot reserved, no file yet
    | Writing(id: string)                // `.part` open, content partial
    | Downloaded(id: string, size: nat)  // `.part` complete and synced
    | Renamed(id: string, size: nat)     // in its final place, not indexed
    | Failed(id: string)                 // about to delete the `.part`
    | Cleaned(id: string)                // about to release the slot
    | Committed(id: string, max: nat)    // holds the cache lock: indexed, not persisted
    | Evicting(id: string, max: nat, removed: bool) // holds the cache lock: inside evict_to
    | Finished

  // `whole` tells for each file on disk whether its content is complete.
  datatype State = State(
    cache: Cache,
    whole: map<string, bool>,
    parts: map<string, bool>,
    dls: map<nat, Dl>,
    lock: Option<nat>)

  datatype Step =
    | Begin(k: nat, id: string)
    | CreatePart(k: nat)
    | FinishPart(k: nat, size: nat)
    | Fail(k: nat)
    | RenameIntoPlace(k: nat)
    | RemovePart(k: nat)
    | ReleaseSlot(k: nat)
    | CommitEntry(k: nat, now: nat, max: nat) // `max` is the cap the task read before it locked
    | PersistCommit(k: nat)
    | EvictOldest(k: nat, victim: string)
    | EndEviction(k: nat)
    | Lookup(id: string, now: nat)
    | Vanish(file: string)               // somebody deletes a cached file
    | CrashAndOpen

  // The id whose slot the downloader holds.
  function ActiveId(d: Dl): Option<string> {
    match d
    case Reserved(id) => Some(id)
    case Writing(id) => Some(id)
    case Downloaded(id, _) => Some(id)
    case Renamed(id, _) => Some(id)
    case Failed(id) => Some(id)
    case Cleaned(id) => Some(id)
    case _ => None
  }

  ghost predicate Enabled(s: State, name: string -> string, t: Step) {
    match t
    case Begin(k, _) => k !in s.dls && s.lock.None?
    case CreatePart(k) => k in s.dls && s.dls[k].Reserved?
    case FinishPart(k, _) => k in s.dls && s.dls[k].Writing?
    case Fail(k) => k in s.dls && (s.dls[k].Reserved? || s.dls[k].Writing? || s.dls[k].Downloaded?)
    case RenameIntoPlace(k) => k in s.dls && s.dls[k].Downloaded? && name(s.dls[k].id) in s.parts
    case RemovePart(k) => k in s.dls && s.dls[k].Failed?
    case ReleaseSlot(k) => k in s.dls && s.dls[k].Cleaned? && s.lock.None?
    // no overflow of the running total
    case CommitEntry(k, _, _) =>
      k in s.dls && s.dls[k].Renamed? && s.lock.None? && s.cache.total + s.dls[k].size <= MAX_U64
    case PersistCommit(k) => k in s.dls && s.dls[k].Committed?
    case EvictOldest(k, victim) =>
      && k in s.dls && s.dls[k].Evicting? && s.cache.total > s.dls[k].max && victim in s.cache.entries
      && forall other :: other in s.cache.entries ==> s.cache.entries[victim].lastUsed <= s.cache.entries[other].lastUsed
    case EndEviction(k) =>
      k in s.dls && s.dls[k].Evicting? && (s.cache.total <= s.dls[k].max || s.cache.entries == map[])
    case Lookup(_, _) => s.lock.None?
    case Vanish(_) => true
    case CrashAndOpen => true
  }

  ghost function Apply(s: State, name: string -> string, t: Step): State
    requires Enabled(s, name, t)
  {
    match t
    case Begin(k, id) =>
      if CanBegin(s.cache, id) then s.(cache := Begun(s.cache, id), dls := s.dls[k := Reserved(id)])
      else s.(dls := s.dls[k := Finished])
    case CreatePart(k) => s.(parts := s.parts[name(s.dls[k].id) := false], dls := s.dls[k := Writing(s.dls[k].id)])
    case FinishPart(k, size) =>
      s.(parts := s.parts[name(s.dls[k].id) := true], dls := s.dls[k := Downloaded(s.dls[k].id, size)])
    case Fail(k) => s.(dls := s.dls[k := Failed(s.dls[k].id)])
    case RenameIntoPlace(k) =>
      var file := name(s.dls[k].id);
      s.(whole := s.whole[file := s.parts[file]], parts := s.parts - {file},
         cache := s.cache.(files := s.cache.files + {file}),
         dls := s.dls[k := Renamed(s.dls[k].id, s.dls[k].size)])
    case RemovePart(k) => s.(parts := s.parts - {name(s.dls[k].id)}, dls := s.dls[k := Cleaned(s.dls[k].id)])
    case ReleaseSlot(k) => s.(cache := Abandoned(s.cache, s.dls[k].id), dls := s.dls[k := Finished])
    case CommitEntry(k, now, max) =>
      var id := s.dls[k].id;
      s.(cache := TrackCache.Committed(s.cache, id, name(id), s.dls[k].size, now),
         dls := s.dls[k := Committed(id, max)], lock := Some(k))
    case PersistCommit(k) =>
      s.(cache := Persisted(s.cache), dls := s.dls[k := Evicting(s.dls[k].id, s.dls[k].max, false)])
    case EvictOldest(k, victim) =>
      var file := s.cache.entries[victim].file;
      s.(cache := EvictedOne(s.cache, victim), whole := s.whole - {file},
         dls := s.dls[k := s.dls[k].(removed := true)])
    case EndEviction(k) =>
      s.(cache := if s.dls[k].removed then Persisted(s.cache) else s.cache, dls := s.dls[k := Finished], lock := None)
    case Lookup(id, now) => s.(cache := Touched(s.cache, id, now))
    case Vanish(file) => s.(cache := s.cache.(files := s.cache.files - {file}), whole := s.whole - {file})
    case CrashAndOpen => s.(cache := Open(s.cache.files, s.cache.saved), dls := map[], lock := None)
  }

  // ----- invariants

  ghost predicate Injective(name: string -> string) {
    forall a, b :: name(a) == name(b) ==> a == b
  }

  // A slot is reserved exactly while one task works on it, and never for an indexed id.
  ghost predicate Slots(s: State) {
    && s.cache.inFlight !! s.cache.entries.Keys
    && (forall k :: k in s.dls && ActiveId(s.dls[k]).Some? ==> ActiveId(s.dls[k]).value in s.cache.inFlight)
    && (forall id :: id in s.cache.inFlight ==> exists k :: k in s.dls && ActiveId(s.dls[k]) == Some(id))
    && (forall j, k :: j in s.dls && k in s.dls && j != k && ActiveId(s.dls[j]).Some? ==>
          ActiveId(s.dls[j]) != ActiveId(s.dls[k]))
  }

  // Files in their final place are complete, and a finished `.part` is still the finished one.
  ghost predicate Wholesome(s: State, name: string -> string) {
    && s.cache.files == s.whole.Keys
    && (forall f :: f in s.whole ==> s.whole[f])
    && (forall k :: k in s.dls && s.dls[k].Downloaded? && name(s.dls[k].id) in s.parts ==> s.parts[name(s.dls[k].id)])
  }

  ghost predicate Named(s: State, name: string -> string) {
    && (forall id :: id in s.cache.entries ==> s.cache.entries[id].file == name(id))
    && (forall id :: id in s.cache.saved ==> s.cache.saved[id].file == name(id))
  }

  ghost predicate Inv(s: State, name: string -> string) {
    Slots(s) && Wholesome(s, name) && Named(s, name) && Exact(s.cache)
  }

  // Every indexed entry, and every one about to be indexed, has its complete file on disk.
  ghost predicate AllPresent(s: State, name: string -> string) {
    && (forall id :: id in s.cache.entries ==> s.cache.entries[id].file in s.whole && s.whole[s.cache.entries[id].file])
    && (forall k :: k in s.dls && s.dls[k].Renamed? ==> name(s.dls[k].id) in s.whole)
  }

  function SlotOf(dls: map<nat, Dl>, k: nat): set<string> {
    if k in dls && ActiveId(dls[k]).Some? then {ActiveId(dls[k]).value} else {}
  }

  // How a step of task `k` moves slots and index keys.
  ghost predicate SlotFrame(s: State, u: State, k: nat) {
    && (u.dls == s.dls || (k in u.dls && u.dls == s.dls[k := u.dls[k]]))
    && u.cache.inFlight == (s.cache.inFlight - SlotOf(s.dls, k)) + SlotOf(u.dls, k)
    && (SlotOf(u.dls, k) <= SlotOf(s.dls, k)
        || (SlotOf(s.dls, k) == {} && SlotOf(u.dls, k) !! s.cache.inFlight && SlotOf(u.dls, k) !! s.cache.entries.Keys))
    && u.cache.entries.Keys <= s.cache.entries.Keys + (SlotOf(s.dls, k) - SlotOf(u.dls, k))
  }

  function TaskOf(t: Step): nat {
    if t.Lookup? || t.Vanish? || t.CrashAndOpen? then 0 else t.k
  }

  // Steps of a task that is downloading keep its slot until they release it.
  predicate IsFileStep(t: Step) {
    t.CreatePart? || t.FinishPart? || t.Fail? || t.RenameIntoPlace? || t.RemovePart?
  }

  predicate IsCommitStep(t: Step) {
    t.CommitEntry? || t.PersistCommit?
  }

  predicate IsEvictionStep(t: Step) {
    t.EvictOldest? || t.EndEviction?
  }

  lemma FileStepSlotFrame(s: State, name: string -> string, t: Step)
    requires Slots(s) && Enabled(s, name, t) && IsFileStep(t)
    ensures SlotFrame(s, Apply(s, name, t), t.k)
  {
  }

  lemma CommitStepSlotFrame(s: State, name: string -> string, t: Step)
    requires Slots(s) && Enabled(s, name, t) && IsCommitStep(t)
    ensures SlotFrame(s, Apply(s, name, t), t.k)
  {
  }

  lemma EvictionStepSlotFrame(s: State, name: string -> string, t: Step)
    requires Slots(s) && Enabled(s, name, t) && IsEvictionStep(t)
    ensures SlotFrame(s, Apply(s, name, t), t.k)
  {
  }

  lemma BeginSlotFrame(s: State, name: string -> string, k: nat, id: string)
    requires Slots(s) && Enabled(s, name, Begin(k, id))
    ensures SlotFrame(s, Apply(s, name, Begin(k, id)), k)
  {
  }

  lemma OtherStepSlotFrame(s: State, name: string -> string, t: Step)
    requires Slots(s) && Enabled(s, name, t) && (t.ReleaseSlot? || t.Lookup? || t.Vanish?)
    ensures SlotFrame(s, Apply(s, name, t), TaskOf(t))
  {
  }

  lemma StepSlotFrame(s: State, name: string -> string, t: Step)
    requires Slots(s) && Enabled(s, name, t) && !t.CrashAndOpen?
    ensures SlotFrame(s, Apply(s, name, t), TaskOf(t))
  {
    if IsFileStep(t) {
      FileStepSlotFrame(s, name, t);
    } else if IsCommitStep(t) {
      CommitStepSlotFrame(s, name, t);
    } else if IsEvictionStep(t) {
      EvictionStepSlotFrame(s, name, t);
    } else if t.Begin? {
      BeginSlotFrame(s, name, t.k, t.id);
    } else {
      OtherStepSlotFrame(s, name, t);
    }
  }

  lemma SlotsFrame(s: State, u: State, k: nat)
    requires Slots(s) && SlotFrame(s, u, k)
    ensures Slots(u)
  {
    forall id | id in u.cache.inFlight
      ensures exists k' :: k' in u.dls && ActiveId(u.dls[k']) == Some(id)
    {
      if id in SlotOf(u.dls, k) {
        assert ActiveId(u.dls[k]) == Some(id);
      } else {
        var k' :| k' in s.dls && ActiveId(s.dls[k']) == Some(id);
        assert k' in u.dls && ActiveId(u.dls[k']) == Some(id);
      }
    }
    forall x | x in u.dls && ActiveId(u.dls[x]).Some?
      ensures ActiveId(u.dls[x]).value in u.cache.inFlight
    {
      if x != k && k in s.dls {
        assert ActiveId(s.dls[x]) != ActiveId(s.dls[k]);
      }
    }
  }

  lemma SlotsStep(s: State, name: string -> string, t: Step)
    requires Slots(s) && Enabled(s, name, t)
    ensures Slots(Apply(s, name, t))
  {
    if !t.CrashAndOpen? {
      StepSlotFrame(s, name, t);
      SlotsFrame(s, Apply(s, name, t), TaskOf(t));
    }
  }

  lemma WholesomeStep(s: State, name: string -> string, t: Step)
    requires Injective(name) && Slots(s) && Wholesome(s, name) && Enabled(s, name, t)
    ensures Wholesome(Apply(s, name, t), name)
  {
    var u := Apply(s, name, t);
    forall k | k in u.dls && u.dls[k].Downloaded? && name(u.dls[k].id) in u.parts
      ensures u.parts[name(u.dls[k].id)]
    {
      if k in s.dls && s.dls[k] == u.dls[k] {
        if (t.CreatePart? || t.FinishPart?) && t.k != k {
          assert ActiveId(s.dls[k]) != ActiveId(s.dls[t.k]);
        }
      }
    }
  }

  lemma NamedStep(s: State, name: string -> string, t: Step)
    requires Named(s, name) && Enabled(s, name, t)
    ensures Named(Apply(s, name, t), name)
  {
  }

  lemma ExactStep(s: State, name: string -> string, t: Step)
    requires Slots(s) && Exact(s.cache) && Enabled(s, name, t)
    ensures Exact(Apply(s, name, t).cache)
  {
    match t
    case CommitEntry(k, now, _) =>
      var id := s.dls[k].id;
      assert ActiveId(s.dls[k]) == Some(id);
      CommitExactIff(s.cache, id, name(id), s.dls[k].size, now);
    case EvictOldest(k, victim) =>
      TotalRemove(s.cache.entries, victim);
    case Lookup(id, now) =>
      if id in s.cache.entries {
        TotalTouch(s.cache.entries, id, now);
      }
    case _ =>
  }

  lemma InvStep(s: State, name: string -> string, t: Step)
    requires Injective(name) && Inv(s, name) && Enabled(s, name, t)
    ensures Inv(Apply(s, name, t), name)
  {
    SlotsStep(s, name, t);
    WholesomeStep(s, name, t);
    NamedStep(s, name, t);
    ExactStep(s, name, t);
  }

  // However it was left, opening the cache indexes complete files only.
  lemma OpenIndexesWholeFilesOnly(s: State, name: string -> string)
    requires Wholesome(s, name)
    ensures AllPresent(Apply(s, name, CrashAndOpen), name)
    ensures Exact(Apply(s, name, CrashAndOpen).cache) && Apply(s, name, CrashAndOpen).cache.inFlight == {}
  {
  }

  // Which files a step takes from disk, and which tasks it brings to `Renamed`.
  ghost predicate WholeFrame(s: State, u: State, name: string -> string, t: Step, k: nat) {
    && (k in u.dls && u.dls[k].Renamed? ==>
          || (k in s.dls && s.dls[k] == u.dls[k])
          || (t == RenameIntoPlace(k) && name(u.dls[k].id) in u.whole))
    && (if t.EvictOldest? then
          t.victim in s.cache.entries && u.whole == s.whole - {s.cache.entries[t.victim].file}
        else t.Vanish? || s.whole.Keys <= u.whole.Keys)
  }

  lemma FileStepWholeFrame(s: State, name: string -> string, t: Step, k: nat)
    requires Enabled(s, name, t) && IsFileStep(t)
    ensures WholeFrame(s, Apply(s, name, t), name, t, k)
  {
  }

  lemma OtherWholeFrame(s: State, name: string -> string, t: Step, k: nat)
    requires Enabled(s, name, t) && !IsFileStep(t)
    ensures WholeFrame(s, Apply(s, name, t), name, t, k)
  {
  }

  lemma RenamedStays(s: State, name: string -> string, t: Step, k: nat)
    requires Injective(name) && Inv(s, name) && AllPresent(s, name) && Enabled(s, name, t) && !t.Vanish?
    requires k in Apply(s, name, t).dls && Apply(s, name, t).dls[k].Renamed?
    ensures name(Apply(s, name, t).dls[k].id) in Apply(s, name, t).whole
  {
    if IsFileStep(t) {
      FileStepWholeFrame(s, name, t, k);
    } else {
      OtherWholeFrame(s, name, t, k);
    }
    if k in s.dls && s.dls[k].Renamed? {
      assert ActiveId(s.dls[k]) == Some(s.dls[k].id);
    }
  }

  // Steps that add, drop or touch an entry, or read the index back.
  predicate MovesEntries(t: Step) {
    t.CommitEntry? || t.EvictOldest? || t.Lookup? || t.CrashAndOpen?
  }

  lemma EntriesUntouched(s: State, name: string -> string, t: Step)
    requires Enabled(s, name, t) && !MovesEntries(t) && !t.Vanish?
    ensures Apply(s, name, t).cache.entries == s.cache.entries && s.whole.Keys <= Apply(s, name, t).whole.Keys
  {
  }

  lemma MovedEntryPresent(s: State, name: string -> string, t: Step, id: string)
    requires Injective(name) && Inv(s, name) && AllPresent(s, name) && Enabled(s, name, t) && MovesEntries(t)
    requires id in Apply(s, name, t).cache.entries
    ensures Apply(s, name, t).cache.entries[id].file in Apply(s, name, t).whole
  {
    match t
    case CommitEntry(_, _, _) =>
    case EvictOldest(_, victim) =>
    case Lookup(_, _) =>
    case CrashAndOpen =>
  }

  // Without outside deletions, every step keeps all indexed files on disk.
  lemma PresentStep(s: State, name: string -> string, t: Step)
    requires Injective(name) && Inv(s, name) && AllPresent(s, name) && Enabled(s, name, t) && !t.Vanish?
    ensures AllPresent(Apply(s, name, t), name)
  {
    var u := Apply(s, name, t);
    WholesomeStep(s, name, t);
    if MovesEntries(t) {
      forall id | id in u.cache.entries ensures u.cache.entries[id].file in u.whole {
        MovedEntryPresent(s, name, t, id);
      }
    } else {
      EntriesUntouched(s, name, t);
    }
    forall k | k in u.dls && u.dls[k].Renamed? ensures name(u.dls[k].id) in u.whole {
      RenamedStays(s, name, t, k);
    }
  }

  // A run from a freshly opened cache; crashes may fall anywhere.
  ghost predicate Trace(name: string -> string, states: seq<State>, steps: seq<Step>) {
    && |states| == |steps| + 1 && Injective(name)
    && Inv(states[0], name) && AllPresent(states[0], name) && states[0].dls == map[] && states[0].lock.None?
    && forall i {:trigger steps[i]} :: 0 <= i < |steps| ==>
         Enabled(states[i], name, steps[i]) && states[i + 1] == Apply(states[i], name, steps[i])
  }

  lemma {:induction false} EveryRunKeepsInv(name: string -> string, states: seq<State>, steps: seq<Step>, i: nat)
    requires Trace(name, states, steps) && i < |states|
    ensures Inv(states[i], name)
  {
    if i > 0 {
      EveryRunKeepsInv(name, states, steps, i - 1);
      InvStep(states[i - 1], name, steps[i - 1]);
    }
  }

  // In every reachable state: ids in flight are not indexed, each has exactly one downloader, and
  // the running total is the exact sum of the indexed sizes.
  lemma ReachableCacheIsSound(name: string -> string, states: seq<State>, steps: seq<Step>, i: nat)
    requires Trace(name, states, steps) && i < |states|
    ensures states[i].cache.inFlight !! states[i].cache.entries.Keys
    ensures forall id :: id in states[i].cache.inFlight ==>
              (exists k :: k in states[i].dls && ActiveId(states[i].dls[k]) == Some(id))
    ensures forall j, k | j in states[i].dls && k in states[i].dls && ActiveId(states[i].dls[j]).Some? ::
              ActiveId(states[i].dls[j]) == ActiveId(states[i].dls[k]) ==> j == k
    ensures states[i].cache.total == Total(states[i].cache.entries)
    ensures forall f :: f in states[i].whole ==> states[i].whole[f]
  {
    EveryRunKeepsInv(name, states, steps, i);
  }

  // Right after any crash and restart, and as long as nobody deletes cached files from outside,
  // every indexed entry names a completely downloaded file.
  lemma {:induction false} IndexedFilesAreWhole(name: string -> string, states: seq<State>, steps: seq<Step>,
                                                from: nat, i: nat)
    requires Trace(name, states, steps) && from <= i < |states|
    requires from == 0 || steps[from - 1].CrashAndOpen?
    requires forall n :: from <= n < i ==> !steps[n].Vanish?
    ensures AllPresent(states[i], name)
  {
    if i == from {
      if from > 0 {
        EveryRunKeepsInv(name, states, steps, from - 1);
        OpenIndexesWholeFilesOnly(states[from - 1], name);
      }
    } else {
      IndexedFilesAreWhole(name, states, steps, from, i - 1);
      EveryRunKeepsInv(name, states, steps, i - 1);
      PresentStep(states[i - 1], name, steps[i - 1]);
    }
  }

  predicate HoldsLock(d: Dl) {
    d.Committed? || d.Evicting?
  }

  ghost predicate LockedAt(s: State, k: nat)
    requires k in s.dls
  {
    && (HoldsLock(s.dls[k]) ==> s.lock == Some(k))
    && (s.dls[k].Committed? ==> s.dls[k].id in s.cache.entries)
    && (s.dls[k].Evicting? && !s.dls[k].removed ==> s.cache.saved == s.cache.entries)
  }

  // Whoever commits or evicts holds the cache lock, what it committed is indexed, and until the
  // first victim the persisted index is the one in memory.
  ghost predicate Locked(s: State) {
    && (forall k :: k in s.dls ==> LockedAt(s, k))
    && (s.lock.Some? ==> s.lock.value in s.dls && HoldsLock(s.dls[s.lock.value]))
  }

  lemma LockedStepAt(s: State, name: string -> string, t: Step, k: nat)
    requires Locked(s) && Enabled(s, name, t) && k in Apply(s, name, t).dls
    ensures LockedAt(Apply(s, name, t), k)
  {
    assert k in s.dls ==> LockedAt(s, k);
    assert TaskOf(t) in s.dls ==> LockedAt(s, TaskOf(t));
  }

  lemma LockedStep(s: State, name: string -> string, t: Step)
    requires Locked(s) && Enabled(s, name, t)
    ensures Locked(Apply(s, name, t))
  {
    var u := Apply(s, name, t);
    forall k | k in u.dls ensures LockedAt(u, k) {
      LockedStepAt(s, name, t, k);
    }
  }

  lemma {:induction false} ReachableLocked(name: string -> string, states: seq<State>, steps: seq<Step>, i: nat)
    requires Trace(name, states, steps) && i < |states|
    ensures Locked(states[i])
  {
    if i > 0 {
      ReachableLocked(name, states, steps, i - 1);
      LockedStep(states[i - 1], name, steps[i - 1]);
    }
  }

  // The index in memory and the persisted one both hold `id`, and its file is there.
  ghost predicate Kept(s: State, name: string -> string, id: string) {
    && id in s.cache.entries && id in s.cache.saved && name(id) in s.cache.files
  }

  // The step neither evicts `id` nor is somebody deleting its file.
  predicate Spares(t: Step, name: string -> string, id: string) {
    !(t.EvictOldest? && t.victim == id) && t != Vanish(name(id))
  }

  // What a step does to the parts `Kept` looks at.
  ghost predicate KeepFrame(s: State, u: State, name: string -> string, t: Step) {
    if t.EvictOldest? then
      && t.victim in s.cache.entries && u.cache.entries == s.cache.entries - {t.victim} && u.cache.saved == s.cache.saved
      && u.cache.files == s.cache.files - {s.cache.entries[t.victim].file}
    else if t.Vanish? then
      u.cache.entries == s.cache.entries && u.cache.saved == s.cache.saved && u.cache.files == s.cache.files - {t.file}
    else if t.CrashAndOpen? then
      && u.cache.saved == s.cache.saved && u.cache.files == s.cache.files
      && (forall id :: id in s.cache.saved && s.cache.saved[id].file in s.cache.files ==> id in u.cache.entries)
    else
      && s.cache.entries.Keys <= u.cache.entries.Keys && s.cache.files <= u.cache.files
      && (u.cache.saved == s.cache.saved || u.cache.saved == u.cache.entries)
  }

  lemma KeepFrameEarly(s: State, name: string -> string, t: Step)
    requires Enabled(s, name, t) && (IsFileStep(t) || t.Begin? || t.ReleaseSlot? || t.Lookup?)
    ensures KeepFrame(s, Apply(s, name, t), name, t)
  {
  }

  lemma KeepFrameLate(s: State, name: string -> string, t: Step)
    requires Enabled(s, name, t) && !(IsFileStep(t) || t.Begin? || t.ReleaseSlot? || t.Lookup?)
    ensures KeepFrame(s, Apply(s, name, t), name, t)
  {
  }

  lemma KeptFrame(s: State, u: State, name: string -> string, t: Step, id: string)
    requires Injective(name) && Named(s, name) && Kept(s, name, id) && KeepFrame(s, u, name, t) && Spares(t, name, id)
    ensures Kept(u, name, id)
  {
    assert s.cache.saved[id].file == name(id);
    if t.EvictOldest? {
      assert s.cache.entries[t.victim].file == name(t.victim) != name(id);
    }
  }

  lemma KeptStep(s: State, name: string -> string, t: Step, id: string)
    requires Injective(name) && Inv(s, name) && Kept(s, name, id) && Enabled(s, name, t) && Spares(t, name, id)
    ensures Kept(Apply(s, name, t), name, id)
  {
    if IsFileStep(t) || t.Begin? || t.ReleaseSlot? || t.Lookup? {
      KeepFrameEarly(s, name, t);
    } else {
      KeepFrameLate(s, name, t);
    }
    KeptFrame(s, Apply(s, name, t), name, t, id);
  }

  lemma PersistKeeps(s: State, name: string -> string, k: nat)
    requires Locked(s) && Enabled(s, name, PersistCommit(k)) && name(s.dls[k].id) in s.cache.files
    ensures Kept(Apply(s, name, PersistCommit(k)), name, s.dls[k].id)
  {
    assert LockedAt(s, k);
  }

  // A downloaded track whose commit was persisted stays indexed with its file through any number
  // of crashes, until it is evicted or somebody deletes the file.
  lemma {:induction false} PersistedTrackStays(name: string -> string, states: seq<State>, steps: seq<Step>,
                                               from: nat, i: nat, k: nat)
    requires Trace(name, states, steps) && from < i < |states| && steps[from] == PersistCommit(k)
    requires name(states[from].dls[k].id) in states[from].cache.files
    requires forall n :: from < n < i ==> Spares(steps[n], name, states[from].dls[k].id)
    ensures Kept(states[i], name, states[from].dls[k].id)
  {
    if from + 1 == i {
      ReachableLocked(name, states, steps, from);
      PersistKeeps(states[from], name, k);
    } else {
      PersistedTrackStays(name, states, steps, from, i - 1, k);
      EveryRunKeepsInv(name, states, steps, i - 1);
      KeptStep(states[i - 1], name, steps[i - 1], states[from].dls[k].id);
    }
  }

  // ----- the cap

  // The cache fits `max`, in memory and as a restart would find it, and nobody is adding to it.
  ghost predicate Fits(s: State, max: nat) {
    s.lock.None? && s.cache.total <= max && Total(s.cache.saved) <= max
  }

  // However the eviction went, it ends below the cap its task had read, with the index on disk in step.
  lemma EndEvictionFits(s: State, name: string -> string, k: nat)
    requires Locked(s) && Exact(s.cache) && Enabled(s, name, EndEviction(k))
    ensures var t := Apply(s, name, EndEviction(k));
            Fits(t, s.dls[k].max) && t.cache.saved == t.cache.entries
  {
    assert LockedAt(s, k);
  }

  lemma OpenNeverGrows(files: set<string>, saved: Index)
    ensures Total(Open(files, saved).entries) <= Total(saved)
  {
    var gone := set id | id in saved && saved[id].file !in files;
    TotalSubset(saved, {}, gone);
    assert saved - {} == saved;
    assert saved - gone == Open(files, saved).entries;
  }

  lemma FitsStep(s: State, name: string -> string, t: Step, max: nat)
    requires Locked(s) && Fits(s, max) && Enabled(s, name, t) && !t.CommitEntry?
    ensures Fits(Apply(s, name, t), max)
  {
    assert TaskOf(t) in s.dls ==> LockedAt(s, TaskOf(t));
    if t.CrashAndOpen? {
      OpenNeverGrows(s.cache.files, s.cache.saved);
    }
  }

  lemma {:induction false} FitsStays(name: string -> string, states: seq<State>, steps: seq<Step>,
                                     from: nat, i: nat, max: nat)
    requires Trace(name, states, steps) && from <= i < |states| && Fits(states[from], max)
    requires forall n {:trigger steps[n]} :: from <= n < i ==> !steps[n].CommitEntry?
    ensures Fits(states[i], max)
  {
    if from < i {
      var last := i - 1;
      FitsStays(name, states, steps, from, last, max);
      ReachableLocked(name, states, steps, last);
      FitsStep(states[last], name, steps[last], max);
    }
  }

  // From the end of a populate until the next commit the cache fits the cap that populate read,
  // whatever else runs or crashes in between.
  lemma FitsUntilNextCommit(name: string -> string, states: seq<State>, steps: seq<Step>, from: nat, i: nat, k: nat)
    requires Trace(name, states, steps) && from < i < |states| && steps[from] == EndEviction(k)
    requires forall n {:trigger steps[n]} :: from < n < i ==> !steps[n].CommitEntry?
    ensures Fits(states[i], states[from].dls[k].max)
  {
    ReachableLocked(name, states, steps, from);
    EveryRunKeepsInv(name, states, steps, from);
    EndEvictionFits(states[from], name, k);
    FitsStays(name, states, steps, from + 1, i, states[from].dls[k].max);
  }

  // ----- one download from end to end

  ghost predicate Leads(s: State, name: string -> string, t: Step, u: State) {
    Enabled(s, name, t) && u == Apply(s, name, t)
  }

  // Undisturbed, a download comes to its final place as a whole file, with nothing of the `.part` left.
  lemma DownloadSucceeds(s: State, name: string -> string, k: nat, id: string, size: nat)
    returns (s1: State, s2: State, s3: State, t: State)
    requires k !in s.dls && s.lock.None? && CanBegin(s.cache, id)
    ensures Leads(s, name, Begin(k, id), s1) && Leads(s1, name, CreatePart(k), s2)
    ensures Leads(s2, name, FinishPart(k, size), s3) && Leads(s3, name, RenameIntoPlace(k), t)
    ensures s2.parts == s.parts[name(id) := false] && s3.parts == s.parts[name(id) := true]
    ensures t.cache == s.cache.(inFlight := s.cache.inFlight + {id}, files := s.cache.files + {name(id)})
    ensures t.whole == s.whole[name(id) := true] && t.parts == s.parts - {name(id)}
    ensures t.dls == s.dls[k := Renamed(id, size)] && t.lock.None?
  {
    s1 := Apply(s, name, Begin(k, id));
    s2 := Apply(s1, name, CreatePart(k));
    s3 := Apply(s2, name, FinishPart(k, size));
    t := Apply(s3, name, RenameIntoPlace(k));
    assert t.parts == s.parts - {name(id)};
    assert t.dls == s.dls[k := Renamed(id, size)];
  }

  // Its commit, if the cache still fits, indexes it at its size, persists the index and ends the task.
  lemma CommitSucceeds(s: State, name: string -> string, k: nat, now: nat, max: nat)
    returns (s1: State, s2: State, t: State)
    requires k in s.dls && s.dls[k].Renamed? && s.lock.None?
    requires s.cache.total + s.dls[k].size <= MAX_U64 && s.cache.total + s.dls[k].size <= max
    ensures Leads(s, name, CommitEntry(k, now, max), s1) && Leads(s1, name, PersistCommit(k), s2)
    ensures Leads(s2, name, EndEviction(k), t)
    ensures var id, size := s.dls[k].id, s.dls[k].size;
            && t.cache.entries == s.cache.entries[id := Entry(name(id), size, now)]
            && t.cache.saved == t.cache.entries && t.cache.total == s.cache.total + size
            && t.cache.inFlight == s.cache.inFlight - {id} && t.cache.files == s.cache.files
    ensures t == s.(cache := t.cache, dls := s.dls[k := Finished], lock := None)
  {
    s1 := Apply(s, name, CommitEntry(k, now, max));
    s2 := Apply(s1, name, PersistCommit(k));
    t := Apply(s2, name, EndEviction(k));
    assert t.dls == s.dls[k := Finished];
  }

  // A failed download leaves neither entry nor reservation nor `.part` behind.
  lemma FailureLeavesNothing(s: State, name: string -> string, k: nat, id: string)
    returns (s1: State, s2: State, s3: State, s4: State, t: State)
    requires k !in s.dls && s.lock.None? && CanBegin(s.cache, id)
    ensures Leads(s, name, Begin(k, id), s1) && Leads(s1, name, CreatePart(k), s2) && Leads(s2, name, Fail(k), s3)
    ensures Leads(s3, name, RemovePart(k), s4) && Leads(s4, name, ReleaseSlot(k), t)
    ensures t.cache == s.cache && t.whole == s.whole && t.parts == s.parts - {name(id)} && t.lock.None?
    ensures t.dls == s.dls[k := Finished]
  {
    s1 := Apply(s, name, Begin(k, id));
    s2 := Apply(s1, name, CreatePart(k));
    s3 := Apply(s2, name, Fail(k));
    s4 := Apply(s3, name, RemovePart(k));
    t := Apply(s4, name, ReleaseSlot(k));
    assert t.parts == s.parts - {name(id)};
    assert t.cache.inFlight == s.cache.inFlight;
    assert t.dls == s.dls[k := Finished];
  }

  // A task that finds its id indexed or in flight ends at once and changes nothing.
  lemma SecondDownloadDeclines(s: State, name: string -> string, k: nat, id: string)
    requires Enabled(s, name, Begin(k, id)) && !CanBegin(s.cache, id)
    ensures Apply(s, name, Begin(k, id)) == s.(dls := s.dls[k := Finished])
  {
  }

  // A lookup of an indexed track makes it the last to be evicted.
  lemma LookupMakesLatest(s: State, name: string -> string, id: string, now: nat)
    requires Enabled(s, name, Lookup(id, now)) && id in s.cache.entries && s.cache.entries[id].file in s.cache.files
    requires forall x :: x in s.cache.entries && x != id ==> s.cache.entries[x].lastUsed < now
    ensures Latest(Apply(s, name, Lookup(id, now)).cache.entries, id)
  {
    UsedTrackIsLatest(s.cache, id, "", 0, now);
  }

  lemma PartStep(s: State, name: string -> string, t: Step, f: string)
    requires Enabled(s, name, t) && f in Apply(s, name, t).parts && Apply(s, name, t).parts[f]
    ensures (f in s.parts && s.parts[f]) || (t.FinishPart? && t.k in s.dls && name(s.dls[t.k].id) == f)
  {
  }

  // A `.part` counts as whole only once its download finished.
  lemma {:induction false} WholePartWasDownloaded(name: string -> string, states: seq<State>, steps: seq<Step>,
                                                  i: nat, f: string)
    requires Trace(name, states, steps) && states[0].parts == map[] && i < |states|
    requires f in states[i].parts && states[i].parts[f]
    ensures exists j {:trigger steps[j]} :: 0 <= j < i && steps[j].FinishPart? && name(states[j].dls[steps[j].k].id) == f
  {
    var last := i - 1;
    PartStep(states[last], name, steps[last], f);
    if f in states[last].parts && states[last].parts[f] {
      WholePartWasDownloaded(name, states, steps, last, f);
    } else {
      assert steps[last].FinishPart?;
    }
  }
}
