// Daemon and client over whole runs: rating requests one at a time, star toggles side by side,
// list refreshes, changes of server, and the writes to queue, playhead and duration that are
// broadcast later or never.
module MirrorRuns {
  import opened Wrappers
  import opened Models
  import opened SongLibrary
  import opened Rating
  import opened Stars
  import opened Mirror
  import opened Likeness

  // A rating request between its two critical sections.
  datatype Request = Request(id: string, rating: Option<nat>, before: Option<nat>, generation: nat)

  // A star toggle between its sections; several may be under way, even for one song.
  datatype Toggle = Toggle(id: string, was: bool, generation: nat)

  // `dirt` records where daemon and client may differ; `cursor` is the client's queue row.
  datatype System = System(
    daemon: Library,
    generation: nat,
    request: Option<Request>,
    toggles: map<nat, Toggle>,
    mirror: Library,
    cursor: Option<nat>,
    ghost dirt: Dirt)

  datatype Step =
    | BeginRating(id: string, stars: nat, before: Option<nat>)
    | EndRating(succeeded: bool)
    | BeginToggle(k: nat, id: string, src: Option<Child>)
    | ToggleRefused(k: nat, src: Option<Child>)
    | ToggleGranted(k: nat, list: Option<seq<Child>>)
    | ServerReplaced
    | Refreshed(ev: Event)                                  // a list, or the playhead while playing
    | QuickPlayGone(kind: string)
    | WriteQueue(queue: seq<Child>, position: Option<nat>)  // any section on queue or position
    | WritePlaying(np: NowPlaying)                          // any section on the playing song
    | MovePlayhead(secs: real)                              // seek, restart, resume at an offset
    | BackfillDuration(secs: real)
    | EmitQueue
    | EmitPlaying
    | SelectRow(row: nat)
    | Resnapshot

  predicate IsRefresh(ev: Event) {
    ev.PositionTick? || ev.StarredChanged? || ev.RandomChanged? || ev.RandomAlbumChanged? || ev.QuickPlayAlbumChanged?
    || ev.AlbumSongsChanged? || ev.PlaylistSongsChanged?
  }

  ghost predicate Enabled(s: System, step: Step) {
    match step
    case BeginRating(id, stars, before) => s.request.None? && IsOldRating(s.daemon, id, before)
    case EndRating(_) => s.request.Some?
    case BeginToggle(k, id, src) =>
      k !in s.toggles && IsSource(Over(s.daemon, Mark(id, !IsStarred(s.daemon, id))), id, src)
    case ToggleRefused(k, src) =>
      k in s.toggles && IsSource(Over(s.daemon, Mark(s.toggles[k].id, s.toggles[k].was)), s.toggles[k].id, src)
    // the fresh list is dropped after a change of server
    case ToggleGranted(k, list) => k in s.toggles && (list.Some? ==> s.toggles[k].generation == s.generation)
    case Refreshed(ev) => IsRefresh(ev) && (ev.PositionTick? ==> s.daemon.playing.state == Playing)
    case SelectRow(row) => row < |s.mirror.queue|
    case _ => true
  }

  function Unsettled(d: Dirt, parts: set<Part>): Dirt {
    d.(parts := d.parts + parts)
  }

  // A reply for an earlier server changes nothing; a failure rolls back without an event; a
  // success is committed again, to copies refreshed meanwhile too, and broadcast.
  ghost function EndedRating(s: System, r: Request, succeeded: bool): System {
    var t := s.(request := None);
    var less, more := s.dirt.ratings - {r.id}, s.dirt.ratings + {r.id};
    if r.generation != s.generation then t
    else if succeeded then
      t.(daemon := SetRating(s.daemon, r.id, r.rating), mirror := Mirrored(s.mirror, SongRatingChanged(r.id, r.rating)),
         dirt := s.dirt.(ratings := less))
    else
      t.(daemon := SetRating(s.daemon, r.id, r.before),
         dirt := s.dirt.(ratings := if ShownRated(s.mirror, s.dirt.parts, r.id, r.before) then less else more))
  }

  ghost function BegunToggle(s: System, k: nat, id: string, src: Option<Child>): System {
    var was := IsStarred(s.daemon, id);
    s.(daemon := ApplyStar(s.daemon, id, !was, src), toggles := s.toggles[k := Toggle(id, was, s.generation)],
       dirt := Unsettled(s.dirt, {StarredList}).(stars := s.dirt.stars + {id}))
  }

  // The daemon undoes its pass and tells nobody.
  ghost function RefusedToggle(s: System, k: nat, src: Option<Child>): System
    requires k in s.toggles
  {
    var t := s.toggles[k];
    var parts := s.dirt.parts + {StarredList};
    s.(daemon := ApplyStar(s.daemon, t.id, t.was, src), toggles := s.toggles - {k},
       dirt := Dirt(s.dirt.ratings,
                    if CarriesMark(s.mirror, parts, t.id, t.was) then s.dirt.stars - {t.id} else s.dirt.stars + {t.id},
                    parts))
  }

  // The daemon broadcasts the marker without setting it again, then the fresh list, if it got one.
  ghost function GrantedToggle(s: System, k: nat, list: Option<seq<Child>>): System
    requires k in s.toggles
  {
    var t := s.toggles[k];
    var parts := s.dirt.parts + {StarredList};
    var marked := StarMirrored(s.mirror, t.id, !t.was);
    var less, more := s.dirt.stars - {t.id}, s.dirt.stars + {t.id};
    if list.Some? then
      s.(daemon := Relisted(s.daemon, list.value), mirror := Mirrored(marked, StarredChanged(list.value)),
         toggles := s.toggles - {k},
         dirt := Dirt(s.dirt.ratings, if ShownMarked(s.daemon, parts, t.id, !t.was) then less else more,
                      s.dirt.parts - {StarredList}))
    else
      s.(mirror := marked, toggles := s.toggles - {k},
         dirt := Dirt(s.dirt.ratings, if CarriesMark(s.daemon, parts, t.id, !t.was) then less else more, parts))
  }

  ghost function Next(s: System, step: Step): System
    requires Enabled(s, step)
  {
    match step
    case BeginRating(id, stars, before) =>
      var rating := Normalized(stars);
      s.(daemon := SetRating(s.daemon, id, rating), request := Some(Request(id, rating, before, s.generation)),
         dirt := s.dirt.(ratings := s.dirt.ratings + {id}))
    case EndRating(succeeded) => EndedRating(s, s.request.value, succeeded)
    case BeginToggle(k, id, src) => BegunToggle(s, k, id, src)
    case ToggleRefused(k, src) => RefusedToggle(s, k, src)
    case ToggleGranted(k, list) => GrantedToggle(s, k, list)
    case ServerReplaced => s.(generation := s.generation + 1)
    case Refreshed(ev) =>
      s.(daemon := Stored(s.daemon, ev), mirror := Mirrored(s.mirror, ev),
         dirt := s.dirt.(parts := s.dirt.parts - Carried(ev)))
    case QuickPlayGone(kind) =>
      s.(daemon := s.daemon.(quickPlay := LruCache.Dropped(s.daemon.quickPlay, kind)),
         mirror := Mirrored(s.mirror, QuickPlayAlbumChanged(kind, [])))
    case WriteQueue(queue, position) =>
      s.(daemon := s.daemon.(queue := queue, position := position), dirt := Unsettled(s.dirt, {Rows}))
    case WritePlaying(np) => s.(daemon := s.daemon.(playing := np), dirt := Unsettled(s.dirt, PLAYING_PARTS))
    case MovePlayhead(secs) =>
      s.(daemon := s.daemon.(playing := s.daemon.playing.(position := secs)), dirt := Unsettled(s.dirt, {Playhead}))
    case BackfillDuration(secs) =>
      s.(daemon := s.daemon.(playing := Backfilled(s.daemon.playing, secs)), dirt := Unsettled(s.dirt, {Duration}))
    case EmitQueue =>
      s.(mirror := Mirrored(s.mirror, QueueChanged(s.daemon.queue, s.daemon.position)),
         cursor := Clamped(s.cursor, |s.daemon.queue|), dirt := s.dirt.(parts := s.dirt.parts - {Rows}))
    case EmitPlaying =>
      s.(mirror := Mirrored(s.mirror, NowPlayingChanged(s.daemon.playing)),
         dirt := s.dirt.(parts := s.dirt.parts - PLAYING_PARTS))
    case SelectRow(row) => s.(cursor := Some(row))
    case Resnapshot => s.(mirror := s.daemon, dirt := CLEAN)
  }

  ghost predicate Inv(s: System) {
    Alike(s.daemon, s.mirror, s.dirt)
  }

  // ----- every step keeps the likeness that `dirt` promises

  lemma EndedRatingKeepsInv(s: System, r: Request, succeeded: bool)
    requires Inv(s)
    ensures Inv(EndedRating(s, r, succeeded))
  {
    if r.generation != s.generation {
    } else if succeeded {
      ConfirmedRating(s.daemon, s.mirror, s.dirt, r.id, r.rating);
    } else if ShownRated(s.mirror, s.dirt.parts, r.id, r.before) {
      RefusedRatingIff(s.daemon, s.mirror, s.dirt, r.id, r.before);
    } else {
      var more := s.dirt.(ratings := s.dirt.ratings + {r.id});
      AlikeUpToMore(s.daemon, s.mirror, s.dirt, more);
      RatingIsHidden(s.daemon, s.mirror, more, r.id, r.before);
    }
  }

  lemma BegunToggleKeepsInv(s: System, k: nat, id: string, src: Option<Child>)
    requires Inv(s)
    ensures Inv(BegunToggle(s, k, id, src))
  {
    var more := Unsettled(s.dirt, {StarredList}).(stars := s.dirt.stars + {id});
    AlikeUpToMore(s.daemon, s.mirror, s.dirt, more);
    StarIsHidden(s.daemon, s.mirror, more, id, !IsStarred(s.daemon, id), src);
  }

  // The daemon's pass and the client's differ in the list of starred songs only.
  lemma PassesAgree(l: Library, m: Library, d: Dirt, id: string, on: bool, src: Option<Child>)
    requires StarredList in d.parts
    ensures Alike(ApplyStar(l, id, on, src), m, d) <==> Alike(StarMirrored(l, id, on), m, d)
  {
    var a, b := ApplyStar(l, id, on, src), StarMirrored(l, id, on);
    assert Over(a, Hide(d)) == Over(b, Hide(d)).(starred := OverList(a.starred, Hide(d)));
  }

  lemma RefusedToggleKeepsInv(s: System, k: nat, src: Option<Child>)
    requires Inv(s) && k in s.toggles
    ensures Inv(RefusedToggle(s, k, src))
  {
    var t, d := s.toggles[k], Unsettled(s.dirt, {StarredList});
    AlikeUpToMore(s.daemon, s.mirror, s.dirt, d);
    if CarriesMark(s.mirror, d.parts, t.id, t.was) {
      UnmarkedIff(s.daemon, s.mirror, d, t.id, t.was);
      PassesAgree(s.daemon, s.mirror, d.(stars := d.stars - {t.id}), t.id, t.was, src);
    } else {
      var more := d.(stars := d.stars + {t.id});
      AlikeUpToMore(s.daemon, s.mirror, d, more);
      StarIsHidden(s.daemon, s.mirror, more, t.id, t.was, src);
    }
  }

  lemma AlikeSym(l: Library, m: Library, d: Dirt)
    ensures Alike(l, m, d) <==> Alike(m, l, d)
  {
    NearSym(Over(l, Hide(d)), Over(m, Hide(d)), d.parts);
  }

  // Marking the mirror alone is hidden while the song's markers are.
  lemma MirrorMarkHidden(l: Library, m: Library, d: Dirt, id: string, on: bool)
    requires Alike(l, m, d) && id in d.stars && StarredList in d.parts
    ensures Alike(l, StarMirrored(m, id, on), d)
  {
    AlikeSym(l, m, d);
    StarIsHidden(m, l, d, id, on, None);
    PassesAgree(m, l, d, id, on, None);
    AlikeSym(StarMirrored(m, id, on), l, d);
  }

  lemma GrantedWithoutListKeepsInv(s: System, k: nat)
    requires Inv(s) && k in s.toggles
    ensures Inv(GrantedToggle(s, k, None))
  {
    var t, d := s.toggles[k], Unsettled(s.dirt, {StarredList});
    AlikeUpToMore(s.daemon, s.mirror, s.dirt, d);
    if CarriesMark(s.daemon, d.parts, t.id, !t.was) {
      UnmarkedIff(s.daemon, s.mirror, d, t.id, !t.was);
    } else {
      var more := d.(stars := d.stars + {t.id});
      AlikeUpToMore(s.daemon, s.mirror, d, more);
      MirrorMarkHidden(s.daemon, s.mirror, more, t.id, !t.was);
    }
  }

  lemma GrantedWithListKeepsInv(s: System, k: nat, list: seq<Child>)
    requires Inv(s) && k in s.toggles
    ensures Inv(GrantedToggle(s, k, Some(list)))
  {
    var t, d := s.toggles[k], Unsettled(s.dirt, {StarredList});
    if ShownMarked(s.daemon, d.parts, t.id, !t.was) {
      GrantedIff(s.daemon, s.mirror, s.dirt, t.id, !t.was, list);
    } else {
      var more := d.(stars := d.stars + {t.id});
      AlikeUpToMore(s.daemon, s.mirror, s.dirt, more);
      MirrorMarkHidden(s.daemon, s.mirror, more, t.id, !t.was);
      var e := more.(parts := more.parts - {StarredList});
      RelistedNear(s.daemon, StarMirrored(s.mirror, t.id, !t.was), list, more, e);
      assert e.parts == s.dirt.parts - {StarredList};
    }
  }

  lemma RequestStepKeepsInv(s: System, step: Step)
    requires Inv(s) && Enabled(s, step)
    requires step.BeginRating? || step.EndRating? || step.BeginToggle? || step.ToggleRefused? || step.ToggleGranted?
    ensures Inv(Next(s, step))
  {
    match step
    case BeginRating(id, stars, before) =>
      var more := s.dirt.(ratings := s.dirt.ratings + {id});
      AlikeUpToMore(s.daemon, s.mirror, s.dirt, more);
      RatingIsHidden(s.daemon, s.mirror, more, id, Normalized(stars));
    case EndRating(succeeded) => EndedRatingKeepsInv(s, s.request.value, succeeded);
    case BeginToggle(k, id, src) => BegunToggleKeepsInv(s, k, id, src);
    case ToggleRefused(k, src) => RefusedToggleKeepsInv(s, k, src);
    case ToggleGranted(k, list) =>
      if list.Some? {
        GrantedWithListKeepsInv(s, k, list.value);
      } else {
        GrantedWithoutListKeepsInv(s, k);
      }
  }

  lemma WriteStepKeepsInv(s: System, step: Step)
    requires Inv(s) && (step.WriteQueue? || step.WritePlaying? || step.MovePlayhead? || step.BackfillDuration?)
    ensures Inv(Next(s, step))
  {
    var t := Next(s, step);
    AlikeUpToMore(s.daemon, s.mirror, s.dirt, t.dirt);
    UnsettledWriteIsHidden(s.daemon, s.mirror, t.dirt, t.daemon);
  }

  lemma StepKeepsInv(s: System, step: Step)
    requires Inv(s) && Enabled(s, step)
    ensures Inv(Next(s, step))
  {
    match step
    case Refreshed(ev) => EventSettles(s.daemon, s.mirror, s.dirt, ev);
    case EmitQueue => EventSettles(s.daemon, s.mirror, s.dirt, QueueChanged(s.daemon.queue, s.daemon.position));
    case EmitPlaying => EventSettles(s.daemon, s.mirror, s.dirt, NowPlayingChanged(s.daemon.playing));
    case QuickPlayGone(kind) => QuickPlayKeepsAlike(s.daemon, s.mirror, s.dirt, kind, []);
    case ServerReplaced =>
    case SelectRow(_) =>
    case Resnapshot =>
    case WriteQueue(_, _) => WriteStepKeepsInv(s, step);
    case WritePlaying(_) => WriteStepKeepsInv(s, step);
    case MovePlayhead(_) => WriteStepKeepsInv(s, step);
    case BackfillDuration(_) => WriteStepKeepsInv(s, step);
    case _ => RequestStepKeepsInv(s, step);
  }

  // ----- what a step shows on either side

  lemma BegunRatingShows(s: System, id: string, stars: nat, before: Option<nat>)
    requires Enabled(s, BeginRating(id, stars, before))
    ensures var t := Next(s, BeginRating(id, stars, before));
            && CopiesRated(t.daemon, id, Normalized(stars)) && t.mirror == s.mirror
            && t.request == Some(Request(id, Normalized(stars), before, s.generation))
  {
    RatesEveryCopy(s.daemon, id, Normalized(stars));
  }

  lemma EndedRatingShows(s: System, r: Request, succeeded: bool)
    requires s.request == Some(r)
    ensures var t := Next(s, EndRating(succeeded));
            && t.request.None?
            && if r.generation != s.generation then t.daemon == s.daemon && t.mirror == s.mirror
               else if succeeded then CopiesRated(t.daemon, r.id, r.rating) && CopiesRated(t.mirror, r.id, r.rating)
               else CopiesRated(t.daemon, r.id, r.before) && t.mirror == s.mirror
  {
    if r.generation == s.generation {
      RatesEveryCopy(s.daemon, r.id, if succeeded then r.rating else r.before);
      RatesEveryCopy(s.mirror, r.id, r.rating);
    }
  }

  lemma ToggleStepShows(s: System, step: Step)
    requires Enabled(s, step) && (step.BeginToggle? || step.ToggleRefused? || step.ToggleGranted?)
    ensures var t := Next(s, step);
            match step
            case BeginToggle(k, id, _) =>
              && CopiesMarked(t.daemon, id, !IsStarred(s.daemon, id)) && t.mirror == s.mirror
              && t.toggles == s.toggles[k := Toggle(id, IsStarred(s.daemon, id), s.generation)]
            case ToggleRefused(k, _) =>
              && CopiesMarked(t.daemon, s.toggles[k].id, s.toggles[k].was) && t.mirror == s.mirror
              && t.toggles == s.toggles - {k}
            case ToggleGranted(k, list) =>
              && CopiesMarked(t.mirror, s.toggles[k].id, !s.toggles[k].was) && t.toggles == s.toggles - {k}
              && if list.Some? then t.daemon == Relisted(s.daemon, list.value) && t.mirror.starred == list.value
                 else t.daemon == s.daemon && t.mirror.starred == s.mirror.starred
  {
    match step
    case BeginToggle(k, id, src) =>
      var on := !IsStarred(s.daemon, id);
      SourceHasId(Over(s.daemon, Mark(id, on)), id, src);
      PassMarksEveryCopy(s.daemon, id, on, src);
    case ToggleRefused(k, src) =>
      var g := s.toggles[k];
      SourceHasId(Over(s.daemon, Mark(g.id, g.was)), g.id, src);
      PassMarksEveryCopy(s.daemon, g.id, g.was, src);
    case ToggleGranted(k, list) =>
      var g := s.toggles[k];
      MarksEveryCopy(s.mirror, g.id, !g.was);
      var marked, t := StarMirrored(s.mirror, g.id, !g.was), Next(s, step);
      assert t.mirror.(starred := [], starredIds := {}) == marked.(starred := [], starredIds := {});
      forall x | HoldsElsewhere(t.mirror, x) && x.id == g.id ensures x.starred == Marker(!g.was) {
        assert HoldsElsewhere(marked, x);
      }
  }

  // A refresh shows on both sides what its event carries.
  lemma RefreshShows(s: System, ev: Event)
    requires Enabled(s, Refreshed(ev)) && CachesCoherent(s.daemon) && CachesCoherent(s.mirror)
    ensures var t := Next(s, Refreshed(ev));
            && Carries(s.daemon, t.daemon, ev) && Frames(s.daemon, t.daemon, ev)
            && Carries(s.mirror, t.mirror, ev) && Frames(s.mirror, t.mirror, ev)
  {
    StoreCarries(s.daemon, ev);
    MirrorCarries(s.mirror, ev);
  }

  // A write shows on the daemon's side only; a duration is filled in once.
  lemma WriteStepShows(s: System, step: Step)
    requires step.WriteQueue? || step.WritePlaying? || step.MovePlayhead? || step.BackfillDuration?
    ensures var t, np := Next(s, step), s.daemon.playing;
            && t.mirror == s.mirror
            && match step
               case WriteQueue(queue, position) => t.daemon == s.daemon.(queue := queue, position := position)
               case WritePlaying(playing) => t.daemon == s.daemon.(playing := playing)
               case MovePlayhead(secs) => t.daemon == s.daemon.(playing := np.(position := secs))
               case BackfillDuration(secs) =>
                 && t.daemon == s.daemon.(playing := np.(duration := t.daemon.playing.duration))
                 && (np.duration > 0.0 || secs <= 0.0 ==> t.daemon.playing.duration == np.duration)
                 && (np.duration <= 0.0 < secs ==> t.daemon.playing.duration == secs)
  {
  }

  // A broadcast makes its part equal and leaves the daemon alone, a snapshot makes all parts equal.
  lemma BroadcastShows(s: System)
    ensures var t := Next(s, EmitQueue);
            && t.daemon == s.daemon && t.mirror == s.mirror.(queue := s.daemon.queue, position := s.daemon.position)
            && (t.cursor.Some? ==> t.cursor.value < |t.mirror.queue|)
    ensures var t := Next(s, EmitPlaying); t.daemon == s.daemon && t.mirror == s.mirror.(playing := s.daemon.playing)
    ensures var t := Next(s, Resnapshot); t.daemon == s.daemon && t.mirror == s.daemon
  {
  }

  // ----- runs

  ghost predicate IsRun(states: seq<System>, steps: seq<Step>) {
    && |states| == |steps| + 1
    && forall i {:trigger steps[i]} :: 0 <= i < |steps| ==>
         Enabled(states[i], steps[i]) && states[i + 1] == Next(states[i], steps[i])
  }

  ghost predicate Start(s: System) {
    s.mirror == s.daemon && s.request.None? && s.toggles == map[] && s.cursor.None? && s.dirt == CLEAN
  }

  // In every state of every run the mirror differs from the daemon at most as `dirt` records.
  lemma {:induction false} MirrorFollowsDaemon(states: seq<System>, steps: seq<Step>, i: nat)
    requires IsRun(states, steps) && Start(states[0]) && i < |states|
    ensures Alike(states[i].daemon, states[i].mirror, states[i].dirt)
  {
    if i > 0 {
      MirrorFollowsDaemon(states, steps, i - 1);
      StepKeepsInv(states[i - 1], steps[i - 1]);
    }
  }

  // The parts a step writes without carrying them, and those it carries whole.
  function Writes(step: Step): set<Part> {
    match step
    case BeginToggle(_, _, _) => {StarredList}
    case ToggleRefused(_, _) => {StarredList}
    case ToggleGranted(_, list) => if list.None? then {StarredList} else {}
    case WriteQueue(_, _) => {Rows}
    case WritePlaying(_) => PLAYING_PARTS
    case MovePlayhead(_) => {Playhead}
    case BackfillDuration(_) => {Duration}
    case _ => {}
  }

  function Carry(step: Step): set<Part> {
    match step
    case ToggleGranted(_, list) => if list.Some? then {StarredList} else {}
    case Refreshed(ev) => Carried(ev)
    case EmitQueue => {Rows}
    case EmitPlaying => PLAYING_PARTS
    case Resnapshot => {StarredList, Rows} + PLAYING_PARTS
    case _ => {}
  }

  lemma StepMovesParts(s: System, step: Step)
    requires Enabled(s, step)
    ensures Next(s, step).dirt.parts == s.dirt.parts - Carry(step) + Writes(step)
  {
    if step.Resnapshot? {
      forall p: Part ensures p in Carry(step) {
        match p
        case StarredList =>
        case Rows =>
        case Playhead =>
        case Duration =>
        case NowSong =>
      }
    }
  }

  // Step `j` wrote the part, and no step between it and `i` carried it.
  predicate LeftBy(steps: seq<Step>, j: nat, i: nat, p: Part)
    requires i <= |steps|
  {
    j < i && p in Writes(steps[j]) && forall n {:trigger steps[n]} :: j < n < i ==> p !in Carry(steps[n])
  }

  predicate Left(steps: seq<Step>, i: nat, p: Part)
    requires i <= |steps|
  {
    exists j: nat :: j < i && LeftBy(steps, j, i, p)
  }

  lemma LeftByOneMore(steps: seq<Step>, j: nat, last: nat, p: Part)
    requires last < |steps| && j < last
    ensures LeftBy(steps, j, last + 1, p) <==> LeftBy(steps, j, last, p) && p !in Carry(steps[last])
  {
  }

  lemma LeftOneMore(steps: seq<Step>, last: nat, p: Part)
    requires last < |steps|
    ensures Left(steps, last + 1, p) <==>
            p in Writes(steps[last]) || (Left(steps, last, p) && p !in Carry(steps[last]))
  {
    var i := last + 1;
    if Left(steps, i, p) {
      var j: nat :| j < i && LeftBy(steps, j, i, p);
      if j < last {
        LeftByOneMore(steps, j, last, p);
      }
    }
    if p in Writes(steps[last]) {
      assert LeftBy(steps, last, i, p);
    } else if Left(steps, last, p) && p !in Carry(steps[last]) {
      var j: nat :| j < last && LeftBy(steps, j, last, p);
      LeftByOneMore(steps, j, last, p);
      assert LeftBy(steps, j, i, p);
    }
  }

  // A part is unsettled exactly if it was written and not carried since.
  lemma {:induction false} UnsettledIff(states: seq<System>, steps: seq<Step>, i: nat, p: Part)
    requires IsRun(states, steps) && Start(states[0]) && i < |states|
    ensures p in states[i].dirt.parts <==> Left(steps, i, p)
  {
    if i > 0 {
      var last := i - 1;
      UnsettledIff(states, steps, last, p);
      StepMovesParts(states[last], steps[last]);
      assert p in states[i].dirt.parts <==>
             p in Writes(steps[last]) || (p in states[last].dirt.parts && p !in Carry(steps[last]));
      LeftOneMore(steps, last, p);
    }
  }

  // The step is no refusal of a rating, and no toggle.
  ghost predicate Granted(s: System, step: Step) {
    && (step.EndRating? && s.request.Some? ==> step.succeeded && s.request.value.generation == s.generation)
    && !step.BeginToggle?
  }

  // Ratings and markers in doubt, when every rating is granted and no star is toggled.
  ghost predicate OnlyRequested(s: System) {
    && s.toggles == map[] && s.dirt.stars == {}
    && s.dirt.ratings <= if s.request.Some? then {s.request.value.id} else {}
  }

  lemma GrantedKeepsOnlyRequested(s: System, step: Step)
    requires Enabled(s, step) && Granted(s, step) && OnlyRequested(s)
    ensures OnlyRequested(Next(s, step))
  {
  }

  lemma {:induction false} OnlyRequestedInDoubt(states: seq<System>, steps: seq<Step>, i: nat)
    requires IsRun(states, steps) && Start(states[0]) && i < |states|
    requires forall n :: 0 <= n < i ==> Granted(states[n], steps[n])
    ensures OnlyRequested(states[i])
  {
    if i > 0 {
      OnlyRequestedInDoubt(states, steps, i - 1);
      GrantedKeepsOnlyRequested(states[i - 1], steps[i - 1]);
    }
  }

  // If every rating was granted and no star toggled, the client shows the daemon's state, whenever no
  // request is in flight, exactly if the parts written and not carried since happen to agree.
  lemma MirrorExactIff(states: seq<System>, steps: seq<Step>, i: nat)
    requires IsRun(states, steps) && Start(states[0]) && i < |states| && states[i].request.None?
    requires forall n :: 0 <= n < i ==> Granted(states[n], steps[n])
    ensures states[i].daemon.(quickPlay := NonEmpty(states[i].daemon.quickPlay)) ==
            states[i].mirror.(quickPlay := NonEmpty(states[i].mirror.quickPlay)) <==>
            forall p :: Left(steps, i, p) ==> SamePart(p, states[i].daemon, states[i].mirror)
  {
    var s := states[i];
    OnlyRequestedInDoubt(states, steps, i);
    MirrorFollowsDaemon(states, steps, i);
    SettledIff(s.daemon, s.mirror, s.dirt);
    CleanMeansEqual(s.daemon, s.mirror);
    forall p ensures p in s.dirt.parts <==> Left(steps, i, p) {
      UnsettledIff(states, steps, i, p);
    }
  }

  // ----- a change of server

  lemma RequestWaits(s: System, step: Step)
    requires Enabled(s, step) && s.request.Some? && !step.EndRating?
    ensures Next(s, step).request == s.request
    ensures Next(s, step).generation == s.generation + if step.ServerReplaced? then 1 else 0
  {
  }

  lemma {:induction false} RequestKept(states: seq<System>, steps: seq<Step>, i: nat, j: nat)
    requires IsRun(states, steps) && i < j < |states| && steps[i].BeginRating?
    requires forall n {:trigger steps[n]} :: i < n < j ==> !steps[n].EndRating?
    ensures states[j].request.Some? && states[j].request.value.generation == states[i].generation
    ensures states[i].generation <= states[j].generation
    ensures (exists m :: i < m < j && steps[m] == ServerReplaced) <==> states[i].generation < states[j].generation
  {
    var last := j - 1;
    if i < last {
      RequestKept(states, steps, i, last);
      RequestWaits(states[last], steps[last]);
    }
  }

  lemma {:induction false} RequestIs(states: seq<System>, steps: seq<Step>, i: nat, j: nat)
    requires IsRun(states, steps) && i < j < |states| && steps[i].BeginRating?
    requires forall n {:trigger steps[n]} :: i < n < j ==> !steps[n].EndRating?
    ensures states[j].request ==
            Some(Request(steps[i].id, Normalized(steps[i].stars), steps[i].before, states[i].generation))
  {
    var last := j - 1;
    if i < last {
      RequestIs(states, steps, i, last);
      RequestWaits(states[last], steps[last]);
    }
  }

  // A reply takes effect exactly if the server was not replaced since the request began.
  lemma StaleReplyChangesNothing(states: seq<System>, steps: seq<Step>, i: nat, j: nat)
    requires IsRun(states, steps) && i < j < |steps| && steps[i].BeginRating? && steps[j].EndRating?
    requires forall n {:trigger steps[n]} :: i < n < j ==> !steps[n].EndRating?
    ensures if exists m :: i < m < j && steps[m] == ServerReplaced then
              states[j + 1].daemon == states[j].daemon && states[j + 1].mirror == states[j].mirror
            else
              CopiesRated(states[j + 1].daemon, steps[i].id,
                          if steps[j].succeeded then Normalized(steps[i].stars) else steps[i].before)
  {
    RequestKept(states, steps, i, j);
    RequestIs(states, steps, i, j);
    EndedRatingShows(states[j], states[j].request.value, steps[j].succeeded);
  }

  // ----- refusals

  // A refused rating leaves the song's ratings alike exactly when all copies the client shows carry
  // the rating rolled back to.
  lemma RefusalConvergesIff(s: System)
    requires Inv(s) && s.request.Some? && s.request.value.generation == s.generation
    ensures var r, t := s.request.value, Next(s, EndRating(false));
            Alike(t.daemon, t.mirror, s.dirt.(ratings := s.dirt.ratings - {r.id})) <==>
            ShownRated(s.mirror, s.dirt.parts, r.id, r.before)
  {
    var r := s.request.value;
    RefusedRatingIff(s.daemon, s.mirror, s.dirt, r.id, r.before);
  }

  // So a queue broadcast during the request makes the client keep showing a refused rating.
  lemma RefusedRatingStaysVisible(s: System, id: string, stars: nat, before: Option<nat>)
    requires s.request.None? && IsOldRating(s.daemon, id, before)
    requires Has(s.daemon.queue, id) && Normalized(stars) != before
    ensures var s1 := Next(s, BeginRating(id, stars, before));
            var s3 := Next(Next(s1, EmitQueue), EndRating(false));
            && s3.mirror.queue == SetRating(s.daemon, id, Normalized(stars)).queue
            && s3.daemon.queue == SetRating(s.daemon, id, before).queue
            && s3.mirror.queue != s3.daemon.queue
  {
    var s1 := Next(s, BeginRating(id, stars, before));
    var s3 := Next(Next(s1, EmitQueue), EndRating(false));
    RatingTwice(s.daemon, id, Normalized(stars), before);
    var i :| 0 <= i < |s.daemon.queue| && s.daemon.queue[i].id == id;
    assert s3.mirror.queue[i].userRating == Normalized(stars) && s3.daemon.queue[i].userRating == before;
  }

  lemma AllMarked(l: Library, id: string, on: bool, src: Option<Child>)
    ensures ShownMarked(ApplyStar(l, id, on, src), {StarredList}, id, on)
  {
    var e := l.(starred := []);
    MarkTwice(e, id, on, on);
    MarkedAlreadyIff(Over(e, Mark(id, on)), id, on);
    var r := ApplyStar(l, id, on, src);
    forall s | Shows(r, {StarredList}, s) && s.id == id ensures s.starred == Marker(on) {
      assert HoldsElsewhere(Over(e, Mark(id, on)), s);
    }
  }

  // A toggle granted at once, with the fresh list, leaves a clean mirror clean.
  lemma GrantedToggleMirrors(s: System, k: nat, id: string, src: Option<Child>, list: seq<Child>)
    requires s.mirror == s.daemon && s.dirt == CLEAN && Enabled(s, BeginToggle(k, id, src))
    ensures var t := Next(Next(s, BeginToggle(k, id, src)), ToggleGranted(k, Some(list)));
            t.dirt == CLEAN && Alike(t.daemon, t.mirror, CLEAN)
  {
    var was := IsStarred(s.daemon, id);
    var u := Next(s, BeginToggle(k, id, src));
    assert Inv(s);
    StepKeepsInv(s, BeginToggle(k, id, src));
    StepKeepsInv(u, ToggleGranted(k, Some(list)));
    AllMarked(s.daemon, id, !was, src);
    assert u.dirt.parts + {StarredList} == {StarredList};
  }

  lemma BegunAtOnce(s: System, k: nat, id: string, src: Option<Child>)
    requires Enabled(s, BeginToggle(k, id, src))
    ensures var was, u := IsStarred(s.daemon, id), Next(s, BeginToggle(k, id, src));
            && u.mirror == s.mirror && u.daemon == ApplyStar(s.daemon, id, !was, src)
            && k in u.toggles && u.toggles[k] == Toggle(id, was, s.generation)
  {
  }

  lemma UndoneAtOnce(u: System, k: nat, src: Option<Child>)
    requires Enabled(u, ToggleRefused(k, src))
    ensures var t, r := u.toggles[k], Next(u, ToggleRefused(k, src));
            r.mirror == u.mirror && r.daemon == ApplyStar(u.daemon, t.id, t.was, src)
  {
  }

  lemma UnstarNeedsNoSource(l: Library, id: string, src: Option<Child>)
    ensures ApplyStar(l, id, false, src) == ApplyStar(l, id, false, None)
  {
  }

  // A toggle refused at once leaves a clean mirror equal to the daemon exactly if the daemon's two
  // passes cancelled out.
  lemma RefusedToggleMirrorsIff(s: System, k: nat, id: string, src1: Option<Child>, src2: Option<Child>)
    requires s.mirror == s.daemon && Enabled(s, BeginToggle(k, id, src1))
    requires Enabled(Next(s, BeginToggle(k, id, src1)), ToggleRefused(k, src2))
    ensures var was, l := IsStarred(s.daemon, id), s.daemon;
            var t := Next(Next(s, BeginToggle(k, id, src1)), ToggleRefused(k, src2));
            t.daemon == t.mirror <==>
            if was then CopiesMarked(l, id, true) && id in l.starredIds && TailIs(l.starred, id, src2)
            else !Has(l.starred, id) && !PlaysMarked(l, id)
  {
    var l := s.daemon;
    BegunAtOnce(s, k, id, src1);
    UndoneAtOnce(Next(s, BeginToggle(k, id, src1)), k, src2);
    if IsStarred(l, id) {
      UnstarNeedsNoSource(l, id, src1);
      RefusedUnstarRestoresIff(l, id, src2);
    } else {
      UnstarNeedsNoSource(ApplyStar(l, id, true, src1), id, src2);
      RefusedStarRestoresIff(l, id, src1);
    }
  }

  // ----- the client's queue cursor

  predicate CursorValid(s: System) {
    s.cursor.Some? ==> s.cursor.value < |s.mirror.queue|
  }

  // Only the user and a queue broadcast move the cursor. Every step keeps it on a row, except a
  // snapshot that shortens the queue below it.
  lemma CursorStaysValidIff(s: System, step: Step)
    requires CursorValid(s) && Enabled(s, step)
    ensures CursorValid(Next(s, step)) <==>
            !(step.Resnapshot? && s.cursor.Some? && s.cursor.value >= |s.daemon.queue|)
    ensures step.SelectRow? ==> Next(s, step).cursor == Some(step.row)
    ensures !step.SelectRow? && !step.EmitQueue? ==> Next(s, step).cursor == s.cursor
  {
    assert |s.mirror.queue| == |OverList(s.mirror.queue, Same())|;
    if step.EndRating? || step.ToggleGranted? {
      var t := Next(s, step);
      assert |t.mirror.queue| == |s.mirror.queue|;
    }
  }
}
