// How songs get into the queue: the playback filters, the filtering loop that keeps track of the
// chosen song, and the choice of random songs for auto-continue.
module Admission {
  import opened Wrappers
  import opened Models

  datatype Filters = Filters(
    minRating: nat,
    yearMin: Option<int>, yearMax: Option<int>,
    durationMin: Option<nat>, durationMax: Option<nat>,
    excludedGenres: seq<string>, excludedArtists: seq<string>)

  function AsciiLower(c: char): char {
    if 'A' <= c <= 'Z' then (c as int + 32) as char else c
  }

  predicate EqIgnoreAsciiCase(a: string, b: string) {
    |a| == |b| && forall i :: 0 <= i < |a| ==> AsciiLower(a[i]) == AsciiLower(b[i])
  }

  predicate AnyMatches(names: seq<string>, name: string) {
    exists i :: 0 <= i < |names| && EqIgnoreAsciiCase(names[i], name)
  }

  // Each criterion excludes only on data the song has; a negative duration counts as unknown.
  predicate PassesFilters(song: Child, f: Filters) {
    if f.minRating > 0 && song.userRating.Some? && song.userRating.value <= f.minRating then false
    else if song.year.Some? && f.yearMin.Some? && song.year.value < f.yearMin.value then false
    else if song.year.Some? && f.yearMax.Some? && song.year.value > f.yearMax.value then false
    else if song.duration.Some? && song.duration.value >= 0 && f.durationMin.Some?
            && song.duration.value < f.durationMin.value then false
    else if song.duration.Some? && song.duration.value >= 0 && f.durationMax.Some?
            && song.duration.value > f.durationMax.value then false
    else if song.genre.Some? && AnyMatches(f.excludedGenres, song.genre.value) then false
    else if song.artist.Some? && AnyMatches(f.excludedArtists, song.artist.value) then false
    else true
  }

  // A song passes exactly if every criterion that is set, and for which it has data, accepts it.
  lemma PassesIff(song: Child, f: Filters)
    ensures PassesFilters(song, f) <==>
            && (f.minRating == 0 || song.userRating.None? || f.minRating + 1 <= song.userRating.value)
            && (song.year.None? || f.yearMin.None? || f.yearMin.value <= song.year.value)
            && (song.year.None? || f.yearMax.None? || song.year.value <= f.yearMax.value)
            && (song.duration.None? || song.duration.value < 0
                || (&& (f.durationMin.None? || f.durationMin.value <= song.duration.value)
                    && (f.durationMax.None? || song.duration.value <= f.durationMax.value)))
            && (song.genre.None? ||
                forall i :: 0 <= i < |f.excludedGenres| ==> !EqIgnoreAsciiCase(f.excludedGenres[i], song.genre.value))
            && (song.artist.None? ||
                forall i :: 0 <= i < |f.excludedArtists| ==> !EqIgnoreAsciiCase(f.excludedArtists[i], song.artist.value))
  {
  }

  // A capital becomes the small letter in the same place, anything else stays.
  lemma SmallLettersByPlace(c: char, i: nat)
    ensures i < 26 ==> AsciiLower("ABCDEFGHIJKLMNOPQRSTUVWXYZ"[i]) == "abcdefghijklmnopqrstuvwxyz"[i]
    ensures c !in "ABCDEFGHIJKLMNOPQRSTUVWXYZ" ==> AsciiLower(c) == c
  {
    if 'A' <= c <= 'Z' {
      assert c == "ABCDEFGHIJKLMNOPQRSTUVWXYZ"[c as int - 65];
    }
  }

  function Lowered(s: string): string {
    seq(|s|, i requires 0 <= i < |s| => AsciiLower(s[i]))
  }

  // Names match exactly if they are the same string in small letters.
  lemma MatchesUpToCaseIff(a: string, b: string)
    ensures EqIgnoreAsciiCase(a, b) <==> Lowered(a) == Lowered(b)
  {
    if Lowered(a) == Lowered(b) {
      assert |Lowered(a)| == |Lowered(b)|;
      forall i | 0 <= i < |a| ensures AsciiLower(a[i]) == AsciiLower(b[i]) {
        assert Lowered(a)[i] == Lowered(b)[i];
      }
    }
  }

  // `g` excludes at least what `f` excludes, criterion by criterion.
  predicate Tighter(g: Filters, f: Filters) {
    && f.minRating <= g.minRating
    && (f.yearMin.Some? ==> g.yearMin.Some? && f.yearMin.value <= g.yearMin.value)
    && (f.yearMax.Some? ==> g.yearMax.Some? && g.yearMax.value <= f.yearMax.value)
    && (f.durationMin.Some? ==> g.durationMin.Some? && f.durationMin.value <= g.durationMin.value)
    && (f.durationMax.Some? ==> g.durationMax.Some? && g.durationMax.value <= f.durationMax.value)
    && f.excludedGenres <= g.excludedGenres && f.excludedArtists <= g.excludedArtists
  }

  lemma MoreNamesMatchMore(names: seq<string>, more: seq<string>, name: string)
    ensures names <= more && AnyMatches(names, name) ==> AnyMatches(more, name)
  {
    if names <= more && AnyMatches(names, name) {
      var i :| 0 <= i < |names| && EqIgnoreAsciiCase(names[i], name);
      assert more[i] == names[i];
    }
  }

  lemma TighterFiltersOnlyRemove(song: Child, f: Filters, g: Filters)
    requires Tighter(g, f) && PassesFilters(song, g)
    ensures PassesFilters(song, f)
  {
    if song.genre.Some? {
      MoreNamesMatchMore(f.excludedGenres, g.excludedGenres, song.genre.value);
    }
    if song.artist.Some? {
      MoreNamesMatchMore(f.excludedArtists, g.excludedArtists, song.artist.value);
    }
  }

  // The documented rating rule: songs rated 1 up to the minimum are excluded.
  predicate PassesDocumented(song: Child, f: Filters) {
    && !(song.userRating.Some? && 1 <= song.userRating.value <= f.minRating)
    && PassesFilters(song.(userRating := None), f)
  }

  // The code differs from it exactly on songs rated 0 that nothing else excludes, while a minimum
  // rating is set.
  lemma RatingRuleDiffersIff(song: Child, f: Filters)
    ensures PassesFilters(song, f) != PassesDocumented(song, f) <==>
            f.minRating > 0 && song.userRating == Some(0) && PassesFilters(song.(userRating := None), f)
    ensures PassesFilters(song, f) ==> PassesDocumented(song, f)
  {
  }

  lemma RatedZeroIsExcluded()
    ensures exists song, f :: PassesDocumented(song, f) && !PassesFilters(song, f)
  {
    var song := Child("a", Some(0), None, None, None, None, None);
    var f := Filters(1, None, None, None, None, [], []);
    assert PassesDocumented(song, f) && !PassesFilters(song, f);
  }

  // ----- the filtering loop

  // The order-preserving filter.
  function Admitted(songs: seq<Child>, f: Filters): (r: seq<Child>)
    ensures |r| <= |songs|
  {
    if songs == [] then []
    else
      var n := |songs| - 1;
      Admitted(songs[..n], f) + if PassesFilters(songs[n], f) then [songs[n]] else []
  }

  // Where entry `i` ends up: behind the admitted songs before it, or nowhere.
  function AdmittedIndex(songs: seq<Child>, i: Option<nat>, f: Filters): Option<nat> {
    if i.Some? && i.value < |songs| && PassesFilters(songs[i.value], f) then Some(|Admitted(songs[..i.value], f)|) else None
  }

  method FilterTrackingIndex(songs: seq<Child>, trackIndex: Option<nat>, f: Filters)
    returns (filtered: seq<Child>, newIndex: Option<nat>)
    ensures filtered == Admitted(songs, f)
    ensures newIndex == AdmittedIndex(songs, trackIndex, f)
  {
    filtered, newIndex := [], None;
    for i := 0 to |songs|
      invariant filtered == Admitted(songs[..i], f)
      invariant newIndex == if trackIndex.Some? && trackIndex.value < i then AdmittedIndex(songs, trackIndex, f) else None
    {
      assert songs[..i + 1][..i] == songs[..i];
      if PassesFilters(songs[i], f) {
        if trackIndex == Some(i) {
          newIndex := Some(|filtered|);
        }
        filtered := filtered + [songs[i]];
      }
    }
    assert songs[..|songs|] == songs;
  }

  // The admitted songs are exactly the passing ones, and the tracked index is that very
  // occurrence: distinct passing entries, even with equal ids, land on distinct places in order.
  lemma {:induction false} AdmittedKeepsOccurrence(songs: seq<Child>, f: Filters, i: nat)
    requires i < |songs| && PassesFilters(songs[i], f)
    ensures |Admitted(songs[..i], f)| < |Admitted(songs, f)|
    ensures Admitted(songs, f)[|Admitted(songs[..i], f)|] == songs[i]
    ensures Admitted(songs[..i + 1], f) == Admitted(songs[..i], f) + [songs[i]]
  {
    var n := |songs| - 1;
    assert songs[..i + 1][..i] == songs[..i];
    if i < n {
      assert songs[..n][..i] == songs[..i];
      assert songs[..n][..i + 1] == songs[..i + 1];
      AdmittedKeepsOccurrence(songs[..n], f, i);
    }
  }

  lemma {:induction false} AdmittedGrows(songs: seq<Child>, f: Filters, i: nat, j: nat)
    requires i <= j <= |songs|
    ensures |Admitted(songs[..i], f)| <= |Admitted(songs[..j], f)|
  {
    if i < j {
      AdmittedGrows(songs, f, i, j - 1);
      assert songs[..j][..j - 1] == songs[..j - 1];
    }
  }

  lemma TrackedIndexIsInjective(songs: seq<Child>, f: Filters, i: nat, j: nat)
    requires i < j < |songs| && PassesFilters(songs[i], f) && PassesFilters(songs[j], f)
    ensures AdmittedIndex(songs, Some(i), f).Some? && AdmittedIndex(songs, Some(j), f).Some?
    ensures AdmittedIndex(songs, Some(i), f).value < AdmittedIndex(songs, Some(j), f).value
  {
    AdmittedKeepsOccurrence(songs, f, i);
    AdmittedGrows(songs, f, i + 1, j);
  }

  lemma {:induction false} OnlyPassingAdmitted(songs: seq<Child>, f: Filters)
    ensures forall s :: s in Admitted(songs, f) <==> s in songs && PassesFilters(s, f)
  {
    if songs != [] {
      var n := |songs| - 1;
      OnlyPassingAdmitted(songs[..n], f);
      assert songs == songs[..n] + [songs[n]];
    }
  }

  // Filtering what was filtered changes nothing.
  lemma {:induction false} AdmissionIsIdempotent(songs: seq<Child>, f: Filters)
    ensures Admitted(Admitted(songs, f), f) == Admitted(songs, f)
  {
    if songs != [] {
      var n := |songs| - 1;
      var before, r := Admitted(songs[..n], f), Admitted(songs, f);
      AdmissionIsIdempotent(songs[..n], f);
      if PassesFilters(songs[n], f) {
        assert r[..|r| - 1] == before;
      } else {
        assert r == before;
      }
    }
  }

  // Replacing the queue starts at the tracked song, or at the first one if that was filtered out.
  function PlayFrom(songs: seq<Child>, wanted: Option<nat>, f: Filters): Option<nat> {
    var tracked := AdmittedIndex(songs, wanted, f);
    if tracked.Some? then tracked else if wanted.Some? then Some(0) else None
  }

  lemma PlayFromIsInBounds(songs: seq<Child>, wanted: Option<nat>, f: Filters)
    ensures PlayFrom(songs, wanted, f).Some? <==> wanted.Some?
    ensures wanted.Some? && Admitted(songs, f) != [] ==> PlayFrom(songs, wanted, f).value < |Admitted(songs, f)|
    ensures wanted.Some? && wanted.value < |songs| && PassesFilters(songs[wanted.value], f) ==>
              && PlayFrom(songs, wanted, f).value < |Admitted(songs, f)|
              && Admitted(songs, f)[PlayFrom(songs, wanted, f).value] == songs[wanted.value]
  {
    if wanted.Some? && wanted.value < |songs| && PassesFilters(songs[wanted.value], f) {
      AdmittedKeepsOccurrence(songs, f, wanted.value);
    }
  }

  // ----- random songs for auto-continue

  const ATTEMPTS: nat := 3
  const LOOKAHEAD: nat := 20

  datatype Fetch = Batch(songs: seq<Child>) | FetchError

  function Take(songs: seq<Child>, n: nat): seq<Child> {
    if |songs| <= n then songs else songs[..n]
  }

  function IdSet(songs: seq<Child>): set<string> {
    set i | 0 <= i < |songs| :: songs[i].id
  }

  // Passing songs of the batch whose id shows up for the first time.
  function Fresh(batch: seq<Child>, seen: set<string>, f: Filters): seq<Child> {
    if batch == [] then []
    else
      var n := |batch| - 1;
      Fresh(batch[..n], seen, f)
      + if batch[n].id !in seen + IdSet(batch[..n]) && PassesFilters(batch[n], f) then [batch[n]] else []
  }

  // The choice as a function of the batches the server answers with.
  function Pick(fetched: seq<Fetch>, seen: set<string>, fallback: seq<Child>, f: Filters): Option<seq<Child>> {
    if fetched == [] then Some(Take(fallback, LOOKAHEAD))
    else
      match fetched[0]
      case FetchError => None
      case Batch(batch) =>
        if batch == [] then Some(Take(fallback, LOOKAHEAD))
        else
          var picked := Fresh(batch, seen, f);
          if picked != [] then Some(Take(picked, LOOKAHEAD))
          else Pick(fetched[1..], seen + IdSet(batch), if fallback == [] then batch else fallback, f)
  }

  lemma IdSetStep(songs: seq<Child>, n: nat)
    requires n < |songs|
    ensures IdSet(songs[..n + 1]) == IdSet(songs[..n]) + {songs[n].id}
    ensures songs[..n + 1][..n] == songs[..n]
  {
    var a, b := songs[..n], songs[..n + 1];
    assert b == a + [songs[n]];
    forall id | id in IdSet(a) ensures id in IdSet(b) {
      var i :| 0 <= i < |a| && a[i].id == id;
      assert b[i].id == id;
    }
    assert b[n].id == songs[n].id;
    forall id | id in IdSet(b) ensures id in IdSet(a) + {songs[n].id} {
      var i :| 0 <= i < |b| && b[i].id == id;
      if i < n {
        assert a[i].id == id;
      }
    }
  }

  lemma {:induction false} FreshPrefix(batch: seq<Child>, seen: set<string>, f: Filters, i: nat)
    requires i <= |batch|
    ensures Fresh(batch[..i], seen, f) <= Fresh(batch, seen, f)
  {
    if i < |batch| {
      var n := |batch| - 1;
      FreshPrefix(batch[..n], seen, f, i);
      assert batch[..n][..i] == batch[..i];
    } else {
      assert batch[..i] == batch;
    }
  }

  // The songs of one batch, up to the lookahead.
  method TakeFresh(batch: seq<Child>, seen0: set<string>, f: Filters) returns (picked: seq<Child>, seen: set<string>)
    ensures picked == Take(Fresh(batch, seen0, f), LOOKAHEAD)
    ensures picked == [] ==> seen == seen0 + IdSet(batch)
  {
    picked, seen := [], seen0;
    var i := 0;
    while i < |batch| && |picked| < LOOKAHEAD
      invariant i <= |batch| && picked == Fresh(batch[..i], seen0, f) && |picked| <= LOOKAHEAD
      invariant seen == seen0 + IdSet(batch[..i])
    {
      IdSetStep(batch, i);
      var song := batch[i];
      if song.id !in seen && PassesFilters(song, f) {
        picked := picked + [song];
      }
      seen := seen + {song.id};
      i := i + 1;
    }
    FreshPrefix(batch, seen0, f, i);
    if i == |batch| {
      assert batch[..i] == batch;
    }
  }

  // `fetched` are the server's answers, one per attempt; `None` is a fetch failure.
  method PickUnplayedRandom(queue: seq<Child>, f: Filters, fetched: seq<Fetch>) returns (r: Option<seq<Child>>)
    requires |fetched| == ATTEMPTS
    ensures r == Pick(fetched, IdSet(queue), [], f)
  {
    var seen, picked, fallback := IdSet(queue), [], [];
    var attempt := 0;
    while attempt < ATTEMPTS
      invariant attempt <= ATTEMPTS && picked == []
      invariant Pick(fetched, IdSet(queue), [], f) == Pick(fetched[attempt..], seen, fallback, f)
    {
      assert fetched[attempt..][1..] == fetched[attempt + 1..];
      if fetched[attempt].FetchError? {
        return None;
      }
      var batch := fetched[attempt].songs;
      if batch == [] {
        break;
      }
      if fallback == [] {
        fallback := batch;
      }
      picked, seen := TakeFresh(batch, seen, f);
      if picked != [] {
        return Some(picked);
      }
      attempt := attempt + 1;
    }
    return Some(Take(fallback, LOOKAHEAD));
  }

  // ----- what the choice guarantees

  predicate FirstSeenAt(batch: seq<Child>, seen: set<string>, i: nat)
    requires i < |batch|
  {
    batch[i].id !in seen && forall j :: 0 <= j < i ==> batch[j].id != batch[i].id
  }

  // Distinct songs of `source` that pass the filters and whose ids are not among `seen`.
  ghost predicate GoodChoice(r: seq<Child>, source: seq<Child>, seen: set<string>, f: Filters) {
    && (forall i :: 0 <= i < |r| ==> r[i] in source)
    && (forall i :: 0 <= i < |r| ==> PassesFilters(r[i], f))
    && (forall i :: 0 <= i < |r| ==> r[i].id !in seen)
    && (forall i, j :: 0 <= i < j < |r| ==> r[i].id != r[j].id)
  }

  lemma {:induction false} FreshSongsAreGood(batch: seq<Child>, seen: set<string>, f: Filters)
    ensures GoodChoice(Fresh(batch, seen, f), batch, seen, f)
  {
    if batch != [] {
      var n := |batch| - 1;
      var shorter, r := batch[..n], Fresh(batch, seen, f);
      var before := Fresh(shorter, seen, f);
      FreshSongsAreGood(shorter, seen, f);
      forall i | 0 <= i < |before| ensures before[i].id in IdSet(shorter) && before[i] in batch {
        assert before[i] in shorter;
        var k :| 0 <= k < |shorter| && shorter[k] == before[i];
        assert shorter[k].id in IdSet(shorter) && shorter[k] == batch[k];
      }
      assert r == before || (r == before + [batch[n]] && batch[n].id !in IdSet(shorter));
    }
  }

  lemma ChoiceFromMore(r: seq<Child>, n: nat, source: seq<Child>, seen: set<string>,
                       more: seq<Child>, fewer: set<string>, f: Filters)
    requires GoodChoice(r, source, seen, f)
    requires fewer <= seen && forall s :: s in source ==> s in more
    ensures GoodChoice(Take(r, n), more, fewer, f)
  {
  }

  lemma LastIsFirstSeenIff(batch: seq<Child>, seen: set<string>)
    requires batch != []
    ensures var n := |batch| - 1; FirstSeenAt(batch, seen, n) <==> batch[n].id !in seen + IdSet(batch[..n])
  {
    var n := |batch| - 1;
    var shorter := batch[..n];
    if batch[n].id in IdSet(shorter) {
      var k :| 0 <= k < n && shorter[k].id == batch[n].id;
      assert batch[k].id == batch[n].id;
    } else {
      forall j | 0 <= j < n ensures batch[j].id != batch[n].id {
        assert shorter[j].id in IdSet(shorter);
      }
    }
  }

  lemma EarlierFirstSeenIff(batch: seq<Child>, seen: set<string>, n: nat, i: nat)
    requires i < n <= |batch|
    ensures batch[..n][i] == batch[i] && (FirstSeenAt(batch, seen, i) <==> FirstSeenAt(batch[..n], seen, i))
  {
    assert forall j :: 0 <= j < n ==> batch[..n][j] == batch[j];
  }

  predicate Rejected(batch: seq<Child>, seen: set<string>, f: Filters, i: nat)
    requires i < |batch|
  {
    FirstSeenAt(batch, seen, i) ==> !PassesFilters(batch[i], f)
  }

  // A batch yields nothing exactly when it has no passing song whose id is new.
  lemma {:induction false} NothingFreshIff(batch: seq<Child>, seen: set<string>, f: Filters)
    ensures Fresh(batch, seen, f) == [] <==> forall i :: 0 <= i < |batch| ==> Rejected(batch, seen, f, i)
  {
    if batch != [] {
      var n := |batch| - 1;
      var shorter := batch[..n];
      NothingFreshIff(shorter, seen, f);
      LastIsFirstSeenIff(batch, seen);
      assert Fresh(batch, seen, f) == [] <==> Fresh(shorter, seen, f) == [] && Rejected(batch, seen, f, n);
      forall i | 0 <= i < n ensures Rejected(batch, seen, f, i) <==> Rejected(shorter, seen, f, i) {
        EarlierFirstSeenIff(batch, seen, n, i);
      }
    }
  }

  // Songs of the answers up to the first empty one, in order.
  function Offered(fetched: seq<Fetch>): seq<Child> {
    if fetched == [] || fetched[0].FetchError? || fetched[0].songs == [] then []
    else fetched[0].songs + Offered(fetched[1..])
  }

  lemma IdSetConcat(a: seq<Child>, b: seq<Child>)
    ensures IdSet(a + b) == IdSet(a) + IdSet(b)
  {
    forall id | id in IdSet(a) + IdSet(b) ensures id in IdSet(a + b) {
      if id in IdSet(a) {
        var i :| 0 <= i < |a| && a[i].id == id;
        assert (a + b)[i].id == id;
      } else {
        var i :| 0 <= i < |b| && b[i].id == id;
        assert (a + b)[|a| + i].id == id;
      }
    }
  }

  lemma {:induction false} FreshConcat(a: seq<Child>, b: seq<Child>, seen: set<string>, f: Filters)
    ensures Fresh(a + b, seen, f) == Fresh(a, seen, f) + Fresh(b, seen + IdSet(a), f)
  {
    if b == [] {
      assert a + b == a;
    } else {
      var n := |b| - 1;
      assert (a + b)[..|a + b| - 1] == a + b[..n];
      FreshConcat(a, b[..n], seen, f);
      IdSetConcat(a, b[..n]);
      assert seen + IdSet(a + b[..n]) == seen + IdSet(a) + IdSet(b[..n]);
    }
  }

  // What auto-continue gets: at most 20 songs; either a good choice among the offered songs, the first
  // ones in their order, or, when no offered song with a new id passes, the head of the first batch.
  lemma {:induction false} PickGuarantee(fetched: seq<Fetch>, seen: set<string>, fallback: seq<Child>, f: Filters)
    requires Pick(fetched, seen, fallback, f).Some?
    ensures var r := Pick(fetched, seen, fallback, f).value;
            && |r| <= LOOKAHEAD
            && if Fresh(Offered(fetched), seen, f) != []
               then r != [] && GoodChoice(r, Offered(fetched), seen, f) && r <= Fresh(Offered(fetched), seen, f)
               else r == Take(if fallback == [] && Offered(fetched) != [] then fetched[0].songs else fallback, LOOKAHEAD)
  {
    if fetched != [] && fetched[0].Batch? && fetched[0].songs != [] {
      var batch, rest := fetched[0].songs, Offered(fetched[1..]);
      var picked, seen' := Fresh(batch, seen, f), seen + IdSet(batch);
      FreshConcat(batch, rest, seen, f);
      assert Offered(fetched) == batch + rest;
      if picked != [] {
        FreshSongsAreGood(batch, seen, f);
        ChoiceFromMore(picked, LOOKAHEAD, batch, seen, batch + rest, seen, f);
      } else {
        PickGuarantee(fetched[1..], seen', if fallback == [] then batch else fallback, f);
        var r := Pick(fetched, seen, fallback, f).value;
        if Fresh(rest, seen', f) != [] {
          ChoiceFromMore(r, LOOKAHEAD, rest, seen', batch + rest, seen, f);
        }
      }
    }
  }

  // The first `n` attempts answered with songs.
  predicate Answered(fetched: seq<Fetch>, n: nat)
    requires n <= |fetched|
  {
    forall m :: 0 <= m < n ==> fetched[m].Batch? && fetched[m].songs != []
  }

  // Attempt `n` fails, and all before it answered without offering anything to choose.
  ghost predicate FailsAt(fetched: seq<Fetch>, seen: set<string>, f: Filters, n: nat) {
    n < |fetched| && fetched[n].FetchError? && Answered(fetched, n) && Fresh(Offered(fetched[..n]), seen, f) == []
  }

  lemma AnsweredLater(fetched: seq<Fetch>, n: nat)
    requires 0 < n <= |fetched| && fetched[0].Batch? && fetched[0].songs != []
    ensures Answered(fetched, n) <==> Answered(fetched[1..], n - 1)
  {
    if Answered(fetched[1..], n - 1) {
      forall m | 0 <= m < n ensures fetched[m].Batch? && fetched[m].songs != [] {
        assert m > 0 ==> fetched[m] == fetched[1..][m - 1];
      }
    }
  }

  lemma OfferedLater(fetched: seq<Fetch>, seen: set<string>, f: Filters, n: nat)
    requires 0 < n <= |fetched| && fetched[0].Batch? && fetched[0].songs != []
    ensures var batch := fetched[0].songs;
            Fresh(Offered(fetched[..n]), seen, f) ==
            Fresh(batch, seen, f) + Fresh(Offered(fetched[1..][..n - 1]), seen + IdSet(batch), f)
  {
    assert fetched[..n][1..] == fetched[1..][..n - 1];
    FreshConcat(fetched[0].songs, Offered(fetched[1..][..n - 1]), seen, f);
  }

  lemma FailsLater(fetched: seq<Fetch>, seen: set<string>, f: Filters, n: nat)
    requires fetched != [] && fetched[0].Batch? && fetched[0].songs != [] && n > 0
    ensures var batch := fetched[0].songs;
            FailsAt(fetched, seen, f, n) <==>
            Fresh(batch, seen, f) == [] && FailsAt(fetched[1..], seen + IdSet(batch), f, n - 1)
  {
    if n < |fetched| {
      AnsweredLater(fetched, n);
      OfferedLater(fetched, seen, f, n);
    }
  }

  // It gets nothing at all exactly if such an attempt fails.
  lemma {:induction false} PickFailsIff(fetched: seq<Fetch>, seen: set<string>, fallback: seq<Child>, f: Filters)
    ensures Pick(fetched, seen, fallback, f).None? <==> exists n: nat :: FailsAt(fetched, seen, f, n)
  {
    if fetched == [] {
    } else if fetched[0].FetchError? {
      assert Offered(fetched[..0]) == [];
      assert FailsAt(fetched, seen, f, 0);
    } else if fetched[0].songs != [] {
      var batch := fetched[0].songs;
      PickFailsIff(fetched[1..], seen + IdSet(batch), if fallback == [] then batch else fallback, f);
      if n: nat :| FailsAt(fetched, seen, f, n) {
        FailsLater(fetched, seen, f, n);
      } else if n: nat :| FailsAt(fetched[1..], seen + IdSet(batch), f, n) {
        FailsLater(fetched, seen, f, n + 1);
      }
    }
  }

  lemma {:induction false} FirstWithId(songs: seq<Child>, i: nat) returns (k: nat)
    requires i < |songs|
    ensures k <= i && songs[k].id == songs[i].id && forall j :: 0 <= j < k ==> songs[j].id != songs[k].id
  {
    if j :| 0 <= j < i && songs[j].id == songs[i].id {
      k := FirstWithId(songs, j);
    } else {
      k := i;
    }
  }

  // When equal ids mean equal verdicts, as for a server's own songs, the fallback is taken
  // exactly when no offered song outside the queue passes.
  lemma FallbackIffNonePasses(offered: seq<Child>, seen: set<string>, f: Filters)
    requires forall i, j :: 0 <= i < j < |offered| && offered[i].id == offered[j].id ==>
               (PassesFilters(offered[i], f) <==> PassesFilters(offered[j], f))
    ensures Fresh(offered, seen, f) == [] <==>
            forall i :: 0 <= i < |offered| && offered[i].id !in seen ==> !PassesFilters(offered[i], f)
  {
    NothingFreshIff(offered, seen, f);
    if Fresh(offered, seen, f) == [] {
      forall i | 0 <= i < |offered| && offered[i].id !in seen ensures !PassesFilters(offered[i], f) {
        var k := FirstWithId(offered, i);
        assert FirstSeenAt(offered, seen, k) && Rejected(offered, seen, f, k);
      }
    } else {
      var i :| 0 <= i < |offered| && !Rejected(offered, seen, f, i);
    }
  }

  // Without that, a failing copy hides a passing one with the same id.
  lemma FailingCopyHidesPassingOne()
    ensures exists offered: seq<Child>, f ::
              && Fresh(offered, {}, f) == []
              && exists i :: 0 <= i < |offered| && PassesFilters(offered[i], f)
  {
    var f := Filters(1, None, None, None, None, [], []);
    var bad := Child("a", Some(1), None, None, None, None, None);
    var good := bad.(userRating := Some(5));
    var offered := [bad, good];
    assert offered[..1] == [bad] && offered[..1][..0] == [];
    assert Fresh(offered[..1], {}, f) == [];
    assert offered[..1][0].id in IdSet(offered[..1]);
    assert PassesFilters(offered[1], f);
    assert Fresh(offered, {}, f) == [];
  }
}
