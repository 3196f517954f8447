// The daemon's events and what they do to the client's mirror, with both sides as objects: the
// daemon's passes for ratings and stars, the client's own passes, and the queue cursor.
module Mirror {
  import opened Wrappers
  import opened Models
  import opened LruCache
  import opened SongLibrary
  import opened Rating
  import opened Stars

  const ALBUM_SONGS_CAP: nat := 100
  const PLAYLIST_SONGS_CAP: nat := 50

  datatype Event =
    | QueueChanged(queue: seq<Child>, position: Option<nat>)
    | NowPlayingChanged(np: NowPlaying)
    | PositionTick(secs: real)
    | StarredChanged(songs: seq<Child>)
    | RandomChanged(songs: seq<Child>)
    | RandomAlbumChanged(songs: seq<Child>)
    | QuickPlayAlbumChanged(kind: string, songs: seq<Child>)
    | AlbumSongsChanged(key: string, songs: seq<Child>)
    | PlaylistSongsChanged(key: string, songs: seq<Child>)
    | SongRatingChanged(id: string, rating: Option<nat>)
    | SongStarChanged(id: string, on: bool)

  // What the client does with an event.
  function Mirrored(l: Library, ev: Event): Library {
    match ev
    case QueueChanged(queue, position) => l.(queue := queue, position := position)
    case NowPlayingChanged(np) => l.(playing := np)
    case PositionTick(secs) => l.(playing := l.playing.(position := secs))
    case StarredChanged(songs) => l.(starred := songs, starredIds := IndexOfStarred(songs))
    case RandomChanged(songs) => l.(random := songs)
    case RandomAlbumChanged(songs) => l.(randomAlbum := songs)
    case QuickPlayAlbumChanged(kind, songs) =>
      l.(quickPlay := if songs == [] then Dropped(l.quickPlay, kind) else l.quickPlay[kind := songs])
    case AlbumSongsChanged(key, songs) => l.(albums := Insert(l.albums, key, songs, ALBUM_SONGS_CAP))
    case PlaylistSongsChanged(key, songs) => l.(playlists := Insert(l.playlists, key, songs, PLAYLIST_SONGS_CAP))
    case SongRatingChanged(id, rating) => SetRating(l, id, rating)
    case SongStarChanged(id, on) => StarMirrored(l, id, on)
  }

  // What the daemon wrote itself before it sent the event; the marker of a star it had set already
  // when the toggle began.
  function Stored(l: Library, ev: Event): Library {
    match ev
    case QueueChanged(queue, position) =>
      Library(l.starred, queue, position, l.random, l.randomAlbum, l.quickPlay, l.albums, l.playlists, l.playing,
              l.starredIds)
    case NowPlayingChanged(np) =>
      Library(l.starred, l.queue, l.position, l.random, l.randomAlbum, l.quickPlay, l.albums, l.playlists, np,
              l.starredIds)
    case PositionTick(secs) =>
      var np := NowPlaying(l.playing.song, l.playing.state, secs, l.playing.duration);
      Library(l.starred, l.queue, l.position, l.random, l.randomAlbum, l.quickPlay, l.albums, l.playlists, np,
              l.starredIds)
    case StarredChanged(songs) => Relisted(l, songs)
    case RandomChanged(songs) =>
      Library(l.starred, l.queue, l.position, songs, l.randomAlbum, l.quickPlay, l.albums, l.playlists, l.playing,
              l.starredIds)
    case RandomAlbumChanged(songs) =>
      Library(l.starred, l.queue, l.position, l.random, songs, l.quickPlay, l.albums, l.playlists, l.playing,
              l.starredIds)
    // an album the server knows is stored even when it is empty
    case QuickPlayAlbumChanged(kind, songs) =>
      Library(l.starred, l.queue, l.position, l.random, l.randomAlbum, l.quickPlay[kind := songs], l.albums, l.playlists,
              l.playing, l.starredIds)
    case AlbumSongsChanged(key, songs) =>
      Library(l.starred, l.queue, l.position, l.random, l.randomAlbum, l.quickPlay,
              Insert(l.albums, key, songs, ALBUM_SONGS_CAP), l.playlists, l.playing, l.starredIds)
    case PlaylistSongsChanged(key, songs) =>
      Library(l.starred, l.queue, l.position, l.random, l.randomAlbum, l.quickPlay, l.albums,
              Insert(l.playlists, key, songs, PLAYLIST_SONGS_CAP), l.playing, l.starredIds)
    case SongRatingChanged(id, rating) => SetRating(l, id, rating)
    case SongStarChanged(_, _) => l
  }

  // The cursor stays where it is while its row exists and otherwise goes to the last row.
  function Clamped(cursor: Option<nat>, len: nat): (r: Option<nat>)
    ensures r.Some? ==> r.value < len
    ensures r.None? <==> cursor.None? || len == 0
    ensures cursor.Some? && len > 0 ==> r.value == if cursor.value < len then cursor.value else len - 1
  {
    if cursor.Some? && cursor.value >= len then (if len == 0 then None else Some(len - 1)) else cursor
  }

  lemma EventKeepsCachesCoherent(l: Library, ev: Event)
    requires CachesCoherent(l)
    ensures CachesCoherent(Mirrored(l, ev)) && CachesCoherent(Stored(l, ev))
  {
    match ev
    case AlbumSongsChanged(key, songs) => InsertKeepsCoherent(l.albums, key, songs, ALBUM_SONGS_CAP);
    case PlaylistSongsChanged(key, songs) => InsertKeepsCoherent(l.playlists, key, songs, PLAYLIST_SONGS_CAP);
    case SongRatingChanged(id, rating) => OverKeepsCachesCoherent(l, Rate(id, rating));
    case SongStarChanged(id, on) => OverKeepsCachesCoherent(l, Mark(id, on));
    case _ =>
  }

  // ----- what an event carries, and what it leaves alone

  // The songs are under the key, as the most recent entry, and the cache grew by no other key and
  // gave up entries only if it was full.
  ghost predicate Freshest(before: Cache<seq<Child>>, c: Cache<seq<Child>>, key: string, songs: seq<Child>, cap: nat) {
    && key in c.values && c.values[key] == songs && c.order != [] && c.order[|c.order| - 1] == key
    && (forall k :: k in c.values && k != key ==> k in before.values && c.values[k] == before.values[k])
    && (key in before.values || |before.order| < cap ==> c.values.Keys == before.values.Keys + {key})
    && (|before.order| <= cap ==> |c.order| <= cap)
  }

  // What the event carries is what its part shows.
  ghost predicate Carries(before: Library, l: Library, ev: Event) {
    match ev
    case QueueChanged(queue, position) => l.queue == queue && l.position == position
    case NowPlayingChanged(np) => l.playing == np
    case PositionTick(secs) => l.playing.position == secs
    case StarredChanged(songs) =>
      l.starred == songs && forall id :: id in l.starredIds <==> exists s :: s in songs && s.id == id && s.starred.Some?
    case RandomChanged(songs) => l.random == songs
    case RandomAlbumChanged(songs) => l.randomAlbum == songs
    case QuickPlayAlbumChanged(kind, songs) => (if kind in l.quickPlay then l.quickPlay[kind] else []) == songs
    case AlbumSongsChanged(key, songs) => Freshest(before.albums, l.albums, key, songs, 100)
    case PlaylistSongsChanged(key, songs) => Freshest(before.playlists, l.playlists, key, songs, 50)
    case SongRatingChanged(id, rating) => CopiesRated(l, id, rating)
    case SongStarChanged(id, on) => CopiesMarked(l, id, on) && (id in l.starredIds <==> on)
  }

  // Every other part is as it was.
  ghost predicate Frames(before: Library, l: Library, ev: Event) {
    match ev
    case QueueChanged(_, _) => l == before.(queue := l.queue, position := l.position)
    case NowPlayingChanged(_) => l == before.(playing := l.playing)
    case PositionTick(_) => l == before.(playing := before.playing.(position := l.playing.position))
    case StarredChanged(_) => l == before.(starred := l.starred, starredIds := l.starredIds)
    case RandomChanged(_) => l == before.(random := l.random)
    case RandomAlbumChanged(_) => l == before.(randomAlbum := l.randomAlbum)
    case QuickPlayAlbumChanged(kind, _) =>
      l == before.(quickPlay := l.quickPlay) && l.quickPlay - {kind} == before.quickPlay - {kind}
    case AlbumSongsChanged(_, _) => l == before.(albums := l.albums)
    case PlaylistSongsChanged(_, _) => l == before.(playlists := l.playlists)
    case SongRatingChanged(id, _) => Over(l, Blank({id})) == Over(before, Blank({id}))
    case SongStarChanged(id, _) =>
      && l.starred == before.starred && l.starredIds - {id} == before.starredIds - {id}
      && Over(l, Mark(id, false)).(starredIds := {}) == Over(before, Mark(id, false)).(starredIds := {})
  }

  lemma InsertIsFreshest(c: Cache<seq<Child>>, key: string, songs: seq<Child>, cap: nat)
    requires Coherent(c) && cap > 0
    ensures Freshest(c, Insert(c, key, songs, cap), key, songs, cap)
  {
    InsertKeepsCoherent(c, key, songs, cap);
    if key in c.values {
      assert key in c.order;
      PromotedKeeps(c.order, key);
    }
  }

  lemma IndexHolds(songs: seq<Child>, id: string)
    ensures id in IndexOfStarred(songs) <==> exists s :: s in songs && s.id == id && s.starred.Some?
  {
  }

  // The client shows what an event carries, and nothing else of it changes.
  lemma MirrorCarries(l: Library, ev: Event)
    requires CachesCoherent(l)
    ensures Carries(l, Mirrored(l, ev), ev) && Frames(l, Mirrored(l, ev), ev)
  {
    match ev
    case StarredChanged(songs) => forall id { IndexHolds(songs, id); }
    case AlbumSongsChanged(key, songs) => InsertIsFreshest(l.albums, key, songs, ALBUM_SONGS_CAP);
    case PlaylistSongsChanged(key, songs) => InsertIsFreshest(l.playlists, key, songs, PLAYLIST_SONGS_CAP);
    case SongRatingChanged(id, rating) => RatesEveryCopy(l, id, rating);
    case SongStarChanged(id, on) => MarksEveryCopy(l, id, on);
    case _ =>
  }

  // So had the daemon before it sent the event.
  lemma StoreCarries(l: Library, ev: Event)
    requires CachesCoherent(l) && !ev.SongStarChanged?
    ensures Carries(l, Stored(l, ev), ev) && Frames(l, Stored(l, ev), ev)
  {
    match ev
    case StarredChanged(songs) => forall id { IndexHolds(songs, id); }
    case AlbumSongsChanged(key, songs) => InsertIsFreshest(l.albums, key, songs, ALBUM_SONGS_CAP);
    case PlaylistSongsChanged(key, songs) => InsertIsFreshest(l.playlists, key, songs, PLAYLIST_SONGS_CAP);
    case SongRatingChanged(id, rating) => RatesEveryCopy(l, id, rating);
    case _ =>
  }

  // ----- both sides as objects

  // The lists of `l` with every copy of the song rated.
  ghost predicate IsRated(l: Library, id: string, rating: Option<nat>, s: seq<Child>, q: seq<Child>, r: seq<Child>,
                          a: seq<Child>, kinds: Lists, byAlbum: Lists, byList: Lists) {
    var f := Rate(id, rating);
    && s == OverList(l.starred, f) && q == OverList(l.queue, f) && r == OverList(l.random, f)
    && a == OverList(l.randomAlbum, f) && kinds == OverLists(l.quickPlay, f)
    && byAlbum == OverLists(l.albums.values, f) && byList == OverLists(l.playlists.values, f)
  }

  lemma RatedIsSet(l: Library, id: string, rating: Option<nat>, s: seq<Child>, q: seq<Child>, r: seq<Child>,
                   a: seq<Child>, kinds: Lists, byAlbum: Lists, byList: Lists)
    requires IsRated(l, id, rating, s, q, r, a, kinds, byAlbum, byList)
    ensures SetRating(l, id, rating) ==
            Library(s, q, l.position, r, a, kinds, l.albums.(values := byAlbum), l.playlists.(values := byList),
                    OverPlaying(l.playing, Rate(id, rating)), l.starredIds)
  {
  }

  ghost predicate IsMarked(l: Library, id: string, on: bool, q: seq<Child>, r: seq<Child>, a: seq<Child>,
                           kinds: Lists, byAlbum: Lists, byList: Lists) {
    var f := Mark(id, on);
    && q == OverList(l.queue, f) && r == OverList(l.random, f) && a == OverList(l.randomAlbum, f)
    && kinds == OverLists(l.quickPlay, f)
    && byAlbum == OverLists(l.albums.values, f) && byList == OverLists(l.playlists.values, f)
  }

  lemma MarkedIsOver(l: Library, id: string, on: bool, q: seq<Child>, r: seq<Child>, a: seq<Child>,
                     kinds: Lists, byAlbum: Lists, byList: Lists)
    requires IsMarked(l, id, on, q, r, a, kinds, byAlbum, byList)
    ensures Over(l, Mark(id, on)).(starred := l.starred) ==
            Library(l.starred, q, l.position, r, a, kinds, l.albums.(values := byAlbum), l.playlists.(values := byList),
                    OverPlaying(l.playing, Mark(id, on)), l.starredIds)
  {
  }

  // The search for a copy does not look at the starred songs.
  lemma SourceElsewhere(l: Library, m: Library)
    requires m == l.(starred := m.starred)
    ensures forall id, src :: IsSource(l, id, src) <==> IsSource(m, id, src)
  {
  }

  ghost predicate Listed(l: Library, s: Child) {
    || s in l.starred || s in l.queue || s in l.random || s in l.randomAlbum
    || InLists(l.quickPlay, s) || InLists(l.albums.values, s) || InLists(l.playlists.values, s)
  }

  lemma StarredSomewhere(l: Library, id: string)
    requires exists s :: Listed(l, s) && s.id == id && s.starred.Some?
    ensures IsStarred(l, id)
  {
    var s :| Listed(l, s) && s.id == id && s.starred.Some?;
    assert Holds(l.(playing := NOTHING_PLAYING), s);
  }

  // The daemon's state and, with the same fields, the client's mirror of it.
  class State {
    var starred: seq<Child>
    var queue: seq<Child>
    var position: Option<nat>
    var random: seq<Child>
    var randomAlbum: seq<Child>
    var quickPlay: Lists
    var albums: Cache<seq<Child>>
    var playlists: Cache<seq<Child>>
    var playing: NowPlaying
    var starredIds: set<string>

    ghost function View(): Library
      reads this
    {
      Library(starred, queue, position, random, randomAlbum, quickPlay, albums, playlists, playing, starredIds)
    }

    constructor ()
      ensures View() == EMPTY
    {
      starred, queue, position, random, randomAlbum := [], [], None, [], [];
      quickPlay, albums, playlists, playing := map[], Cache(map[], []), Cache(map[], []), NOTHING_PLAYING;
      starredIds := {};
    }

    // Stores the rated lists and rates the playing song.
    method Install(id: string, rating: Option<nat>, s: seq<Child>, q: seq<Child>, r: seq<Child>, a: seq<Child>,
                   kinds: Lists, byAlbum: Lists, byList: Lists)
      requires IsRated(View(), id, rating, s, q, r, a, kinds, byAlbum, byList)
      modifies this
      ensures View() == SetRating(old(View()), id, rating)
    {
      ghost var was := View();
      starred, queue, random, randomAlbum, quickPlay := s, q, r, a, kinds;
      albums := albums.(values := byAlbum);
      playlists := playlists.(values := byList);
      if playing.song.Some? && playing.song.value.id == id {
        playing := playing.(song := Some(playing.song.value.(userRating := rating)));
      }
      RatedIsSet(was, id, rating, s, q, r, a, kinds, byAlbum, byList);
    }

    // The daemon's pass: one walk that sets the rating and picks up the old one.
    method ApplyRatingToCached(id: string, rating: Option<nat>) returns (before: Option<nat>)
      modifies this
      ensures View() == SetRating(old(View()), id, rating)
      ensures IsOldRating(old(View()), id, before)
    {
      var s, q, r, a, kinds, byAlbum, byList, found;
      s, before, found := RateList(starred, id, rating, None, false);
      q, before, found := RateList(queue, id, rating, before, found);
      r, before, found := RateList(random, id, rating, before, found);
      a, before, found := RateList(randomAlbum, id, rating, before, found);
      kinds, before, found := RateLists(quickPlay, id, rating, before, found);
      byAlbum, before, found := RateLists(albums.values, id, rating, before, found);
      byList, before, found := RateLists(playlists.values, id, rating, before, found);
      if playing.song.Some? && playing.song.value.id == id && !found {
        before := playing.song.value.userRating;
      }
      Install(id, rating, s, q, r, a, kinds, byAlbum, byList);
    }

    // The client's pass over the same lists, in its own order.
    method ApplySongRatingChanged(id: string, rating: Option<nat>)
      modifies this
      ensures View() == Mirrored(old(View()), SongRatingChanged(id, rating))
    {
      var q, _, _ := RateList(queue, id, rating, None, true);
      var r, _, _ := RateList(random, id, rating, None, true);
      var a, _, _ := RateList(randomAlbum, id, rating, None, true);
      var kinds, _, _ := RateLists(quickPlay, id, rating, None, true);
      var s, _, _ := RateList(starred, id, rating, None, true);
      var byAlbum, _, _ := RateLists(albums.values, id, rating, None, true);
      var byList, _, _ := RateLists(playlists.values, id, rating, None, true);
      Install(id, rating, s, q, r, a, kinds, byAlbum, byList);
    }

    // First critical section of a rating request; without a server it fails and changes nothing.
    method BeginRating(id: string, stars: nat, configured: bool)
      returns (ok: bool, rating: Option<nat>, before: Option<nat>)
      modifies this
      ensures ok == configured && rating == Normalized(stars)
      ensures ok ==> View() == SetRating(old(View()), id, rating) && IsOldRating(old(View()), id, before)
      ensures !ok ==> View() == old(View())
    {
      var least := if stars < 5 then stars else 5;
      rating, before := if least == 0 then None else Some(least), None;
      ok := configured;
      if ok {
        before := ApplyRatingToCached(id, rating);
      }
    }

    // Second one, once the server answered. `sameServer`: the generation captured first still holds.
    method EndRating(id: string, rating: Option<nat>, before: Option<nat>, sameServer: bool, succeeded: bool)
      returns (event: Option<Event>)
      modifies this
      ensures View() == if !sameServer then old(View())
                        else SetRating(old(View()), id, if succeeded then rating else before)
      ensures event == if sameServer && succeeded then Some(SongRatingChanged(id, rating)) else None
    {
      if !sameServer {
        return None;
      }
      if !succeeded {
        var _ := ApplyRatingToCached(id, before);
        return None;
      }
      var _ := ApplyRatingToCached(id, rating);
      return Some(SongRatingChanged(id, rating));
    }

    // Stores the marked lists and marks the playing song.
    method InstallMarked(id: string, on: bool, q: seq<Child>, r: seq<Child>, a: seq<Child>, kinds: Lists,
                         byAlbum: Lists, byList: Lists)
      requires IsMarked(View(), id, on, q, r, a, kinds, byAlbum, byList)
      modifies this
      ensures View() == Over(old(View()), Mark(id, on)).(starred := old(starred))
    {
      ghost var was := View();
      queue, random, randomAlbum, quickPlay := q, r, a, kinds;
      albums := albums.(values := byAlbum);
      playlists := playlists.(values := byList);
      if playing.song.Some? && playing.song.value.id == id {
        playing := playing.(song := Some(playing.song.value.(starred := Marker(on))));
      }
      MarkedIsOver(was, id, on, q, r, a, kinds, byAlbum, byList);
    }

    // Marks every copy outside the list of starred songs.
    method MarkElsewhere(id: string, on: bool)
      modifies this
      ensures View() == Over(old(View()), Mark(id, on)).(starred := old(starred))
    {
      var q := MarkList(queue, id, on);
      var r := MarkList(random, id, on);
      var a := MarkList(randomAlbum, id, on);
      var kinds := MarkLists(quickPlay, id, on);
      var byAlbum := MarkLists(albums.values, id, on);
      var byList := MarkLists(playlists.values, id, on);
      InstallMarked(id, on, q, r, a, kinds, byAlbum, byList);
    }

    // The copy found first, list after list.
    method FindSource(id: string) returns (src: Option<Child>)
      ensures IsSource(View(), id, src)
    {
      src := Find(queue, id);
      if src.None? {
        src := Find(random, id);
      }
      if src.None? {
        src := Find(randomAlbum, id);
      }
      if src.None? {
        src := FindIn(quickPlay, id);
      }
      if src.None? {
        src := FindIn(albums.values, id);
      }
      if src.None? {
        src := FindIn(playlists.values, id);
      }
    }

    method SyncStarredSongs(id: string, on: bool) returns (ghost src: Option<Child>)
      modifies `starred, `starredIds
      ensures IsSource(old(View()), id, src)
      ensures starred == Synced(old(starred), id, on, src) && starredIds == Indexed(old(starredIds), id, on)
    {
      var source := FindSource(id);
      src := source;
      if on {
        starredIds := starredIds + {id};
        var already := Find(starred, id);
        if already.Some? {
          starred := MarkList(starred, id, true);
        } else if source.Some? {
          starred := starred + [source.value.(starred := Marker(true))];
          SourceHasId(old(View()), id, src);
        }
      } else {
        starredIds := starredIds - {id};
        starred := RetainOthers(starred, id);
      }
    }

    // The daemon's pass for a star, in the first section of a toggle and again to undo it.
    method ApplyStarToCached(id: string, on: bool) returns (ghost src: Option<Child>)
      modifies this
      ensures IsSource(Over(old(View()), Mark(id, on)), id, src)
      ensures View() == ApplyStar(old(View()), id, on, src)
    {
      ghost var was := View();
      MarkElsewhere(id, on);
      SourceElsewhere(Over(was, Mark(id, on)), View());
      src := SyncStarredSongs(id, on);
    }

    method SongIsStarred(id: string) returns (r: bool)
      ensures r <==> IsStarred(View(), id)
    {
      if id in starredIds {
        return true;
      }
      var inStarred := AnyMarked(starred, id);
      var inQueue := AnyMarked(queue, id);
      var inRandom := AnyMarked(random, id);
      var inAlbum := AnyMarked(randomAlbum, id);
      var inKinds := AnyMarkedIn(quickPlay, id);
      var inAlbums := AnyMarkedIn(albums.values, id);
      var inLists := AnyMarkedIn(playlists.values, id);
      r := inStarred || inQueue || inRandom || inAlbum || inKinds || inAlbums || inLists;
      if r {
        StarredSomewhere(View(), id);
      }
    }

    // First critical section of a toggle.
    method BeginToggle(id: string) returns (was: bool, ghost src: Option<Child>)
      modifies this
      ensures was == IsStarred(old(View()), id)
      ensures IsSource(Over(old(View()), Mark(id, !was)), id, src)
      ensures View() == ApplyStar(old(View()), id, !was, src)
    {
      was := SongIsStarred(id);
      src := ApplyStarToCached(id, !was);
    }

    // The rest of a toggle: a refused one is undone and nobody is told; a granted one broadcasts the
    // marker and, if the fresh list came and is still that server's, stores and broadcasts the list.
    method EndToggle(id: string, was: bool, granted: bool, fetched: Option<seq<Child>>, sameServer: bool)
      returns (events: seq<Event>, ghost src: Option<Child>)
      modifies this
      ensures !granted ==> IsSource(Over(old(View()), Mark(id, was)), id, src) && events == []
      ensures View() == if !granted then ApplyStar(old(View()), id, was, src)
                        else if fetched.Some? && sameServer then Relisted(old(View()), fetched.value)
                        else old(View())
      ensures granted ==>
                events == [SongStarChanged(id, !was)]
                          + if fetched.Some? && sameServer then [StarredChanged(fetched.value)] else []
    {
      events, src := [], None;
      if !granted {
        src := ApplyStarToCached(id, was);
        return;
      }
      if fetched.Some? && sameServer {
        starred := fetched.value;
        starredIds := IndexOfStarred(fetched.value);
      }
      events := [SongStarChanged(id, !was)];
      if fetched.Some? && sameServer {
        events := events + [StarredChanged(fetched.value)];
      }
    }

    // The client's pass for a star; the list of starred songs waits for its own event.
    method ApplySongStarChanged(id: string, on: bool)
      modifies this
      ensures View() == Mirrored(old(View()), SongStarChanged(id, on))
    {
      MarkElsewhere(id, on);
      starredIds := if on then starredIds + {id} else starredIds - {id};
    }

    // The daemon's own write after a refresh, before the event.
    method StoreRefreshed(ev: Event)
      requires ev.StarredChanged? || ev.RandomChanged? || ev.RandomAlbumChanged? || ev.QuickPlayAlbumChanged?
               || ev.AlbumSongsChanged? || ev.PlaylistSongsChanged?
      requires CachesCoherent(View())
      modifies this
      ensures View() == Stored(old(View()), ev) && CachesCoherent(View())
    {
      EventKeepsCachesCoherent(View(), ev);
      match ev
      case StarredChanged(songs) =>
        starred := songs;
        starredIds := IndexOfStarred(songs);
      case RandomChanged(songs) =>
        random := songs;
      case RandomAlbumChanged(songs) =>
        randomAlbum := songs;
      case QuickPlayAlbumChanged(kind, songs) =>
        quickPlay := quickPlay[kind := songs];
      case AlbumSongsChanged(key, songs) =>
        var values, order := CacheInsert(albums.values, albums.order, key, songs, ALBUM_SONGS_CAP);
        albums := Cache(values, order);
      case PlaylistSongsChanged(key, songs) =>
        var values, order := CacheInsert(playlists.values, playlists.order, key, songs, PLAYLIST_SONGS_CAP);
        playlists := Cache(values, order);
    }

    method ApplyEvent(ev: Event)
      requires CachesCoherent(View())
      modifies this
      ensures View() == Mirrored(old(View()), ev) && CachesCoherent(View())
    {
      EventKeepsCachesCoherent(View(), ev);
      match ev
      case QueueChanged(songs, at) =>
        queue := songs;
        position := at;
      case NowPlayingChanged(np) =>
        playing := np;
      case PositionTick(secs) =>
        playing := playing.(position := secs);
      case StarredChanged(songs) =>
        starred := songs;
        starredIds := IndexOfStarred(songs);
      case RandomChanged(songs) =>
        random := songs;
      case RandomAlbumChanged(songs) =>
        randomAlbum := songs;
      case QuickPlayAlbumChanged(kind, songs) =>
        if songs == [] {
          quickPlay := Dropped(quickPlay, kind);
        } else {
          quickPlay := quickPlay[kind := songs];
        }
      case AlbumSongsChanged(key, songs) =>
        var values, order := CacheInsert(albums.values, albums.order, key, songs, ALBUM_SONGS_CAP);
        albums := Cache(values, order);
      case PlaylistSongsChanged(key, songs) =>
        var values, order := CacheInsert(playlists.values, playlists.order, key, songs, PLAYLIST_SONGS_CAP);
        playlists := Cache(values, order);
      case SongRatingChanged(id, rating) =>
        ApplySongRatingChanged(id, rating);
      case SongStarChanged(id, on) =>
        ApplySongStarChanged(id, on);
    }
  }

  // The client's own lists and its queue cursor.
  class Client {
    var artistSongs: seq<Child>
    var playlistSongs: seq<Child>
    var searchSongs: Option<seq<Child>>
    var selected: Option<nat>

    method ApplySongRatingChanged(id: string, rating: Option<nat>)
      modifies this
      ensures artistSongs == OverList(old(artistSongs), Rate(id, rating))
      ensures playlistSongs == OverList(old(playlistSongs), Rate(id, rating))
      ensures searchSongs ==
              if old(searchSongs).Some? then Some(OverList(old(searchSongs).value, Rate(id, rating))) else None
      ensures selected == old(selected)
    {
      var a, _, _ := RateList(artistSongs, id, rating, None, true);
      var p, _, _ := RateList(playlistSongs, id, rating, None, true);
      artistSongs, playlistSongs := a, p;
      if searchSongs.Some? {
        var songs, _, _ := RateList(searchSongs.value, id, rating, None, true);
        searchSongs := Some(songs);
      }
    }

    method ApplySongStarChanged(id: string, on: bool)
      modifies this
      ensures artistSongs == OverList(old(artistSongs), Mark(id, on))
      ensures playlistSongs == OverList(old(playlistSongs), Mark(id, on))
      ensures searchSongs ==
              if old(searchSongs).Some? then Some(OverList(old(searchSongs).value, Mark(id, on))) else None
      ensures selected == old(selected)
    {
      var a := MarkList(artistSongs, id, on);
      var p := MarkList(playlistSongs, id, on);
      artistSongs, playlistSongs := a, p;
      if searchSongs.Some? {
        var songs := MarkList(searchSongs.value, id, on);
        searchSongs := Some(songs);
      }
    }

    method ClampSelection(len: nat)
      modifies `selected
      ensures selected == Clamped(old(selected), len)
    {
      if selected.Some? {
        if selected.value >= len {
          selected := if len == 0 then None else Some(len - 1);
        }
      }
    }
  }
}
