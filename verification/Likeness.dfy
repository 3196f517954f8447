// When the client's mirror shows the daemon's state: equality up to the ratings and star markers
// of some songs and up to some parts, what keeps it, and when exactly it gets sharper again.
module Likeness {
  import opened Wrappers
  import opened Models
  import opened LruCache
  import opened SongLibrary
  import opened Rating
  import opened Stars
  import opened Mirror

  // The parts of the mirrored state that the daemon writes without an event of their own.
  datatype Part = StarredList | Rows | Playhead | Duration | NowSong

  const PLAYING_PARTS: set<Part> := {Playhead, Duration, NowSong}

  // Where daemon and client may differ: ratings and star markers of some songs, and some parts.
  datatype Dirt = Dirt(ratings: set<string>, stars: set<string>, parts: set<Part>)

  const CLEAN := Dirt({}, {}, {})

  // ----- likeness

  function NonEmpty(m: Lists): Lists {
    map k | k in m && m[k] != [] :: m[k]
  }

  // Equal but for `parts` and for empty quick-play albums, which the client never keeps; the index
  // of starred songs is compared apart.
  ghost predicate Near(a: Library, b: Library, parts: set<Part>) {
    && (StarredList in parts || a.starred == b.starred)
    && (Rows in parts || (a.queue == b.queue && a.position == b.position))
    && a.random == b.random && a.randomAlbum == b.randomAlbum
    && NonEmpty(a.quickPlay) == NonEmpty(b.quickPlay) && a.albums == b.albums && a.playlists == b.playlists
    && (NowSong in parts || (a.playing.song == b.playing.song && a.playing.state == b.playing.state))
    && (Playhead in parts || a.playing.position == b.playing.position)
    && (Duration in parts || a.playing.duration == b.playing.duration)
  }

  function Hide(d: Dirt): Child -> Child {
    (s: Child) => s.(userRating := if s.id in d.ratings then None else s.userRating,
                     starred := if s.id in d.stars then None else s.starred)
  }

  ghost predicate Alike(l: Library, m: Library, d: Dirt) {
    Near(Over(l, Hide(d)), Over(m, Hide(d)), d.parts) && l.starredIds - d.stars == m.starredIds - d.stars
  }

  lemma NothingHidden(l: Library)
    ensures Over(l, Hide(CLEAN)) == l
  {
    OverSame(l);
    forall s ensures Hide(CLEAN)(s) == Same()(s) {
    }
    OverEqualIff(l, Hide(CLEAN), Same());
  }

  // Clean means equal, up to empty quick-play albums.
  lemma CleanMeansEqual(l: Library, m: Library)
    ensures Alike(l, m, CLEAN) <==> l.(quickPlay := NonEmpty(l.quickPlay)) == m.(quickPlay := NonEmpty(m.quickPlay))
  {
    NothingHidden(l);
    NothingHidden(m);
    assert l.starredIds - {} == l.starredIds && m.starredIds - {} == m.starredIds;
    var a, b := l.(quickPlay := NonEmpty(l.quickPlay)), m.(quickPlay := NonEmpty(m.quickPlay));
    if Near(l, m, {}) {
      assert l.playing == m.playing;
    }
  }

  ghost predicate SamePart(p: Part, a: Library, b: Library) {
    match p
    case StarredList => a.starred == b.starred
    case Rows => a.queue == b.queue && a.position == b.position
    case Playhead => a.playing.position == b.playing.position
    case Duration => a.playing.duration == b.playing.duration
    case NowSong => a.playing.song == b.playing.song && a.playing.state == b.playing.state
  }

  lemma HideIgnoresParts(d: Dirt, parts: set<Part>)
    ensures Hide(d.(parts := parts)) == Hide(d)
  {
  }

  // With no rating or marker in doubt, clean means that the unsettled parts happen to agree.
  lemma SettledIff(l: Library, m: Library, d: Dirt)
    requires Alike(l, m, d) && d.ratings == {} && d.stars == {}
    ensures Alike(l, m, CLEAN) <==> forall p :: p in d.parts ==> SamePart(p, l, m)
  {
    HideIgnoresParts(d, {});
    NothingHidden(l);
    NothingHidden(m);
    assert d.(parts := {}) == CLEAN;
    assert Near(l, m, d.parts);
    if forall p :: p in d.parts ==> SamePart(p, l, m) {
      assert StarredList in d.parts ==> SamePart(StarredList, l, m);
      assert Rows in d.parts ==> SamePart(Rows, l, m);
      assert Playhead in d.parts ==> SamePart(Playhead, l, m);
      assert Duration in d.parts ==> SamePart(Duration, l, m);
      assert NowSong in d.parts ==> SamePart(NowSong, l, m);
    }
  }

  // `s` is a copy in a part that is compared.
  ghost predicate Shows(l: Library, parts: set<Part>, s: Child) {
    || (StarredList !in parts && s in l.starred) || (Rows !in parts && s in l.queue)
    || s in l.random || s in l.randomAlbum
    || InLists(l.quickPlay, s) || InLists(l.albums.values, s) || InLists(l.playlists.values, s)
    || (NowSong !in parts && l.playing.song == Some(s))
  }

  ghost predicate ShownRated(l: Library, parts: set<Part>, id: string, rating: Option<nat>) {
    forall s :: Shows(l, parts, s) && s.id == id ==> s.userRating == rating
  }

  ghost predicate ShownMarked(l: Library, parts: set<Part>, id: string, on: bool) {
    forall s :: Shows(l, parts, s) && s.id == id ==> s.starred == Marker(on)
  }

  lemma NonEmptyOver(m: Lists, f: Child -> Child)
    ensures NonEmpty(OverLists(m, f)) == OverLists(NonEmpty(m), f)
  {
  }

  lemma NonEmptyHolds(m: Lists, s: Child)
    ensures InLists(NonEmpty(m), s) <==> InLists(m, s)
  {
    if InLists(m, s) {
      var k :| k in m && s in m[k];
      assert s in NonEmpty(m)[k];
    }
  }

  lemma QuickPlayEqualIff(m: Lists, f: Child -> Child, g: Child -> Child)
    ensures NonEmpty(OverLists(m, f)) == NonEmpty(OverLists(m, g)) <==> forall s :: InLists(m, s) ==> f(s) == g(s)
  {
    NonEmptyOver(m, f);
    NonEmptyOver(m, g);
    OverListsEqualIff(NonEmpty(m), f, g);
    forall s ensures InLists(NonEmpty(m), s) <==> InLists(m, s) {
      NonEmptyHolds(m, s);
    }
  }

  // Two changes of one state are near each other exactly when they agree on every copy shown.
  lemma NearOverIff(m: Library, f: Child -> Child, g: Child -> Child, parts: set<Part>)
    ensures Near(Over(m, f), Over(m, g), parts) <==> forall s :: Shows(m, parts, s) ==> f(s) == g(s)
  {
    OverListEqualIff(m.starred, f, g);
    OverListEqualIff(m.queue, f, g);
    OverListEqualIff(m.random, f, g);
    OverListEqualIff(m.randomAlbum, f, g);
    QuickPlayEqualIff(m.quickPlay, f, g);
    OverListsEqualIff(m.albums.values, f, g);
    OverListsEqualIff(m.playlists.values, f, g);
  }

  lemma QuickPlayLift(m: Lists, n: Lists, f: Child -> Child, g: Child -> Child)
    requires forall x, y :: f(x) == f(y) ==> g(x) == g(y)
    requires NonEmpty(OverLists(m, f)) == NonEmpty(OverLists(n, f))
    ensures NonEmpty(OverLists(m, g)) == NonEmpty(OverLists(n, g))
  {
    NonEmptyOver(m, f);
    NonEmptyOver(n, f);
    NonEmptyOver(m, g);
    NonEmptyOver(n, g);
    OverListsLift(NonEmpty(m), NonEmpty(n), f, g);
  }

  // States near under `f` are near under everything that `f` determines.
  lemma NearLift(l: Library, m: Library, f: Child -> Child, g: Child -> Child, parts: set<Part>)
    requires forall x, y :: f(x) == f(y) ==> g(x) == g(y)
    requires Near(Over(l, f), Over(m, f), parts)
    ensures Near(Over(l, g), Over(m, g), parts)
  {
    if StarredList !in parts {
      OverListLift(l.starred, m.starred, f, g);
    }
    if Rows !in parts {
      OverListLift(l.queue, m.queue, f, g);
    }
    OverListLift(l.random, m.random, f, g);
    OverListLift(l.randomAlbum, m.randomAlbum, f, g);
    QuickPlayLift(l.quickPlay, m.quickPlay, f, g);
    assert l.albums.order == m.albums.order && l.playlists.order == m.playlists.order;
    OverListsLift(l.albums.values, m.albums.values, f, g);
    OverListsLift(l.playlists.values, m.playlists.values, f, g);
  }

  lemma HideMore(d: Dirt, e: Dirt, x: Child, y: Child)
    requires Hide(d)(x) == Hide(d)(y) && d.ratings <= e.ratings && d.stars <= e.stars
    ensures Hide(e)(x) == Hide(e)(y)
  {
    assert x.id == y.id;
  }

  // Likeness survives more dirt.
  lemma AlikeUpToMore(l: Library, m: Library, d: Dirt, e: Dirt)
    requires Alike(l, m, d) && d.ratings <= e.ratings && d.stars <= e.stars && d.parts <= e.parts
    ensures Alike(l, m, e)
  {
    var f, g := Hide(d), Hide(e);
    forall x, y | f(x) == f(y) ensures g(x) == g(y) {
      HideMore(d, e, x, y);
    }
    NearLift(l, m, f, g, d.parts);
    assert l.starredIds - e.stars == l.starredIds - d.stars - e.stars;
    assert m.starredIds - e.stars == m.starredIds - d.stars - e.stars;
  }

  // ----- ratings

  // The optimistic update, or an undone one, disturbs the likeness in the rated song only.
  lemma RatingIsHidden(l: Library, m: Library, d: Dirt, id: string, rating: Option<nat>)
    requires Alike(l, m, d) && id in d.ratings
    ensures Alike(SetRating(l, id, rating), m, d)
  {
    var f := Then(Rate(id, rating), Hide(d));
    OverThen(l, Rate(id, rating), Hide(d));
    forall s ensures f(s) == Hide(d)(s) {
    }
    OverEqualIff(l, f, Hide(d));
  }

  lemma RatingDetermined(d: Dirt, id: string, rating: Option<nat>, x: Child, y: Child)
    requires Hide(d)(x) == Hide(d)(y)
    ensures var e := d.(ratings := d.ratings - {id});
            Then(Rate(id, rating), Hide(e))(x) == Then(Rate(id, rating), Hide(e))(y)
  {
    assert x.id == y.id;
  }

  // A confirmed rating, set on both sides, makes the song's ratings equal again.
  lemma ConfirmedRating(l: Library, m: Library, d: Dirt, id: string, rating: Option<nat>)
    requires Alike(l, m, d)
    ensures Alike(SetRating(l, id, rating), SetRating(m, id, rating), d.(ratings := d.ratings - {id}))
  {
    var e := d.(ratings := d.ratings - {id});
    var f, g := Hide(d), Then(Rate(id, rating), Hide(e));
    forall x, y | f(x) == f(y) ensures g(x) == g(y) {
      RatingDetermined(d, id, rating, x, y);
    }
    NearLift(l, m, f, g, d.parts);
    OverThen(l, Rate(id, rating), Hide(e));
    OverThen(m, Rate(id, rating), Hide(e));
  }

  lemma NearSwap(a: Library, b: Library, c: Library, parts: set<Part>)
    requires Near(a, b, parts)
    ensures Near(a, c, parts) <==> Near(b, c, parts)
    ensures Near(c, a, parts) <==> Near(c, b, parts)
  {
  }

  // A refused one does so exactly when every copy the client shows has the rating rolled back to.
  lemma RefusedRatingIff(l: Library, m: Library, d: Dirt, id: string, before: Option<nat>)
    requires Alike(l, m, d)
    ensures Alike(SetRating(l, id, before), m, d.(ratings := d.ratings - {id})) <==> ShownRated(m, d.parts, id, before)
  {
    var e := d.(ratings := d.ratings - {id});
    ConfirmedRating(l, m, d, id, before);
    OverThen(m, Rate(id, before), Hide(e));
    NearOverIff(m, Then(Rate(id, before), Hide(e)), Hide(e), d.parts);
    forall s ensures Then(Rate(id, before), Hide(e))(s) == Hide(e)(s) <==> (s.id == id ==> s.userRating == before) {
    }
    var a, b := Over(SetRating(l, id, before), Hide(e)), Over(SetRating(m, id, before), Hide(e));
    NearSwap(a, b, Over(m, Hide(e)), d.parts);
  }

  // ----- stars

  // A pass of the daemon is hidden by the song's marker and the list of starred songs.
  lemma StarIsHidden(l: Library, m: Library, d: Dirt, id: string, on: bool, src: Option<Child>)
    requires Alike(l, m, d) && id in d.stars && StarredList in d.parts
    ensures Alike(ApplyStar(l, id, on, src), m, d)
  {
    var f := Then(Mark(id, on), Hide(d));
    OverThen(l, Mark(id, on), Hide(d));
    forall s ensures f(s) == Hide(d)(s) {
    }
    OverEqualIff(l, f, Hide(d));
    var r := Over(ApplyStar(l, id, on, src), Hide(d));
    assert r.(starred := [], starredIds := {}) == Over(Over(l, Mark(id, on)), Hide(d)).(starred := [], starredIds := {});
    assert Near(r, Over(l, Hide(d)), d.parts);
    NearSwap(r, Over(l, Hide(d)), Over(m, Hide(d)), d.parts);
    assert Indexed(l.starredIds, id, on) - d.stars == l.starredIds - d.stars;
  }

  lemma StarDetermined(d: Dirt, id: string, on: bool, x: Child, y: Child)
    requires Hide(d)(x) == Hide(d)(y)
    ensures var e := d.(stars := d.stars - {id});
            Then(Mark(id, on), Hide(e))(x) == Then(Mark(id, on), Hide(e))(y)
  {
    assert x.id == y.id;
  }

  // Marking the song on both sides makes its markers equal again.
  lemma BothMarked(l: Library, m: Library, d: Dirt, id: string, on: bool)
    requires Alike(l, m, d) && StarredList in d.parts
    ensures Alike(StarMirrored(l, id, on), StarMirrored(m, id, on), d.(stars := d.stars - {id}))
  {
    var e := d.(stars := d.stars - {id});
    var f, g := Hide(d), Then(Mark(id, on), Hide(e));
    forall x, y | f(x) == f(y) ensures g(x) == g(y) {
      StarDetermined(d, id, on, x, y);
    }
    NearLift(l, m, f, g, d.parts);
    OverThen(l, Mark(id, on), Hide(e));
    OverThen(m, Mark(id, on), Hide(e));
    var a, b := Over(Over(l, Mark(id, on)), Hide(e)), Over(Over(m, Mark(id, on)), Hide(e));
    assert Near(a.(starred := OverList(l.starred, Hide(e))), b.(starred := OverList(m.starred, Hide(e))), d.parts);
    forall x ensures x in Indexed(l.starredIds, id, on) - e.stars <==> x in Indexed(m.starredIds, id, on) - e.stars {
      assert x in l.starredIds - d.stars <==> x in m.starredIds - d.stars;
    }
  }

  // A side that is not marked again agrees exactly if all copies it shows carry the marker, and so
  // does its index.
  ghost predicate CarriesMark(l: Library, parts: set<Part>, id: string, on: bool) {
    ShownMarked(l, parts, id, on) && (id in l.starredIds <==> on)
  }

  lemma NearSym(a: Library, b: Library, parts: set<Part>)
    ensures Near(a, b, parts) <==> Near(b, a, parts)
  {
  }

  lemma IndexIff(l: Library, m: Library, d: Dirt, id: string, on: bool)
    requires l.starredIds - d.stars == m.starredIds - d.stars
    ensures var e := d.stars - {id};
            l.starredIds - e == Indexed(m.starredIds, id, on) - e <==> (id in l.starredIds <==> on)
  {
    var e := d.stars - {id};
    var a, b := l.starredIds - e, Indexed(m.starredIds, id, on) - e;
    forall x | x != id ensures x in a <==> x in b {
      assert x in l.starredIds - d.stars <==> x in m.starredIds - d.stars;
    }
    assert id in a <==> id in l.starredIds;
    assert id in b <==> on;
  }

  lemma MarkedNearIff(l: Library, d: Dirt, id: string, on: bool)
    requires StarredList in d.parts
    ensures var e := d.(stars := d.stars - {id});
            Near(Over(StarMirrored(l, id, on), Hide(e)), Over(l, Hide(e)), d.parts) <==> ShownMarked(l, d.parts, id, on)
  {
    var e := d.(stars := d.stars - {id});
    OverThen(l, Mark(id, on), Hide(e));
    NearOverIff(l, Then(Mark(id, on), Hide(e)), Hide(e), d.parts);
    forall s ensures Then(Mark(id, on), Hide(e))(s) == Hide(e)(s) <==> (s.id == id ==> s.starred == Marker(on)) {
    }
    var a := Over(Over(l, Mark(id, on)), Hide(e));
    assert Near(Over(StarMirrored(l, id, on), Hide(e)), a, d.parts);
    NearSwap(Over(StarMirrored(l, id, on), Hide(e)), a, Over(l, Hide(e)), d.parts);
  }

  lemma UnmarkedIff(l: Library, m: Library, d: Dirt, id: string, on: bool)
    requires Alike(l, m, d) && StarredList in d.parts
    ensures var e := d.(stars := d.stars - {id});
            Alike(l, StarMirrored(m, id, on), e) <==> CarriesMark(l, d.parts, id, on)
    ensures var e := d.(stars := d.stars - {id});
            Alike(StarMirrored(l, id, on), m, e) <==> CarriesMark(m, d.parts, id, on)
  {
    BothMarked(l, m, d, id, on);
    MarkedNearIff(l, d, id, on);
    MarkedNearIff(m, d, id, on);
    var e := d.(stars := d.stars - {id});
    var a, b := Over(StarMirrored(l, id, on), Hide(e)), Over(StarMirrored(m, id, on), Hide(e));
    NearSwap(a, b, Over(m, Hide(e)), d.parts);
    NearSwap(b, a, Over(l, Hide(e)), d.parts);
    NearSym(a, Over(l, Hide(e)), d.parts);
    NearSym(b, Over(l, Hide(e)), d.parts);
    IndexIff(l, m, d, id, on);
    IndexIff(m, l, d, id, on);
  }

  // ----- events

  lemma OverInsert(c: Cache<seq<Child>>, key: string, songs: seq<Child>, cap: nat, f: Child -> Child)
    ensures var r := Insert(c, key, songs, cap);
            r.(values := OverLists(r.values, f)) ==
            Insert(c.(values := OverLists(c.values, f)), key, OverList(songs, f), cap)
  {
    var r := Insert(c, key, songs, cap);
    var q := Insert(c.(values := OverLists(c.values, f)), key, OverList(songs, f), cap);
    assert OverLists(r.values, f) == q.values;
  }

  lemma NonEmptyDropped(m: Lists, kind: string, f: Child -> Child)
    ensures NonEmpty(OverLists(Dropped(m, kind), f)) == Dropped(NonEmpty(OverLists(m, f)), kind)
    ensures NonEmpty(OverLists(m[kind := []], f)) == Dropped(NonEmpty(OverLists(m, f)), kind)
  {
  }

  lemma NonEmptyUpdated(m: Lists, kind: string, songs: seq<Child>, f: Child -> Child)
    requires songs != []
    ensures NonEmpty(OverLists(m[kind := songs], f)) == NonEmpty(OverLists(m, f))[kind := OverList(songs, f)]
  {
    var a, b := NonEmpty(OverLists(m[kind := songs], f)), NonEmpty(OverLists(m, f))[kind := OverList(songs, f)];
    assert OverList(songs, f) != [];
    assert a.Keys == b.Keys;
    forall k | k in a ensures a[k] == b[k] {
    }
  }

  // The parts an event carries whole.
  function Carried(ev: Event): set<Part> {
    match ev
    case QueueChanged(_, _) => {Rows}
    case NowPlayingChanged(_) => PLAYING_PARTS
    case PositionTick(_) => {Playhead}
    case StarredChanged(_) => {StarredList}
    case _ => {}
  }

  lemma QuickPlayKeepsAlike(l: Library, m: Library, d: Dirt, kind: string, songs: seq<Child>)
    requires Alike(l, m, d)
    ensures Alike(Stored(l, QuickPlayAlbumChanged(kind, songs)), Mirrored(m, QuickPlayAlbumChanged(kind, songs)), d)
    ensures Alike(l.(quickPlay := Dropped(l.quickPlay, kind)), m.(quickPlay := Dropped(m.quickPlay, kind)), d)
  {
    NonEmptyDropped(l.quickPlay, kind, Hide(d));
    NonEmptyDropped(m.quickPlay, kind, Hide(d));
    if songs != [] {
      NonEmptyUpdated(l.quickPlay, kind, songs, Hide(d));
      NonEmptyUpdated(m.quickPlay, kind, songs, Hide(d));
    }
  }

  // Every event but those of one song, stored by the daemon and mirrored by the client, keeps the
  // likeness and settles the parts it carries.
  lemma EventSettles(l: Library, m: Library, d: Dirt, ev: Event)
    requires Alike(l, m, d) && !ev.SongRatingChanged? && !ev.SongStarChanged?
    ensures Alike(Stored(l, ev), Mirrored(m, ev), d.(parts := d.parts - Carried(ev)))
  {
    var f := Hide(d);
    assert Hide(d.(parts := d.parts - Carried(ev))) == f by {
      HideIgnoresParts(d, d.parts - Carried(ev));
    }
    match ev
    case QuickPlayAlbumChanged(kind, songs) =>
      QuickPlayKeepsAlike(l, m, d, kind, songs);
    case AlbumSongsChanged(key, songs) =>
      OverInsert(l.albums, key, songs, ALBUM_SONGS_CAP, f);
      OverInsert(m.albums, key, songs, ALBUM_SONGS_CAP, f);
    case PlaylistSongsChanged(key, songs) =>
      OverInsert(l.playlists, key, songs, PLAYLIST_SONGS_CAP, f);
      OverInsert(m.playlists, key, songs, PLAYLIST_SONGS_CAP, f);
    case _ =>
  }

  // Without the allowance for empty quick-play albums, the two sides part over an album the server
  // says is empty.
  lemma EmptyQuickPlayAlbumDiffers(l: Library, kind: string, songs: seq<Child>)
    ensures var ev := QuickPlayAlbumChanged(kind, songs);
            Stored(l, ev) == Mirrored(l, ev) <==> songs != []
  {
    var ev := QuickPlayAlbumChanged(kind, songs);
    assert kind in Stored(l, ev).quickPlay;
  }

  // ----- writes without an event

  // A state written in unsettled parts only stays alike.
  lemma UnsettledWriteIsHidden(l: Library, m: Library, d: Dirt, l': Library)
    requires Alike(l, m, d) && l' == l.(queue := l'.queue, position := l'.position, playing := l'.playing)
    requires Rows in d.parts || (l'.queue == l.queue && l'.position == l.position)
    requires NowSong in d.parts || (l'.playing.song == l.playing.song && l'.playing.state == l.playing.state)
    requires Playhead in d.parts || l'.playing.position == l.playing.position
    requires Duration in d.parts || l'.playing.duration == l.playing.duration
    ensures Alike(l', m, d)
  {
  }

  // ----- a granted toggle

  lemma RelistedNear(l: Library, m: Library, list: seq<Child>, d: Dirt, e: Dirt)
    requires StarredList in d.parts && e == d.(parts := d.parts - {StarredList})
    ensures Alike(Relisted(l, list), Relisted(m, list), e) <==> Near(Over(l, Hide(d)), Over(m, Hide(d)), d.parts)
  {
    HideIgnoresParts(d, e.parts);
    var a, b := Over(l, Hide(d)), Over(m, Hide(d));
    var a', b' := Over(Relisted(l, list), Hide(e)), Over(Relisted(m, list), Hide(e));
    assert a' == a.(starred := a'.starred, starredIds := a'.starredIds);
    assert b' == b.(starred := a'.starred, starredIds := a'.starredIds);
  }

  // With the fresh list of starred songs on both sides, a granted toggle leaves them alike exactly
  // if all other copies the daemon shows still carry the new marker.
  lemma GrantedIff(l: Library, m: Library, d: Dirt, id: string, on: bool, list: seq<Child>)
    requires Alike(l, m, d)
    ensures var e := Dirt(d.ratings, d.stars - {id}, d.parts - {StarredList});
            Alike(Relisted(l, list), Relisted(StarMirrored(m, id, on), list), e) <==>
            ShownMarked(l, d.parts + {StarredList}, id, on)
  {
    var d1 := d.(parts := d.parts + {StarredList});
    var e1 := d1.(stars := d.stars - {id});
    var e := Dirt(d.ratings, d.stars - {id}, d.parts - {StarredList});
    AlikeUpToMore(l, m, d, d1);
    BothMarked(l, m, d1, id, on);
    MarkedNearIff(l, d1, id, on);
    var a, b := Over(StarMirrored(l, id, on), Hide(e1)), Over(StarMirrored(m, id, on), Hide(e1));
    var c := Over(l, Hide(e1));
    NearSwap(a, b, c, d1.parts);
    NearSym(b, c, d1.parts);
    assert Near(c, b, d1.parts) <==> ShownMarked(l, d1.parts, id, on);
    assert e1.parts - {StarredList} == e.parts;
    RelistedNear(l, StarMirrored(m, id, on), list, e1, e);
  }
}
