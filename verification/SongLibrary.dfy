// The songs the daemon keeps: starred songs, the queue, random picks, cached album and playlist
// songs, the playing song. The terminal client mirrors the same record.
module SongLibrary {
  import opened Wrappers
  import opened Models
  import opened LruCache

  type Lists = map<string, seq<Child>>

  datatype Library = Library(
    starred: seq<Child>,
    queue: seq<Child>,
    position: Option<nat>,
    random: seq<Child>,
    randomAlbum: seq<Child>,
    quickPlay: Lists,
    albums: Cache<seq<Child>>,
    playlists: Cache<seq<Child>>,
    playing: NowPlaying,
    starredIds: set<string>)

  const EMPTY := Library([], [], None, [], [], map[], Cache(map[], []), Cache(map[], []), NOTHING_PLAYING, {})

  // ----- changing every song

  function OverLists(m: Lists, f: Child -> Child): Lists {
    map k | k in m :: OverList(m[k], f)
  }

  function Over(l: Library, f: Child -> Child): Library {
    Library(OverList(l.starred, f), OverList(l.queue, f), l.position, OverList(l.random, f), OverList(l.randomAlbum, f),
            OverLists(l.quickPlay, f),
            l.albums.(values := OverLists(l.albums.values, f)),
            l.playlists.(values := OverLists(l.playlists.values, f)),
            OverPlaying(l.playing, f),
            l.starredIds)
  }

  function Then(f: Child -> Child, g: Child -> Child): Child -> Child {
    (s: Child) => g(f(s))
  }

  function Same(): Child -> Child {
    (s: Child) => s
  }

  ghost predicate InLists(m: Lists, s: Child) {
    exists k :: k in m && s in m[k]
  }

  // `s` is one of the copies kept anywhere.
  ghost predicate Holds(l: Library, s: Child) {
    || s in l.starred || s in l.queue || s in l.random || s in l.randomAlbum
    || InLists(l.quickPlay, s) || InLists(l.albums.values, s) || InLists(l.playlists.values, s)
    || l.playing.song == Some(s)
  }

  predicate Has(s: seq<Child>, id: string) {
    exists i :: 0 <= i < |s| && s[i].id == id
  }

  ghost predicate HasIn(m: Lists, id: string) {
    exists k :: k in m && Has(m[k], id)
  }

  ghost predicate CachesCoherent(l: Library) {
    Coherent(l.albums) && Coherent(l.playlists)
  }

  lemma OverKeepsCachesCoherent(l: Library, f: Child -> Child)
    requires CachesCoherent(l)
    ensures CachesCoherent(Over(l, f))
  {
    var r := Over(l, f);
    assert r.albums.values.Keys == l.albums.values.Keys && r.playlists.values.Keys == l.playlists.values.Keys;
  }

  // ----- laws of such changes

  lemma OverListEqualIff(s: seq<Child>, f: Child -> Child, g: Child -> Child)
    ensures OverList(s, f) == OverList(s, g) <==> forall x :: x in s ==> f(x) == g(x)
  {
    if OverList(s, f) == OverList(s, g) {
      forall x | x in s ensures f(x) == g(x) {
        var i :| 0 <= i < |s| && s[i] == x;
        assert OverList(s, f)[i] == OverList(s, g)[i];
      }
    }
  }

  lemma OverListsEqualIff(m: Lists, f: Child -> Child, g: Child -> Child)
    ensures OverLists(m, f) == OverLists(m, g) <==> forall s :: InLists(m, s) ==> f(s) == g(s)
  {
    if OverLists(m, f) == OverLists(m, g) {
      forall s | InLists(m, s) ensures f(s) == g(s) {
        var k :| k in m && s in m[k];
        assert OverLists(m, f)[k] == OverLists(m, g)[k];
        OverListEqualIff(m[k], f, g);
      }
    } else {
      var k :| k in m && OverList(m[k], f) != OverList(m[k], g);
      OverListEqualIff(m[k], f, g);
      var s :| s in m[k] && f(s) != g(s);
      assert InLists(m, s);
    }
  }

  // Two changes have the same effect exactly when they agree on every copy.
  lemma OverEqualIff(l: Library, f: Child -> Child, g: Child -> Child)
    ensures Over(l, f) == Over(l, g) <==> forall s :: Holds(l, s) ==> f(s) == g(s)
  {
    OverListEqualIff(l.starred, f, g);
    OverListEqualIff(l.queue, f, g);
    OverListEqualIff(l.random, f, g);
    OverListEqualIff(l.randomAlbum, f, g);
    OverListsEqualIff(l.quickPlay, f, g);
    OverListsEqualIff(l.albums.values, f, g);
    OverListsEqualIff(l.playlists.values, f, g);
  }

  lemma OverListLift(s: seq<Child>, t: seq<Child>, f: Child -> Child, g: Child -> Child)
    requires forall x, y :: f(x) == f(y) ==> g(x) == g(y)
    requires OverList(s, f) == OverList(t, f)
    ensures OverList(s, g) == OverList(t, g)
  {
    assert |s| == |OverList(s, f)| == |t|;
    forall i | 0 <= i < |s| ensures g(s[i]) == g(t[i]) {
      assert OverList(s, f)[i] == f(s[i]) && OverList(t, f)[i] == f(t[i]);
    }
  }

  lemma OverListsLift(m: Lists, n: Lists, f: Child -> Child, g: Child -> Child)
    requires forall x, y :: f(x) == f(y) ==> g(x) == g(y)
    requires OverLists(m, f) == OverLists(n, f)
    ensures OverLists(m, g) == OverLists(n, g)
  {
    assert m.Keys == OverLists(m, f).Keys == OverLists(n, f).Keys == n.Keys;
    forall k | k in m ensures OverList(m[k], g) == OverList(n[k], g) {
      assert OverLists(m, f)[k] == OverLists(n, f)[k];
      OverListLift(m[k], n[k], f, g);
    }
  }

  lemma OverListsThen(m: Lists, f: Child -> Child, g: Child -> Child)
    ensures OverLists(OverLists(m, f), g) == OverLists(m, Then(f, g))
  {
    forall k | k in m ensures OverList(OverList(m[k], f), g) == OverList(m[k], Then(f, g)) {
    }
  }

  lemma OverThen(l: Library, f: Child -> Child, g: Child -> Child)
    ensures Over(Over(l, f), g) == Over(l, Then(f, g))
  {
    var a, b := Over(Over(l, f), g), Over(l, Then(f, g));
    assert a.starred == b.starred && a.queue == b.queue && a.random == b.random && a.randomAlbum == b.randomAlbum;
    OverListsThen(l.quickPlay, f, g);
    OverListsThen(l.albums.values, f, g);
    OverListsThen(l.playlists.values, f, g);
  }

  lemma OverListsSame(m: Lists)
    ensures OverLists(m, Same()) == m
  {
    forall k | k in m ensures OverList(m[k], Same()) == m[k] {
    }
  }

  lemma OverSame(l: Library)
    ensures Over(l, Same()) == l
  {
    var r := Over(l, Same());
    assert r.starred == l.starred && r.queue == l.queue && r.random == l.random && r.randomAlbum == l.randomAlbum;
    OverListsSame(l.quickPlay);
    OverListsSame(l.albums.values);
    OverListsSame(l.playlists.values);
  }
}
