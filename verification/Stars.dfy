// Stars: a toggle marks every cached copy, keeps the list of starred songs and its index in step,
// and is undone by the opposite pass when the server refuses it.
module Stars {
  import opened Wrappers
  import opened Models
  import opened SongLibrary

  function Marker(on: bool): Option<string> {
    if on then Some("1") else None
  }

  function Mark(id: string, on: bool): Child -> Child {
    (s: Child) => if s.id == id then s.(starred := Marker(on)) else s
  }

  // The copies outside the list of starred songs.
  ghost predicate HoldsElsewhere(l: Library, s: Child) {
    Holds(l.(starred := []), s)
  }

  ghost predicate CopiesMarked(l: Library, id: string, on: bool) {
    forall s :: HoldsElsewhere(l, s) && s.id == id ==> s.starred == Marker(on)
  }

  // The index first, then any marked copy but the playing song.
  ghost predicate IsStarred(l: Library, id: string) {
    id in l.starredIds || exists s :: Holds(l.(playing := NOTHING_PLAYING), s) && s.id == id && s.starred.Some?
  }

  function Without(list: seq<Child>, id: string): (r: seq<Child>)
    ensures |r| <= |list| && !Has(r, id)
  {
    if list == [] then []
    else
      var n := |list| - 1;
      Without(list[..n], id) + if list[n].id == id then [] else [list[n]]
  }

  function First(list: seq<Child>, id: string): (r: Option<Child>)
    ensures r.Some? <==> Has(list, id)
    ensures r.Some? ==> r.value in list && r.value.id == id
  {
    if list == [] then None
    else if list[0].id == id then Some(list[0])
    else
      assert forall i :: 1 <= i < |list| ==> list[i] == list[1..][i - 1];
      First(list[1..], id)
  }

  ghost predicate FirstOf(m: Lists, id: string, src: Option<Child>) {
    exists k :: k in m && Has(m[k], id) && src == First(m[k], id)
  }

  // The copy found first outside the starred songs; the maps are walked in no particular order.
  ghost predicate IsSource(l: Library, id: string, src: Option<Child>) {
    if Has(l.queue, id) then src == First(l.queue, id)
    else if Has(l.random, id) then src == First(l.random, id)
    else if Has(l.randomAlbum, id) then src == First(l.randomAlbum, id)
    else if HasIn(l.quickPlay, id) then FirstOf(l.quickPlay, id, src)
    else if HasIn(l.albums.values, id) then FirstOf(l.albums.values, id, src)
    else if HasIn(l.playlists.values, id) then FirstOf(l.playlists.values, id, src)
    else src == None
  }

  function Synced(list: seq<Child>, id: string, on: bool, src: Option<Child>): seq<Child> {
    if !on then Without(list, id)
    else if Has(list, id) then OverList(list, Mark(id, true))
    else if src.Some? then list + [Mark(id, true)(src.value)]
    else list
  }

  function Indexed(ids: set<string>, id: string, on: bool): set<string> {
    if on then ids + {id} else ids - {id}
  }

  // One pass of the daemon.
  function ApplyStar(l: Library, id: string, on: bool, src: Option<Child>): Library {
    Over(l, Mark(id, on)).(starred := Synced(l.starred, id, on, src), starredIds := Indexed(l.starredIds, id, on))
  }

  // One pass of the client, which leaves the list of starred songs to its own event.
  function StarMirrored(l: Library, id: string, on: bool): Library {
    Over(l, Mark(id, on)).(starred := l.starred, starredIds := Indexed(l.starredIds, id, on))
  }

  // The index of a list of starred songs.
  function IndexOfStarred(songs: seq<Child>): set<string> {
    set i | 0 <= i < |songs| && songs[i].starred.Some? :: songs[i].id
  }

  // A fresh list from the server, with its index.
  function Relisted(l: Library, list: seq<Child>): Library {
    l.(starred := list, starredIds := IndexOfStarred(list))
  }

  // ----- the loops

  method MarkList(list: seq<Child>, id: string, on: bool) returns (list': seq<Child>)
    ensures list' == OverList(list, Mark(id, on))
  {
    list' := list;
    for i := 0 to |list|
      invariant |list'| == |list| && list'[i..] == list[i..]
      invariant forall j :: 0 <= j < i ==> list'[j] == Mark(id, on)(list[j])
    {
      assert list'[i] == list'[i..][0] == list[i];
      if list'[i].id == id {
        list' := list'[i := list'[i].(starred := Marker(on))];
      }
    }
  }

  method MarkLists(m: Lists, id: string, on: bool) returns (m': Lists)
    ensures m' == OverLists(m, Mark(id, on))
  {
    m' := m;
    var todo := m.Keys;
    while todo != {}
      invariant todo <= m.Keys == m'.Keys
      invariant forall k :: k in m ==> m'[k] == if k in todo then m[k] else OverList(m[k], Mark(id, on))
    {
      var k :| k in todo;
      var list := MarkList(m'[k], id, on);
      m' := m'[k := list];
      todo := todo - {k};
    }
  }

  method RetainOthers(list: seq<Child>, id: string) returns (list': seq<Child>)
    ensures list' == Without(list, id)
  {
    list' := [];
    for i := 0 to |list|
      invariant list' == Without(list[..i], id)
    {
      assert list[..i + 1][..i] == list[..i];
      if list[i].id != id {
        list' := list' + [list[i]];
      }
    }
    assert list[..|list|] == list;
  }

  lemma {:induction false} FirstAt(list: seq<Child>, id: string, i: nat)
    requires i < |list| && list[i].id == id && forall j :: 0 <= j < i ==> list[j].id != id
    ensures First(list, id) == Some(list[i])
  {
    if i > 0 {
      FirstAt(list[1..], id, i - 1);
    }
  }

  method Find(list: seq<Child>, id: string) returns (src: Option<Child>)
    ensures src == First(list, id)
  {
    for i := 0 to |list|
      invariant forall j :: 0 <= j < i ==> list[j].id != id
    {
      if list[i].id == id {
        FirstAt(list, id, i);
        return Some(list[i]);
      }
    }
    return None;
  }

  method FindIn(m: Lists, id: string) returns (src: Option<Child>)
    ensures src.Some? <==> HasIn(m, id)
    ensures src.Some? ==> FirstOf(m, id, src)
  {
    var todo := m.Keys;
    while todo != {}
      invariant todo <= m.Keys
      invariant forall k :: k in m && k !in todo ==> !Has(m[k], id)
    {
      var k :| k in todo;
      src := Find(m[k], id);
      if src.Some? {
        return;
      }
      todo := todo - {k};
    }
    return None;
  }

  method AnyMarked(list: seq<Child>, id: string) returns (found: bool)
    ensures found <==> exists s :: s in list && s.id == id && s.starred.Some?
  {
    for i := 0 to |list|
      invariant forall j :: 0 <= j < i ==> !(list[j].id == id && list[j].starred.Some?)
    {
      if list[i].id == id && list[i].starred.Some? {
        return true;
      }
    }
    return false;
  }

  method AnyMarkedIn(m: Lists, id: string) returns (found: bool)
    ensures found <==> exists s :: InLists(m, s) && s.id == id && s.starred.Some?
  {
    var todo := m.Keys;
    while todo != {}
      invariant todo <= m.Keys
      invariant forall k, s :: k in m && k !in todo && s in m[k] ==> !(s.id == id && s.starred.Some?)
    {
      var k :| k in todo;
      found := AnyMarked(m[k], id);
      if found {
        var s :| s in m[k] && s.id == id && s.starred.Some?;
        assert InLists(m, s);
        return;
      }
      todo := todo - {k};
    }
    return false;
  }

  // ----- what a refused toggle leaves behind

  lemma MarkedAlreadyIff(l: Library, id: string, on: bool)
    ensures Over(l.(starred := []), Mark(id, on)) == l.(starred := []) <==> CopiesMarked(l, id, on)
  {
    var m := l.(starred := []);
    OverSame(m);
    OverEqualIff(m, Mark(id, on), Same());
  }

  lemma MarkTwice(l: Library, id: string, first: bool, second: bool)
    ensures Over(Over(l, Mark(id, first)), Mark(id, second)) == Over(l, Mark(id, second))
  {
    OverThen(l, Mark(id, first), Mark(id, second));
    OverEqualIff(l, Then(Mark(id, first), Mark(id, second)), Mark(id, second));
  }

  // A pass of the client: every copy outside the list has the marker, and only markers of that
  // song changed.
  lemma MarksEveryCopy(l: Library, id: string, on: bool)
    ensures var r := StarMirrored(l, id, on);
            && CopiesMarked(r, id, on) && (id in r.starredIds <==> on)
            && r.starred == l.starred && r.starredIds - {id} == l.starredIds - {id}
            && Over(r, Mark(id, false)).(starredIds := {}) == Over(l, Mark(id, false)).(starredIds := {})
  {
    var r := StarMirrored(l, id, on);
    MarkTwice(l.(starred := []), id, on, on);
    MarkedAlreadyIff(r, id, on);
    assert r.(starred := [], starredIds := {}) == Over(l.(starred := [], starredIds := {}), Mark(id, on));
    MarkTwice(l.(starred := []), id, on, false);
  }

  // A pass of the daemon does the same, and its list then shows the song exactly if it should and can.
  lemma PassMarksEveryCopy(l: Library, id: string, on: bool, src: Option<Child>)
    requires src.Some? ==> src.value.id == id
    ensures var r := ApplyStar(l, id, on, src);
            && CopiesMarked(r, id, on) && (id in r.starredIds <==> on)
            && r.(starred := l.starred) == StarMirrored(l, id, on)
            && (Has(r.starred, id) <==> on && (Has(l.starred, id) || src.Some?))
            && forall s :: s in r.starred && s.id == id ==> s.starred == Marker(on)
  {
    var r, m := ApplyStar(l, id, on, src), StarMirrored(l, id, on);
    MarksEveryCopy(l, id, on);
    assert r.(starred := []) == m.(starred := []);
    forall s | HoldsElsewhere(r, s) && s.id == id ensures s.starred == Marker(on) {
      assert HoldsElsewhere(m, s);
    }
    if on && Has(l.starred, id) {
      var i :| 0 <= i < |l.starred| && l.starred[i].id == id;
      assert r.starred[i].id == id;
    } else if on && src.Some? {
      assert r.starred[|l.starred|].id == id;
    }
  }

  // A pass decides the test: right after it the song counts as starred exactly if it was starred.
  lemma PassDecidesTest(l: Library, id: string, on: bool, src: Option<Child>)
    requires src.Some? ==> src.value.id == id
    ensures IsStarred(ApplyStar(l, id, on, src), id) <==> on
    ensures forall s :: HoldsElsewhere(ApplyStar(l, id, on, src), s) && s.id == id ==>
              s.starred == if on then Some("1") else None
  {
    var r := ApplyStar(l, id, on, src);
    PassMarksEveryCopy(l, id, on, src);
    if !on {
      forall s | Holds(r.(playing := NOTHING_PLAYING), s) && s.id == id ensures s.starred.None? {
        if s !in r.starred {
          assert HoldsElsewhere(r, s);
        }
      }
    }
  }

  // What is playing does not count.
  lemma PlayingDoesNotCount(l: Library, id: string, np: NowPlaying)
    ensures IsStarred(l.(playing := np), id) <==> IsStarred(l, id)
  {
    assert l.(playing := np).(playing := NOTHING_PLAYING) == l.(playing := NOTHING_PLAYING);
  }

  lemma HasTail(list: seq<Child>, id: string)
    requires list != []
    ensures Has(list, id) <==> list[0].id == id || Has(list[1..], id)
  {
    if Has(list, id) && list[0].id != id {
      var i :| 0 <= i < |list| && list[i].id == id;
      assert list[1..][i - 1].id == id;
    }
    if Has(list[1..], id) {
      var i :| 0 <= i < |list[1..]| && list[1..][i].id == id;
      assert list[i + 1].id == id;
    }
  }

  lemma {:induction false} FirstOfChain(a: seq<Child>, b: seq<Child>, id: string)
    ensures First(a + b, id) == if Has(a, id) then First(a, id) else First(b, id)
  {
    if a == [] {
      assert a + b == b;
    } else {
      assert (a + b)[1..] == a[1..] + b;
      HasTail(a, id);
      FirstOfChain(a[1..], b, id);
    }
  }

  lemma HasChain(a: seq<Child>, b: seq<Child>, id: string)
    ensures Has(a + b, id) <==> Has(a, id) || Has(b, id)
  {
    if Has(a, id) {
      var i :| 0 <= i < |a| && a[i].id == id;
      assert (a + b)[i].id == id;
    }
    if Has(b, id) {
      var i :| 0 <= i < |b| && b[i].id == id;
      assert (a + b)[|a| + i].id == id;
    }
  }

  // The copy appended is the first of queue, random songs and random album in this order, else one
  // of the cached lists, and there is one exactly if any of them has the song.
  lemma SourceIsFirstFound(l: Library, id: string, src: Option<Child>)
    requires IsSource(l, id, src)
    ensures First(l.queue + l.random + l.randomAlbum, id).Some? ==>
              src == First(l.queue + l.random + l.randomAlbum, id)
    ensures src.Some? <==> Has(l.queue, id) || Has(l.random, id) || Has(l.randomAlbum, id) || HasIn(l.quickPlay, id)
                           || HasIn(l.albums.values, id) || HasIn(l.playlists.values, id)
    ensures src.Some? ==> src.value.id == id && HoldsElsewhere(l, src.value)
  {
    FirstOfChain(l.queue + l.random, l.randomAlbum, id);
    FirstOfChain(l.queue, l.random, id);
    HasChain(l.queue, l.random, id);
  }

  lemma AbsentInPrefix(list: seq<Child>, id: string, n: nat)
    requires !Has(list, id) && n <= |list|
    ensures !Has(list[..n], id)
  {
    assert forall i :: 0 <= i < n ==> list[..n][i] == list[i];
  }

  lemma {:induction false} WithoutAbsent(list: seq<Child>, id: string)
    requires !Has(list, id)
    ensures Without(list, id) == list
  {
    if list != [] {
      var n := |list| - 1;
      var init, last := list[..n], list[n];
      AbsentInPrefix(list, id, n);
      WithoutAbsent(init, id);
      assert last.id != id;
      assert list == init + [last];
    }
  }

  lemma {:induction false} WithoutAppend(list: seq<Child>, id: string, more: seq<Child>)
    requires forall i :: 0 <= i < |more| ==> more[i].id == id
    ensures Without(list + more, id) == Without(list, id)
  {
    if more == [] {
      assert list + more == list;
    } else {
      var n := |more| - 1;
      assert (list + more)[..|list + more| - 1] == list + more[..n];
      WithoutAppend(list, id, more[..n]);
    }
  }

  lemma {:induction false} WithoutMarked(list: seq<Child>, id: string, on: bool)
    ensures Without(OverList(list, Mark(id, on)), id) == Without(list, id)
  {
    if list != [] {
      var n := |list| - 1;
      var marked := OverList(list, Mark(id, on));
      assert marked[..n] == OverList(list[..n], Mark(id, on));
      WithoutMarked(list[..n], id, on);
    }
  }

  // The list that a refused unstar leaves: without the song, then again with the copy found first.
  predicate TailIs(list: seq<Child>, id: string, src: Option<Child>) {
    if src.None? then !Has(list, id)
    else list != [] && list[|list| - 1] == src.value && !Has(list[..|list| - 1], id)
  }

  lemma RestoredTailIff(list: seq<Child>, id: string, src: Option<Child>)
    requires src.Some? ==> src.value.id == id
    ensures list == Without(list, id) + (if src.Some? then [src.value] else []) <==> TailIs(list, id, src)
  {
    if src.None? {
      if !Has(list, id) {
        WithoutAbsent(list, id);
      }
    } else {
      if TailIs(list, id, src) {
        WithoutAbsent(list[..|list| - 1], id);
      }
      if list == Without(list, id) + [src.value] {
        assert list[..|list| - 1] == Without(list, id);
      }
    }
  }

  // The scan for a marked copy leaves out the playing song, which may be marked all the same.
  predicate PlaysMarked(l: Library, id: string) {
    l.playing.song.Some? && l.playing.song.value.id == id && l.playing.song.value.starred.Some?
  }

  lemma UnstarredMeansUnmarked(l: Library, id: string)
    requires !IsStarred(l, id)
    ensures CopiesMarked(l, id, false) <==> !PlaysMarked(l, id)
  {
    if PlaysMarked(l, id) {
      assert HoldsElsewhere(l, l.playing.song.value);
    } else {
      forall s | HoldsElsewhere(l, s) && s.id == id ensures s.starred == None {
        if !Holds(l.(playing := NOTHING_PLAYING), s) {
          assert l.playing.song == Some(s);
        }
      }
    }
  }

  // Outside the list, the second pass alone decides.
  lemma UndoneElsewhere(l: Library, id: string, on: bool, src1: Option<Child>, src2: Option<Child>)
    ensures var r := ApplyStar(ApplyStar(l, id, on, src1), id, !on, src2);
            r.(starred := l.starred) == l <==> CopiesMarked(l, id, !on) && (id in l.starredIds <==> !on)
  {
    var e := l.(starred := []);
    MarkTwice(e, id, on, !on);
    MarkedAlreadyIff(l, id, !on);
    var r := ApplyStar(ApplyStar(l, id, on, src1), id, !on, src2);
    assert r.(starred := [], starredIds := l.starredIds) == Over(e, Mark(id, !on));
    assert r.starredIds == Indexed(l.starredIds, id, !on);
    assert r.starredIds == l.starredIds <==> (id in l.starredIds <==> !on);
  }

  lemma SourceHasId(l: Library, id: string, src: Option<Child>)
    requires IsSource(l, id, src)
    ensures src.Some? ==> src.value.id == id
  {
  }

  // A refused star: everything is as before exactly if the song was neither in the list nor playing
  // with a marker of its own.
  lemma RefusedStarRestoresIff(l: Library, id: string, src: Option<Child>)
    requires !IsStarred(l, id) && IsSource(Over(l, Mark(id, true)), id, src)
    ensures ApplyStar(ApplyStar(l, id, true, src), id, false, None) == l <==> !Has(l.starred, id) && !PlaysMarked(l, id)
  {
    UnstarredMeansUnmarked(l, id);
    UndoneElsewhere(l, id, true, src, None);
    SourceHasId(Over(l, Mark(id, true)), id, src);
    assert ApplyStar(ApplyStar(l, id, true, src), id, false, None).starred == Without(l.starred, id) by {
      if Has(l.starred, id) {
        WithoutMarked(l.starred, id, true);
      } else if src.Some? {
        WithoutAppend(l.starred, id, [Mark(id, true)(src.value)]);
      }
    }
    if !Has(l.starred, id) {
      WithoutAbsent(l.starred, id);
    }
  }

  lemma {:induction false} FirstMarked(list: seq<Child>, id: string, on: bool)
    ensures var found := First(OverList(list, Mark(id, on)), id);
            found.Some? ==> found.value.starred == Marker(on)
  {
    var marked := OverList(list, Mark(id, on));
    if marked != [] && marked[0].id != id {
      assert marked[1..] == OverList(list[1..], Mark(id, on));
      FirstMarked(list[1..], id, on);
    }
  }

  lemma SourceIsMarked(l: Library, id: string, on: bool, src: Option<Child>)
    requires IsSource(Over(l, Mark(id, on)), id, src)
    ensures src.Some? ==> src.value.starred == Marker(on) && Mark(id, on)(src.value) == src.value
  {
    SourceHasId(Over(l, Mark(id, on)), id, src);
    FirstMarked(l.queue, id, on);
    FirstMarked(l.random, id, on);
    FirstMarked(l.randomAlbum, id, on);
    forall k | k in l.quickPlay { FirstMarked(l.quickPlay[k], id, on); }
    forall k | k in l.albums.values { FirstMarked(l.albums.values[k], id, on); }
    forall k | k in l.playlists.values { FirstMarked(l.playlists.values[k], id, on); }
  }

  // A refused unstar: everything is as before exactly if all other copies carried the daemon's own
  // marker, the index knew the song, and the list had it once, last, as the copy found first
  // elsewhere, or neither the list nor anything else had a copy.
  lemma RefusedUnstarRestoresIff(l: Library, id: string, src: Option<Child>)
    requires IsStarred(l, id) && IsSource(Over(ApplyStar(l, id, false, None), Mark(id, true)), id, src)
    ensures ApplyStar(ApplyStar(l, id, false, None), id, true, src) == l <==>
            CopiesMarked(l, id, true) && id in l.starredIds && TailIs(l.starred, id, src)
  {
    UndoneElsewhere(l, id, false, None, src);
    SourceHasId(Over(ApplyStar(l, id, false, None), Mark(id, true)), id, src);
    SourceIsMarked(ApplyStar(l, id, false, None), id, true, src);
    RestoredTailIff(l.starred, id, src);
  }
}
