// Ratings: every cached copy of a song is updated optimistically and committed or rolled back
// after the server answered.
module Rating {
  import opened Wrappers
  import opened Models
  import opened SongLibrary

  function Rate(id: string, rating: Option<nat>): Child -> Child {
    (s: Child) => if s.id == id then s.(userRating := rating) else s
  }

  function SetRating(l: Library, id: string, rating: Option<nat>): Library {
    Over(l, Rate(id, rating))
  }

  ghost predicate CopiesRated(l: Library, id: string, rating: Option<nat>) {
    forall s :: Holds(l, s) && s.id == id ==> s.userRating == rating
  }

  // At most five stars; zero clears the rating.
  function Normalized(stars: nat): (rating: Option<nat>)
    ensures rating.None? <==> stars == 0
    ensures rating.Some? ==> 1 <= rating.value <= 5 && (stars <= 5 ==> rating.value == stars)
  {
    if stars == 0 then None else Some(if stars > 5 then 5 else stars)
  }

  // ----- the loops

  function FirstRating(s: seq<Child>, id: string): Option<nat> {
    if s == [] then None else if s[0].id == id then s[0].userRating else FirstRating(s[1..], id)
  }

  lemma {:induction false} FirstRatingAt(s: seq<Child>, id: string, i: nat)
    requires i < |s| && s[i].id == id && forall j :: 0 <= j < i ==> s[j].id != id
    ensures FirstRating(s, id) == s[i].userRating
  {
    if i > 0 {
      FirstRatingAt(s[1..], id, i - 1);
    }
  }

  // `before` and `found` are the caller's accumulators.
  method RateList(list: seq<Child>, id: string, rating: Option<nat>, before0: Option<nat>, found0: bool)
    returns (list': seq<Child>, before: Option<nat>, found: bool)
    ensures list' == OverList(list, Rate(id, rating))
    ensures found == (found0 || Has(list, id))
    ensures before == if found0 || !Has(list, id) then before0 else FirstRating(list, id)
  {
    list', before, found := list, before0, found0;
    for i := 0 to |list|
      invariant |list'| == |list| && list'[i..] == list[i..]
      invariant forall j :: 0 <= j < i ==> list'[j] == Rate(id, rating)(list[j])
      invariant found == (found0 || Has(list[..i], id))
      invariant before == if found0 || !Has(list[..i], id) then before0 else FirstRating(list, id)
    {
      assert list'[i] == list'[i..][0] == list[i];
      assert list[..i + 1] == list[..i] + [list[i]];
      if list'[i].id == id {
        assert list[..i + 1][i].id == id;
        if !found {
          FirstRatingAt(list, id, i);
          before := list'[i].userRating;
          found := true;
        }
        list' := list'[i := list'[i].(userRating := rating)];
      }
    }
    assert list[..|list|] == list;
  }

  // The maps are walked in no particular order.
  ghost predicate FirstIn(m: Lists, id: string, rating: Option<nat>) {
    exists k :: k in m && Has(m[k], id) && rating == FirstRating(m[k], id)
  }

  method RateLists(m: Lists, id: string, rating: Option<nat>, before0: Option<nat>, found0: bool)
    returns (m': Lists, before: Option<nat>, found: bool)
    ensures m' == OverLists(m, Rate(id, rating))
    ensures found <==> found0 || HasIn(m, id)
    ensures found0 || !HasIn(m, id) ==> before == before0
    ensures !found0 && HasIn(m, id) ==> FirstIn(m, id, before)
  {
    m', before, found := m, before0, found0;
    var todo := m.Keys;
    while todo != {}
      invariant todo <= m.Keys == m'.Keys
      invariant forall k :: k in m ==> m'[k] == if k in todo then m[k] else OverList(m[k], Rate(id, rating))
      invariant found <==> found0 || exists k :: k in m && k !in todo && Has(m[k], id)
      invariant found0 || !found ==> before == before0
      invariant !found0 && found ==> FirstIn(m, id, before)
    {
      var k :| k in todo;
      var list;
      list, before, found := RateList(m'[k], id, rating, before, found);
      m' := m'[k := list];
      todo := todo - {k};
    }
  }

  // The rating found first, starred songs before the queue before the random songs and so on.
  ghost predicate IsOldRating(l: Library, id: string, r: Option<nat>) {
    if Has(l.starred, id) then r == FirstRating(l.starred, id)
    else if Has(l.queue, id) then r == FirstRating(l.queue, id)
    else if Has(l.random, id) then r == FirstRating(l.random, id)
    else if Has(l.randomAlbum, id) then r == FirstRating(l.randomAlbum, id)
    else if HasIn(l.quickPlay, id) then FirstIn(l.quickPlay, id, r)
    else if HasIn(l.albums.values, id) then FirstIn(l.albums.values, id, r)
    else if HasIn(l.playlists.values, id) then FirstIn(l.playlists.values, id, r)
    else if l.playing.song.Some? && l.playing.song.value.id == id then r == l.playing.song.value.userRating
    else r == None
  }

  // ----- optimistic update and rollback

  lemma RatedAlreadyIff(l: Library, id: string, rating: Option<nat>)
    ensures SetRating(l, id, rating) == l <==> CopiesRated(l, id, rating)
  {
    OverSame(l);
    OverEqualIff(l, Rate(id, rating), Same());
  }

  lemma RatingTwice(l: Library, id: string, first: Option<nat>, second: Option<nat>)
    ensures SetRating(SetRating(l, id, first), id, second) == SetRating(l, id, second)
  {
    OverThen(l, Rate(id, first), Rate(id, second));
    OverEqualIff(l, Then(Rate(id, first), Rate(id, second)), Rate(id, second));
  }

  function Blank(ids: set<string>): Child -> Child {
    (s: Child) => if s.id in ids then s.(userRating := None) else s
  }

  lemma BlankHidesRating(l: Library, ids: set<string>, id: string, rating: Option<nat>)
    requires id in ids
    ensures Over(SetRating(l, id, rating), Blank(ids)) == Over(l, Blank(ids))
  {
    var f := Then(Rate(id, rating), Blank(ids));
    OverThen(l, Rate(id, rating), Blank(ids));
    forall s ensures f(s) == Blank(ids)(s) {
    }
    OverEqualIff(l, f, Blank(ids));
  }

  // Every copy gets the rating, and nothing else moves: exactly the songs with the id change,
  // and only in their rating.
  lemma RatesEveryCopy(l: Library, id: string, rating: Option<nat>)
    ensures CopiesRated(SetRating(l, id, rating), id, rating)
    ensures SetRating(l, id, rating) == l <==> CopiesRated(l, id, rating)
    ensures Over(SetRating(l, id, rating), Blank({id})) == Over(l, Blank({id}))
  {
    RatingTwice(l, id, rating, rating);
    RatedAlreadyIff(SetRating(l, id, rating), id, rating);
    RatedAlreadyIff(l, id, rating);
    BlankHidesRating(l, {id}, id, rating);
  }

  // The rollback after a failed request restores the exact state precisely when all copies agreed.
  lemma RollbackRestoresIff(l: Library, id: string, rating: Option<nat>, before: Option<nat>)
    requires IsOldRating(l, id, before)
    ensures SetRating(SetRating(l, id, rating), id, before) == l <==> CopiesRated(l, id, before)
  {
    RatingTwice(l, id, rating, before);
    RatedAlreadyIff(l, id, before);
  }

  ghost predicate HasCopy(l: Library, id: string) {
    exists s :: Holds(l, s) && s.id == id
  }

  lemma {:induction false} FirstRatingIsFromACopy(s: seq<Child>, id: string) returns (song: Child)
    requires Has(s, id)
    ensures song in s && song.id == id && song.userRating == FirstRating(s, id)
  {
    if s[0].id == id {
      song := s[0];
    } else {
      var i :| 0 <= i < |s| && s[i].id == id;
      assert s[1..][i - 1].id == id;
      song := FirstRatingIsFromACopy(s[1..], id);
    }
  }

  lemma FirstInIsFromACopy(m: Lists, id: string, r: Option<nat>) returns (song: Child)
    requires FirstIn(m, id, r)
    ensures InLists(m, song) && song.id == id && song.userRating == r
  {
    var k :| k in m && Has(m[k], id) && r == FirstRating(m[k], id);
    song := FirstRatingIsFromACopy(m[k], id);
  }

  lemma HasInIff(m: Lists, id: string)
    ensures HasIn(m, id) <==> exists s :: InLists(m, s) && s.id == id
  {
    if HasIn(m, id) {
      var k :| k in m && Has(m[k], id);
      var i :| 0 <= i < |m[k]| && m[k][i].id == id;
      assert InLists(m, m[k][i]);
    }
    if s :| InLists(m, s) && s.id == id {
      var k :| k in m && s in m[k];
      assert Has(m[k], id);
    }
  }

  lemma OldRatingIsFromACopy(l: Library, id: string, before: Option<nat>)
    requires IsOldRating(l, id, before)
    ensures HasCopy(l, id) ==> exists s :: Holds(l, s) && s.id == id && s.userRating == before
    ensures !HasCopy(l, id) ==> before == None
  {
    HasInIff(l.quickPlay, id);
    HasInIff(l.albums.values, id);
    HasInIff(l.playlists.values, id);
    var s: Child;
    if Has(l.starred, id) { s := FirstRatingIsFromACopy(l.starred, id); }
    else if Has(l.queue, id) { s := FirstRatingIsFromACopy(l.queue, id); }
    else if Has(l.random, id) { s := FirstRatingIsFromACopy(l.random, id); }
    else if Has(l.randomAlbum, id) { s := FirstRatingIsFromACopy(l.randomAlbum, id); }
    else if HasIn(l.quickPlay, id) { s := FirstInIsFromACopy(l.quickPlay, id, before); }
    else if HasIn(l.albums.values, id) { s := FirstInIsFromACopy(l.albums.values, id, before); }
    else if HasIn(l.playlists.values, id) { s := FirstInIsFromACopy(l.playlists.values, id, before); }
    else if l.playing.song.Some? && l.playing.song.value.id == id { s := l.playing.song.value; }
    else {
      assert !HasCopy(l, id);
      return;
    }
    assert Holds(l, s);
  }

  // If the copies agree on any rating at all, that is the one picked up, in whatever order the
  // maps were walked; without a copy there is none.
  lemma OldRatingIsTheAgreedOne(l: Library, id: string, before: Option<nat>, agreed: Option<nat>)
    requires IsOldRating(l, id, before)
    ensures CopiesRated(l, id, agreed) && HasCopy(l, id) ==> before == agreed
    ensures !HasCopy(l, id) ==> before == None
  {
    OldRatingIsFromACopy(l, id, before);
  }
}
