// The offline track cache: an index of downloaded tracks with sizes and last-use times, the set
// of downloads in flight, and eviction of the least recently used down to a cap.
module TrackCache {
  import opened Wrappers

  const MAX_U64: nat := 0xFFFF_FFFF_FFFF_FFFF

  datatype Entry = Entry(file: string, size: nat, lastUsed: nat)

  type Index = map<string, Entry>

  // In memory: index, downloads in flight, running total. On disk: finished files and the index
  // as last persisted.
  datatype Cache = Cache(entries: Index, inFlight: set<string>, total: nat, files: set<string>, saved: Index)

  function SatAdd(a: nat, b: nat): nat {
    if a + b > MAX_U64 then MAX_U64 else a + b
  }

  function SatSub(a: nat, b: nat): nat {
    if a < b then 0 else a - b
  }

  // ----- the exact sum of the indexed sizes

  ghost function Total(m: Index): nat
    decreases |m|
  {
    if m == map[] then 0
    else
      var id :| id in m;
      m[id].size + Total(m - {id})
  }

  lemma {:induction false} TotalRemove(m: Index, id: string)
    requires id in m
    ensures Total(m) == m[id].size + Total(m - {id})
    decreases |m|
  {
    var id' :| id' in m && Total(m) == m[id'].size + Total(m - {id'});
    if id' != id {
      TotalRemove(m - {id'}, id);
      TotalRemove(m - {id}, id');
      assert m - {id'} - {id} == m - {id} - {id'};
    }
  }

  lemma TotalAdd(m: Index, id: string, e: Entry)
    requires id !in m
    ensures Total(m[id := e]) == Total(m) + e.size
  {
    TotalRemove(m[id := e], id);
    assert m[id := e] - {id} == m;
  }

  lemma TotalTouch(m: Index, id: string, now: nat)
    requires id in m
    ensures Total(m[id := m[id].(lastUsed := now)]) == Total(m)
  {
    var m' := m[id := m[id].(lastUsed := now)];
    TotalRemove(m, id);
    TotalRemove(m', id);
    assert m' - {id} == m - {id};
  }

  ghost predicate Exact(c: Cache) {
    c.total == Total(c.entries)
  }

  // ----- operations on values

  // Entries whose file disappeared are dropped; nothing is in flight after a start.
  ghost function Open(files: set<string>, saved: Index): Cache {
    var kept := map id | id in saved && saved[id].file in files :: saved[id];
    Cache(kept, {}, Total(kept), files, saved)
  }

  // A lookup touches the entry only when its file is really there.
  function Touched(c: Cache, id: string, now: nat): Cache {
    if id in c.entries && c.entries[id].file in c.files then
      c.(entries := c.entries[id := c.entries[id].(lastUsed := now)])
    else c
  }

  predicate CanBegin(c: Cache, id: string) {
    id !in c.entries && id !in c.inFlight
  }

  function Begun(c: Cache, id: string): Cache {
    if CanBegin(c, id) then c.(inFlight := c.inFlight + {id}) else c
  }

  function Committed(c: Cache, id: string, file: string, size: nat, now: nat): Cache {
    c.(inFlight := c.inFlight - {id}, total := SatAdd(c.total, size),
       entries := c.entries[id := Entry(file, size, now)])
  }

  function Persisted(c: Cache): Cache {
    c.(saved := c.entries)
  }

  function Abandoned(c: Cache, id: string): Cache {
    c.(inFlight := c.inFlight - {id})
  }

  // The running total stays the exact sum exactly when a commit is of a new id and neither it nor
  // the sum overflows; `begin` refuses indexed ids, so only overflow is left.
  lemma CommitExactIff(c: Cache, id: string, file: string, size: nat, now: nat)
    requires Exact(c) && id !in c.entries
    ensures Exact(Committed(c, id, file, size, now)) <==> c.total + size <= MAX_U64
  {
    TotalAdd(c.entries, id, Entry(file, size, now));
  }

  // ----- eviction

  ghost predicate OldestFirst(entries: Index, ids: seq<string>) {
    forall i, j :: 0 <= i < j < |ids| && ids[i] in entries && ids[j] in entries ==>
      entries[ids[i]].lastUsed <= entries[ids[j]].lastUsed
  }

  // `order` lists the index from least to most recently used (ties in any order).
  ghost predicate ByAge(entries: Index, order: seq<string>) {
    && (forall id :: id in order <==> id in entries)
    && (forall i, j :: 0 <= i < j < |order| ==> order[i] != order[j])
    && OldestFirst(entries, order)
  }

  function Ids(s: seq<string>): set<string> {
    set id | id in s
  }

  ghost function FilesOf(entries: Index, ids: seq<string>): set<string> {
    set id | id in ids && id in entries :: entries[id].file
  }

  // What evicting the sequence `gone` to `max` means, read from the state before and after.
  ghost predicate Evicts(before: Cache, max: nat, gone: seq<string>, after: Cache) {
    && (forall id :: id in gone ==> id in before.entries)
    && (forall i, j :: 0 <= i < j < |gone| ==> gone[i] != gone[j])
    && OldestFirst(before.entries, gone)
    && after.entries == before.entries - Ids(gone)
    && after.files == before.files - FilesOf(before.entries, gone)
    && after.inFlight == before.inFlight
    && after.saved == (if gone == [] then before.saved else after.entries)
    // the cap holds, and the total is still the exact sum of what survives
    && Exact(after) && after.total <= max
    // nothing evicted was used more recently than anything kept
    && (forall victim, kept :: victim in gone && kept in after.entries ==>
          before.entries[victim].lastUsed <= before.entries[kept].lastUsed)
    // stopping at any earlier point would have left too much
    && (forall n :: 0 <= n < |gone| ==> Total(before.entries - Ids(gone[..n])) > max)
  }

  lemma IdsGrow(s: seq<string>, n: nat)
    requires n < |s|
    ensures Ids(s[..n + 1]) == Ids(s[..n]) + {s[n]}
  {
    assert s[..n + 1] == s[..n] + [s[n]];
  }

  // Everything goes only when the most recent track alone exceeds the cap.
  lemma EmptiedOnlyByOversizedTrack(before: Cache, max: nat, gone: seq<string>, after: Cache)
    requires Evicts(before, max, gone, after) && gone != [] && after.entries == map[]
    ensures before.entries[gone[|gone| - 1]].size > max
  {
    var n := |gone| - 1;
    var last := gone[n];
    assert gone[..n + 1] == gone;
    IdsGrow(gone, n);
    var rest := before.entries - Ids(gone[..n]);
    assert last in rest by {
      assert last !in Ids(gone[..n]);
    }
    TotalRemove(rest, last);
    assert rest - {last} == after.entries;
  }

  ghost predicate DistinctAges(entries: Index) {
    forall x, y :: x in entries && y in entries && x != y ==> entries[x].lastUsed != entries[y].lastUsed
  }

  lemma OlderThanLast(entries: Index, g: seq<string>, extra: string, id: string)
    requires OldestFirst(entries, g) && extra in g && id in g && id != extra
    requires forall x :: x in g ==> x in entries
    requires DistinctAges(entries) && entries[id].lastUsed <= entries[extra].lastUsed
    ensures id in g[..|g| - 1]
  {
    var n := |g| - 1;
    var e :| 0 <= e < |g| && g[e] == extra;
    assert entries[extra].lastUsed <= entries[g[n]].lastUsed;
    assert entries[id].lastUsed != entries[extra].lastUsed;
    assert id != g[n];
    assert g == g[..n] + [g[n]];
  }

  // If `extra` went in one eviction and stayed in another, all victims of the other are older than
  // it, so they were gone before the first took its last victim.
  lemma OlderVictims(before: Cache, max: nat, g1: seq<string>, a1: Cache, g2: seq<string>, a2: Cache, extra: string)
    requires Evicts(before, max, g1, a1) && Evicts(before, max, g2, a2) && DistinctAges(before.entries)
    requires extra in g1 && extra !in g2
    ensures |g1| > 0 && Ids(g2) <= Ids(g1[..|g1| - 1])
  {
    forall id | id in g2 ensures id in g1[..|g1| - 1] {
      assert extra in a2.entries;
      assert id in g1 || id in a1.entries;
      OlderThanLast(before.entries, g1, extra, id);
    }
  }

  lemma TotalSubset(m: Index, a: set<string>, b: set<string>)
    requires a <= b
    ensures Total(m - b) <= Total(m - a)
    decreases |b - a|
  {
    if a == b {
    } else {
      var x :| x in b && x !in a;
      TotalSubset(m, a + {x}, b);
      assert b - (a + {x}) < b - a;
      if x in m {
        TotalRemove(m - a, x);
        assert m - a - {x} == m - (a + {x});
      } else {
        assert m - a == m - (a + {x});
      }
    }
  }

  lemma VictimsIncluded(before: Cache, max: nat, g1: seq<string>, a1: Cache, g2: seq<string>, a2: Cache)
    requires Evicts(before, max, g1, a1) && Evicts(before, max, g2, a2) && DistinctAges(before.entries)
    ensures forall id :: id in g1 ==> id in g2
  {
    forall extra | extra in g1 ensures extra in g2 {
      if extra !in g2 {
        OlderVictims(before, max, g1, a1, g2, a2, extra);
        var n := |g1| - 1;
        TotalSubset(before.entries, Ids(g2), Ids(g1[..n]));
        assert false;
      }
    }
  }

  // When no two tracks were last used at the same time, which tracks go is determined.
  lemma EvictionIsDetermined(before: Cache, max: nat, g1: seq<string>, a1: Cache, g2: seq<string>, a2: Cache)
    requires Evicts(before, max, g1, a1) && Evicts(before, max, g2, a2) && DistinctAges(before.entries)
    ensures a1.entries == a2.entries
  {
    VictimsIncluded(before, max, g1, a1, g2, a2);
    VictimsIncluded(before, max, g2, a2, g1, a1);
    assert Ids(g1) == Ids(g2);
  }

  // `id` was used after every other track of the index.
  ghost predicate Latest(entries: Index, id: string) {
    id in entries && forall x :: x in entries && x != id ==> entries[x].lastUsed < entries[id].lastUsed
  }

  // Such a track goes last: only when everything goes.
  lemma LatestGoesLast(before: Cache, max: nat, gone: seq<string>, after: Cache, id: string)
    requires Evicts(before, max, gone, after) && Latest(before.entries, id)
    ensures id in gone ==> after.entries == map[]
  {
    if id in gone {
      forall x ensures x !in after.entries {
      }
    }
  }

  // A lookup that finds its file, and a commit, make the track the last to be evicted, as long as
  // the clock has moved on since the other tracks were used.
  lemma UsedTrackIsLatest(c: Cache, id: string, file: string, size: nat, now: nat)
    requires forall x :: x in c.entries && x != id ==> c.entries[x].lastUsed < now
    ensures Latest(Committed(c, id, file, size, now).entries, id)
    ensures id in c.entries && c.entries[id].file in c.files ==> Latest(Touched(c, id, now).entries, id)
  {
  }

  // Neither changes what is known of any other track, nor the track's file and size on a lookup.
  lemma UseLeavesTheRest(c: Cache, id: string, file: string, size: nat, now: nat)
    ensures Committed(c, id, file, size, now).entries - {id} == c.entries - {id}
    ensures Touched(c, id, now).entries - {id} == c.entries - {id}
    ensures Touched(c, id, now).entries.Keys == c.entries.Keys
    ensures id in c.entries ==>
              var e := Touched(c, id, now).entries[id];
              e.file == c.entries[id].file && e.size == c.entries[id].size
    ensures !(id in c.entries && c.entries[id].file in c.files) ==> Touched(c, id, now) == c
  {
  }

  // ----- the eviction loop

  // After the first `n` victims the rest was over the cap.
  ghost predicate StillTooBig(entries: Index, max: nat, gone: seq<string>, n: nat)
    requires n <= |gone|
  {
    Total(entries - Ids(gone[..n])) > max
  }

  // The state after evicting `gone`, before the index is persisted.
  ghost predicate Partway(before: Cache, max: nat, gone: seq<string>, c: Cache) {
    && c.entries == before.entries - Ids(gone)
    && c.files == before.files - FilesOf(before.entries, gone)
    && c.inFlight == before.inFlight && c.saved == before.saved
    && Exact(c)
    && forall n :: 0 <= n < |gone| ==> StillTooBig(before.entries, max, gone, n)
  }

  lemma NothingEvicted(before: Cache)
    ensures before.entries - Ids([]) == before.entries
    ensures before.files - FilesOf(before.entries, []) == before.files
  {
  }

  lemma EvictionStarts(before: Cache, max: nat, byAge: seq<string>)
    requires Exact(before)
    ensures Partway(before, max, byAge[..0], before)
  {
    assert byAge[..0] == [];
    NothingEvicted(before);
  }

  function EvictedOne(c: Cache, id: string): Cache
    requires id in c.entries
  {
    c.(files := c.files - {c.entries[id].file}, total := SatSub(c.total, c.entries[id].size), entries := c.entries - {id})
  }

  lemma StillMinimal(entries: Index, max: nat, gone: seq<string>, more: seq<string>)
    requires |more| == |gone| + 1 && more[..|gone|] == gone && Total(entries - Ids(gone)) > max
    requires forall n :: 0 <= n < |gone| ==> StillTooBig(entries, max, gone, n)
    ensures forall n :: 0 <= n < |more| ==> StillTooBig(entries, max, more, n)
  {
    forall n | 0 <= n < |more| ensures StillTooBig(entries, max, more, n) {
      if n < |gone| {
        assert StillTooBig(entries, max, gone, n);
        assert more[..n] == gone[..n];
      }
    }
  }

  lemma FilesGrow(entries: Index, s: seq<string>, n: nat)
    requires n < |s| && s[n] in entries
    ensures FilesOf(entries, s[..n + 1]) == FilesOf(entries, s[..n]) + {entries[s[n]].file}
  {
    assert s[..n + 1] == s[..n] + [s[n]];
  }

  lemma EvictStep(before: Cache, max: nat, byAge: seq<string>, i: nat, c: Cache)
    requires ByAge(before.entries, byAge) && i < |byAge|
    requires Partway(before, max, byAge[..i], c) && c.total > max
    ensures byAge[i] in c.entries
    ensures Partway(before, max, byAge[..i + 1], EvictedOne(c, byAge[i]))
  {
    var id := byAge[i];
    IdsGrow(byAge, i);
    assert id in before.entries;
    assert id !in Ids(byAge[..i]);
    TotalRemove(c.entries, id);
    FilesGrow(before.entries, byAge, i);
    var gone := byAge[..i + 1];
    StillMinimal(before.entries, max, byAge[..i], gone);
    assert before.entries - Ids(byAge[..i]) - {id} == before.entries - Ids(gone);
  }

  lemma EvictedIsOlder(entries: Index, byAge: seq<string>, i: nat, victim: string, kept: string)
    requires ByAge(entries, byAge) && i <= |byAge|
    requires victim in byAge[..i] && kept in entries && kept !in byAge[..i]
    ensures entries[victim].lastUsed <= entries[kept].lastUsed
  {
    var a :| 0 <= a < i && byAge[a] == victim;
    assert kept in byAge;
    var b :| 0 <= b < |byAge| && byAge[b] == kept;
    assert byAge == byAge[..i] + byAge[i..];
  }

  lemma AfterTheLoop(before: Cache, max: nat, byAge: seq<string>, i: nat, entries: Index, total: nat)
    requires ByAge(before.entries, byAge) && i <= |byAge| && (i == |byAge| || total <= max)
    requires entries == before.entries - Ids(byAge[..i]) && total == Total(entries)
    ensures total <= max
    ensures OldestFirst(before.entries, byAge[..i])
    ensures forall victim, kept :: victim in byAge[..i] && kept in entries ==>
              before.entries[victim].lastUsed <= before.entries[kept].lastUsed
  {
    if i == |byAge| {
      assert byAge[..i] == byAge;
      assert entries == map[];
    }
    forall victim, kept | victim in byAge[..i] && kept in entries
      ensures before.entries[victim].lastUsed <= before.entries[kept].lastUsed
    {
      EvictedIsOlder(before.entries, byAge, i, victim, kept);
    }
  }

  lemma EvictDone(before: Cache, max: nat, byAge: seq<string>, i: nat, c: Cache)
    requires ByAge(before.entries, byAge) && i <= |byAge| && (i == |byAge| || c.total <= max)
    requires Partway(before, max, byAge[..i], c)
    ensures Evicts(before, max, byAge[..i], if i == 0 then c else c.(saved := c.entries))
  {
    AfterTheLoop(before, max, byAge, i, c.entries, c.total);
    var gone := byAge[..i];
    forall n | 0 <= n < |gone| ensures Total(before.entries - Ids(gone[..n])) > max {
      assert StillTooBig(before.entries, max, gone, n);
    }
  }

  method SumSizes(m: Index) returns (sum: nat)
    ensures sum == Total(m)
  {
    sum := 0;
    var rest := m;
    while rest != map[]
      invariant sum + Total(rest) == Total(m)
      decreases |rest|
    {
      var id :| id in rest;
      TotalRemove(rest, id);
      sum := sum + rest[id].size;
      rest := rest - {id};
    }
  }

  lemma OldestExists(m: Index) returns (oldest: string)
    requires m != map[]
    ensures oldest in m && forall other :: other in m ==> m[oldest].lastUsed <= m[other].lastUsed
    decreases |m|
  {
    oldest :| oldest in m;
    var rest := m - {oldest};
    if rest != map[] {
      var next := OldestExists(rest);
      forall other | other in m && other != oldest
        ensures m[next].lastUsed <= m[other].lastUsed
      {
        assert other in rest;
      }
      if m[next].lastUsed < m[oldest].lastUsed {
        oldest := next;
      }
    }
  }

  // The library sort by last use, with ties broken arbitrarily.
  method SortByAge(entries: Index) returns (order: seq<string>)
    ensures ByAge(entries, order)
  {
    order := [];
    var rest := entries;
    while rest != map[]
      invariant rest.Keys <= entries.Keys && (forall id :: id in rest ==> rest[id] == entries[id])
      invariant forall id :: id in order <==> id in entries && id !in rest
      invariant forall i, j :: 0 <= i < j < |order| ==> order[i] != order[j]
      invariant OldestFirst(entries, order)
      invariant forall a, b :: a in order && a in entries && b in rest ==> entries[a].lastUsed <= entries[b].lastUsed
      decreases |rest|
    {
      ghost var oldest := OldestExists(rest);
      var id :| id in rest && forall other :: other in rest ==> rest[id].lastUsed <= rest[other].lastUsed;
      ghost var before := order;
      order := order + [id];
      rest := rest - {id};
      forall i, j | 0 <= i < j < |order| && order[i] in entries && order[j] in entries
        ensures entries[order[i]].lastUsed <= entries[order[j]].lastUsed
      {
        if j == |before| {
          assert order[i] in before;
        }
      }
    }
  }

  // ----- the cache object

  class Store {
    var entries: Index
    var inFlight: set<string>
    var totalBytes: nat
    var files: set<string>
    var saved: Index
    const fileNameFor: string -> string

    ghost function View(): Cache
      reads this
    {
      Cache(entries, inFlight, totalBytes, files, saved)
    }

    // `disk` and `index` are what a previous run left behind.
    constructor (disk: set<string>, index: Index, fileNameFor: string -> string)
      ensures View() == Open(disk, index) && Exact(View())
      ensures this.fileNameFor == fileNameFor
    {
      var kept := map id | id in index && index[id].file in disk :: index[id];
      var sum := SumSizes(kept);
      this.fileNameFor := fileNameFor;
      entries, inFlight, totalBytes, files, saved := kept, {}, sum, disk, index;
    }

    method PathFor(songId: string, now: nat) returns (path: Option<string>)
      modifies this
      ensures View() == Touched(old(View()), songId, now)
      ensures path == if songId in old(entries) && old(entries)[songId].file in files
                      then Some(old(entries)[songId].file) else None
      ensures Exact(old(View())) ==> Exact(View())
    {
      if songId !in entries {
        return None;
      }
      if entries[songId].file !in files {
        return None;
      }
      path := Some(entries[songId].file);
      TotalTouch(entries, songId, now);
      entries := entries[songId := entries[songId].(lastUsed := now)];
    }

    method Begin(songId: string) returns (file: Option<string>)
      modifies this
      ensures View() == Begun(old(View()), songId)
      ensures file == if CanBegin(old(View()), songId) then Some(fileNameFor(songId)) else None
    {
      if songId in entries || songId in inFlight {
        return None;
      }
      inFlight := inFlight + {songId};
      return Some(fileNameFor(songId));
    }

    method Commit(songId: string, file: string, size: nat, now: nat)
      modifies this
      ensures View() == Persisted(Committed(old(View()), songId, file, size, now))
      ensures Exact(old(View())) && songId !in old(entries) && old(totalBytes) + size <= MAX_U64 ==> Exact(View())
    {
      TotalAdd(entries - {songId}, songId, Entry(file, size, now));
      if songId !in entries {
        assert entries - {songId} == entries;
      }
      inFlight := inFlight - {songId};
      totalBytes := SatAdd(totalBytes, size);
      entries := entries[songId := Entry(file, size, now)];
      saved := entries;
    }

    method Abandon(songId: string)
      modifies this
      ensures View() == Abandoned(old(View()), songId)
    {
      inFlight := inFlight - {songId};
    }

    method EvictOne(id: string)
      requires id in entries
      modifies this
      ensures View() == EvictedOne(old(View()), id)
    {
      files := files - {entries[id].file};
      totalBytes := SatSub(totalBytes, entries[id].size);
      entries := entries - {id};
    }

    // The eviction loop over the tracks in order of age.
    method EvictInOrder(byAge: seq<string>, max: nat) returns (n: nat)
      requires Exact(View()) && ByAge(entries, byAge)
      modifies this
      ensures n <= |byAge| && (n == |byAge| || totalBytes <= max)
      ensures Partway(old(View()), max, byAge[..n], View())
    {
      ghost var before := View();
      EvictionStarts(before, max, byAge);
      n := 0;
      while n < |byAge| && totalBytes > max
        invariant n <= |byAge|
        invariant Partway(before, max, byAge[..n], View())
      {
        EvictStep(before, max, byAge, n, View());
        EvictOne(byAge[n]);
        n := n + 1;
      }
    }

    // Deletes least recently used tracks until the cache fits; returns which ones went.
    method EvictTo(max: nat) returns (gone: seq<string>)
      requires Exact(View())
      modifies this
      ensures Evicts(old(View()), max, gone, View())
    {
      gone := [];
      ghost var before := View();
      NothingEvicted(before);
      if totalBytes <= max {
        return;
      }
      var byAge := SortByAge(entries);
      var n := EvictInOrder(byAge, max);
      EvictDone(before, max, byAge, n, View());
      gone := byAge[..n];
      if n > 0 {
        saved := entries;
      }
    }
  }
}
