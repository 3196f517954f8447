// The bounded least-recently-used caches: a map of values beside a queue of keys, oldest first.
// `LruCache` touches a key on insert and on hit; `CacheInsert` works on a bare map and queue and
// touches on insert only.
module LruCache {
  import opened Wrappers

  datatype Cache<V> = Cache(values: map<string, V>, order: seq<string>)

  ghost predicate Distinct(s: seq<string>) {
    forall i, j :: 0 <= i < j < |s| ==> s[i] != s[j]
  }

  function KeySet(s: seq<string>): set<string> {
    set k | k in s
  }

  // Map and queue hold the same keys, each once.
  ghost predicate Coherent<V>(c: Cache<V>) {
    Distinct(c.order) && c.values.Keys == KeySet(c.order)
  }

  // ----- the operations on values

  // First position of `key`, the length if absent.
  function IndexOf(s: seq<string>, key: string): (i: nat)
    ensures i <= |s| && key !in s[..i] && (i < |s| ==> s[i] == key)
    ensures i == |s| <==> key !in s
  {
    if s == [] then 0
    else if s[0] == key then 0
    else
      var i := 1 + IndexOf(s[1..], key);
      assert s[..i] == [s[0]] + s[1..][..i - 1];
      i
  }

  // `key` moved to the most recent end.
  function Promoted(order: seq<string>, key: string): seq<string> {
    var i := IndexOf(order, key);
    if i < |order| then order[..i] + order[i + 1..] + [key] else order
  }

  function Get<V>(c: Cache<V>, key: string): Cache<V> {
    if key in c.values then c.(order := Promoted(c.order, key)) else c
  }

  function Restrict<V>(m: map<string, V>, keys: set<string>): map<string, V> {
    map k | k in m && k in keys :: m[k]
  }

  function Newest(order: seq<string>, n: nat): seq<string> {
    if |order| <= n then order else order[|order| - n..]
  }

  // A full cache first loses its oldest entries; a cap of zero still leaves room for one.
  function Insert<V>(c: Cache<V>, key: string, val: V, cap: nat): Cache<V> {
    if key in c.values then Cache(c.values[key := val], Promoted(c.order, key))
    else
      var kept := Newest(c.order, if cap > 0 then cap - 1 else 0);
      Cache(Restrict(c.values, KeySet(kept))[key := val], kept + [key])
  }

  // ----- coherence

  lemma PromotedKeys(order: seq<string>, i: nat)
    requires i < |order|
    ensures KeySet(order[..i] + order[i + 1..] + [order[i]]) == KeySet(order)
  {
    var p := order[..i] + order[i + 1..] + [order[i]];
    assert order == order[..i] + [order[i]] + order[i + 1..];
    assert forall k :: k in p <==> k in order[..i] || k in order[i + 1..] || k == order[i];
  }

  lemma PromotedDistinct(order: seq<string>, i: nat)
    requires Distinct(order) && i < |order|
    ensures Distinct(order[..i] + order[i + 1..] + [order[i]])
  {
    var p := order[..i] + order[i + 1..] + [order[i]];
    forall a, b | 0 <= a < b < |p| ensures p[a] != p[b] {
      assert p[a] == order[if a < i then a else a + 1];
      assert b < |p| - 1 ==> p[b] == order[if b < i then b else b + 1];
    }
  }

  lemma PromotedKeeps(order: seq<string>, key: string)
    requires Distinct(order)
    ensures Distinct(Promoted(order, key)) && KeySet(Promoted(order, key)) == KeySet(order)
    ensures |Promoted(order, key)| == |order|
  {
    var i := IndexOf(order, key);
    if i < |order| {
      PromotedKeys(order, i);
      PromotedDistinct(order, i);
    }
  }

  lemma NewestKeeps(order: seq<string>, n: nat)
    requires Distinct(order)
    ensures Distinct(Newest(order, n)) && KeySet(Newest(order, n)) <= KeySet(order)
    ensures |Newest(order, n)| <= n
  {
  }

  lemma GetKeepsCoherent<V>(c: Cache<V>, key: string)
    requires Coherent(c)
    ensures Coherent(Get(c, key))
  {
    PromotedKeeps(c.order, key);
  }

  // How many entries a cap really leaves room for.
  function Room(cap: nat): nat {
    if cap > 0 then cap else 1
  }

  lemma InsertKeepsCoherent<V>(c: Cache<V>, key: string, val: V, cap: nat)
    requires Coherent(c)
    ensures Coherent(Insert(c, key, val, cap))
    ensures |c.order| <= Room(cap) ==> |Insert(c, key, val, cap).order| <= Room(cap)
  {
    PromotedKeeps(c.order, key);
    var kept := Newest(c.order, if cap > 0 then cap - 1 else 0);
    NewestKeeps(c.order, if cap > 0 then cap - 1 else 0);
    if key !in c.values {
      assert key !in kept;
      assert KeySet(kept + [key]) == KeySet(kept) + {key};
    }
  }

  lemma CardOfSet(s: seq<string>)
    requires Distinct(s)
    ensures |KeySet(s)| == |s|
  {
    if s != [] {
      var tail := s[1..];
      CardOfSet(tail);
      assert s == [s[0]] + tail;
      assert KeySet(s) == KeySet(tail) + {s[0]};
      assert s[0] !in tail;
    }
  }

  lemma CardOfKeys<V>(c: Cache<V>)
    requires Distinct(c.order) && c.values.Keys == KeySet(c.order)
    ensures |c.values| == |c.order|
  {
    CardOfSet(c.order);
    assert |c.values| == |c.values.Keys|;
  }

  // ----- the in-place versions

  method Promote(order: seq<string>, key: string) returns (order': seq<string>)
    ensures order' == Promoted(order, key)
  {
    order' := order;
    var pos := 0;
    while pos < |order| && order[pos] != key
      invariant pos <= IndexOf(order, key)
    {
      pos := pos + 1;
    }
    if pos < |order| {
      order' := order[..pos] + order[pos + 1..] + [key];
    }
  }

  function Dropped<V>(m: map<string, V>, key: string): map<string, V> {
    map k | k in m && k != key :: m[k]
  }

  // The map once the `n` oldest keys are gone.
  function Stage<V>(c: Cache<V>, n: nat): map<string, V>
    requires n <= |c.order|
  {
    Restrict(c.values, KeySet(c.order[n..]))
  }

  lemma StageSize<V>(c: Cache<V>, n: nat)
    requires Coherent(c) && n <= |c.order|
    ensures |Stage(c, n)| == |c.order| - n
    ensures n == 0 ==> Stage(c, n) == c.values
  {
    var rest := c.order[n..];
    assert Stage(c, n).Keys == KeySet(rest);
    CardOfSet(rest);
    if n == 0 {
      assert rest == c.order;
    }
  }

  lemma StageStep<V>(c: Cache<V>, n: nat)
    requires Coherent(c) && n < |c.order|
    ensures Dropped(Stage(c, n), c.order[n]) == Stage(c, n + 1)
  {
    var a, b := c.order[n..], c.order[n + 1..];
    assert a == [c.order[n]] + b;
    assert c.order[n] !in b;
    assert KeySet(a) == KeySet(b) + {c.order[n]};
  }

  lemma NewestIsSuffix(order: seq<string>, n: nat, cap: nat)
    requires n <= |order|
    requires |order| - n < cap || n == |order|
    requires n > 0 ==> |order| - n + 1 >= cap
    ensures order[n..] == Newest(order, if cap > 0 then cap - 1 else 0)
  {
    if n == 0 {
      assert order[0..] == order;
    }
  }

  // One pop of the eviction loop.
  method PopOldest<V>(values: map<string, V>, order: seq<string>, ghost c: Cache<V>, ghost n: nat)
    returns (values': map<string, V>, order': seq<string>)
    requires Coherent(c) && n < |c.order| && order == c.order[n..] && values == Stage(c, n)
    ensures order' == c.order[n + 1..] && values' == Stage(c, n + 1) && |values'| == |c.order| - n - 1
  {
    StageStep(c, n);
    StageSize(c, n + 1);
    var evict := order[0];
    order' := order[1..];
    values' := map k | k in values && k != evict :: values[k];
    assert values' == Dropped(values, evict);
  }

  // Pops the oldest keys while the map is at or over the cap.
  method EvictTo<V>(c: Cache<V>, cap: nat) returns (values: map<string, V>, order: seq<string>)
    requires Coherent(c)
    ensures order == Newest(c.order, if cap > 0 then cap - 1 else 0)
    ensures values == Restrict(c.values, KeySet(order))
  {
    values, order := c.values, c.order;
    ghost var n := 0;
    StageSize(c, 0);
    while |values| >= cap
      invariant n <= |c.order| && order == c.order[n..] && values == Stage(c, n)
      invariant |values| == |c.order| - n
      invariant n > 0 ==> |c.order| - n + 1 >= cap
      decreases |c.order| - n
    {
      if order == [] {
        break;
      }
      values, order := PopOldest(values, order, c, n);
      n := n + 1;
    }
    NewestIsSuffix(c.order, n, cap);
  }

  method CacheInsert<V>(values: map<string, V>, order: seq<string>, key: string, val: V, cap: nat)
    returns (values': map<string, V>, order': seq<string>)
    requires Coherent(Cache(values, order))
    ensures Cache(values', order') == Insert(Cache(values, order), key, val, cap)
  {
    if key in values {
      order' := Promote(order, key);
      values' := values[key := val];
      return;
    }
    values', order' := EvictTo(Cache(values, order), cap);
    order' := order' + [key];
    values' := values'[key := val];
  }

  // The cover-art cache object.
  class Lru<V> {
    var values: map<string, V>
    var order: seq<string>

    function View(): Cache<V>
      reads this
    {
      Cache(values, order)
    }

    constructor ()
      ensures View() == Cache(map[], []) && Coherent(View())
    {
      values, order := map[], [];
    }

    method Clear()
      modifies this
      ensures View() == Cache(map[], [])
    {
      values, order := map[], [];
    }

    method Lookup(key: string) returns (val: Option<V>)
      modifies this
      ensures View() == Get(old(View()), key)
      ensures val == if key in old(values) then Some(old(values)[key]) else None
    {
      if key !in values {
        return None;
      }
      order := Promote(order, key);
      return Some(values[key]);
    }

    method Put(key: string, val: V, cap: nat)
      requires Coherent(View())
      modifies this
      ensures View() == Insert(old(View()), key, val, cap) && Coherent(View())
    {
      InsertKeepsCoherent(View(), key, val, cap);
      if key in values {
        order := Promote(order, key);
        values := values[key := val];
        return;
      }
      values, order := EvictTo(View(), cap);
      order := order + [key];
      values := values[key := val];
    }

    method Size() returns (n: nat)
      requires Coherent(View())
      ensures n == |order|
    {
      CardOfKeys(View());
      n := |values|;
    }
  }

  // ----- the recency law, against the bare history of touches

  datatype Op<V> = GetOp(key: string) | InsertOp(key: string, val: V)

  function ApplyOp<V>(c: Cache<V>, op: Op<V>, cap: nat): Cache<V> {
    match op
    case GetOp(key) => Get(c, key)
    case InsertOp(key, val) => Insert(c, key, val, cap)
  }

  function RunOps<V>(ops: seq<Op<V>>, cap: nat): Cache<V> {
    if ops == [] then Cache(map[], [])
    else ApplyOp(RunOps(ops[..|ops| - 1], cap), ops[|ops| - 1], cap)
  }

  // The keys touched, in time order: every insert, and every get that hits.
  function Touches<V>(ops: seq<Op<V>>, cap: nat): seq<string> {
    if ops == [] then []
    else
      var n := |ops| - 1;
      var before := Touches(ops[..n], cap);
      if ops[n].InsertOp? || ops[n].key in RunOps(ops[..n], cap).values then before + [ops[n].key] else before
  }

  // The distinct keys touched after the last touch of `key`.
  function TouchedSince(ts: seq<string>, key: string): set<string> {
    if ts == [] then {}
    else
      var n := |ts| - 1;
      if ts[n] == key then {} else TouchedSince(ts[..n], key) + {ts[n]}
  }

  function LastInserted<V>(ops: seq<Op<V>>, key: string): Option<V> {
    if ops == [] then None
    else
      var n := |ops| - 1;
      if ops[n].InsertOp? && ops[n].key == key then Some(ops[n].val) else LastInserted(ops[..n], key)
  }

  // The keys touched after the entry at `i` are those behind it.
  ghost predicate TouchedBehind(order: seq<string>, ts: seq<string>, i: nat)
    requires i < |order|
  {
    order[i] in ts && TouchedSince(ts, order[i]) == KeySet(order[i + 1..])
  }

  // The queue lists, newest last, exactly the keys with fewer than `room` distinct keys touched
  // since; the key at distance d from the end has exactly the d keys behind it touched since.
  ghost predicate Recency(order: seq<string>, ts: seq<string>, room: nat) {
    && Distinct(order) && |order| <= room
    && (forall i :: 0 <= i < |order| ==> TouchedBehind(order, ts, i))
    && (forall k :: k in ts && k !in order ==> |order| == room && KeySet(order) <= TouchedSince(ts, k))
  }

  lemma TouchedSinceStep(ts: seq<string>, key: string, k: string)
    ensures TouchedSince(ts + [key], k) == if k == key then {} else TouchedSince(ts, k) + {key}
  {
    assert (ts + [key])[..|ts|] == ts;
  }

  // The set of keys behind position `j` once `key` has been taken out of position `i`.
  lemma BehindPromoted(order: seq<string>, i: nat, j: nat)
    requires i < |order| && j < |order| && Distinct(order)
    ensures var p := order[..i] + order[i + 1..] + [order[i]];
            if j == |order| - 1 then p[j] == order[i] && KeySet(p[j + 1..]) == {}
            else if j < i then p[j] == order[j] && KeySet(p[j + 1..]) == KeySet(order[j + 1..])
            else p[j] == order[j + 1] && KeySet(p[j + 1..]) == KeySet(order[j + 2..]) + {order[i]}
  {
    var p := order[..i] + order[i + 1..] + [order[i]];
    if j == |order| - 1 {
    } else if j < i {
      assert order[j + 1..] == order[j + 1..i] + [order[i]] + order[i + 1..];
      assert p[j + 1..] == order[j + 1..i] + order[i + 1..] + [order[i]];
    } else {
      assert p[j + 1..] == order[j + 2..] + [order[i]];
    }
  }

  lemma RecencyPromoteAt(order: seq<string>, ts: seq<string>, room: nat, i: nat, j: nat)
    requires Recency(order, ts, room) && i < |order| && j < |order|
    ensures var p, ts' := order[..i] + order[i + 1..] + [order[i]], ts + [order[i]];
            TouchedBehind(p, ts', j)
  {
    BehindPromoted(order, i, j);
    var key := order[i];
    if j == |order| - 1 {
      TouchedSinceStep(ts, key, key);
    } else if j < i {
      assert TouchedBehind(order, ts, j);
      TouchedSinceStep(ts, key, order[j]);
      assert order[j + 1..][i - j - 1] == key;
    } else {
      assert TouchedBehind(order, ts, j + 1);
      TouchedSinceStep(ts, key, order[j + 1]);
    }
  }

  lemma RecencyPromote(order: seq<string>, ts: seq<string>, room: nat, key: string)
    requires Recency(order, ts, room) && key in order
    ensures Recency(Promoted(order, key), ts + [key], room)
  {
    PromotedKeeps(order, key);
    var i := IndexOf(order, key);
    var p, ts' := Promoted(order, key), ts + [key];
    forall j | 0 <= j < |p|
      ensures TouchedBehind(p, ts', j)
    {
      RecencyPromoteAt(order, ts, room, i, j);
    }
    forall k | k in ts' && k !in p
      ensures |p| == room && KeySet(p) <= TouchedSince(ts', k)
    {
      TouchedSinceStep(ts, key, k);
      assert k !in KeySet(p) && key in KeySet(p);
      assert k !in KeySet(order);
    }
  }

  lemma RecencyAddAt(order: seq<string>, ts: seq<string>, room: nat, key: string, d: nat, j: nat)
    requires Recency(order, ts, room) && key !in order && d <= |order| && j <= |order| - d
    ensures var p, ts' := order[d..] + [key], ts + [key];
            TouchedBehind(p, ts', j)
  {
    var p := order[d..] + [key];
    TouchedSinceStep(ts, key, p[j]);
    if j < |order| - d {
      assert TouchedBehind(order, ts, d + j);
      assert p[j] == order[d + j];
      assert p[j + 1..] == order[d + j + 1..] + [key];
    }
  }

  lemma NotInSuffix(order: seq<string>, d: nat, j: nat)
    requires d <= |order| && j < |order| && order[j] !in order[d..]
    ensures j < d
  {
    assert forall i :: d <= i < |order| ==> order[d..][i - d] == order[i];
  }

  lemma SuffixKeys(order: seq<string>, i: nat, d: nat)
    requires i <= d <= |order|
    ensures KeySet(order[d..]) <= KeySet(order[i..])
  {
    assert order[i..] == order[i..d] + order[d..];
  }

  lemma DroppedKeySawTheRest(order: seq<string>, ts: seq<string>, room: nat, d: nat, k: string)
    requires Recency(order, ts, room) && d <= |order| && k in order && k !in order[d..]
    ensures KeySet(order[d..]) <= TouchedSince(ts, k)
  {
    var j :| 0 <= j < |order| && order[j] == k;
    NotInSuffix(order, d, j);
    assert TouchedBehind(order, ts, j);
    SuffixKeys(order, j + 1, d);
  }

  lemma RecencyAdd(order: seq<string>, ts: seq<string>, room: nat, key: string)
    requires Recency(order, ts, room) && key !in order && room >= 1
    ensures Recency(Newest(order, room - 1) + [key], ts + [key], room)
  {
    var kept := Newest(order, room - 1);
    var d := |order| - |kept|;
    assert kept == order[d..];
    var p, ts' := kept + [key], ts + [key];
    NewestKeeps(order, room - 1);
    forall j | 0 <= j < |p|
      ensures TouchedBehind(p, ts', j)
    {
      RecencyAddAt(order, ts, room, key, d, j);
    }
    forall k | k in ts' && k !in p
      ensures |p| == room && KeySet(p) <= TouchedSince(ts', k)
    {
      TouchedSinceStep(ts, key, k);
      assert KeySet(p) == KeySet(kept) + {key};
      if k in order {
        DroppedKeySawTheRest(order, ts, room, d, k);
      } else {
        assert k in ts && k != key;
        assert KeySet(kept) <= KeySet(order);
      }
    }
  }

  // After any sequence of gets and inserts under one cap, the queue is exactly the recency list
  // of the touch history.
  lemma {:induction false} CacheIsRecencyList<V>(ops: seq<Op<V>>, cap: nat)
    ensures Coherent(RunOps(ops, cap)) && Recency(RunOps(ops, cap).order, Touches(ops, cap), Room(cap))
  {
    if ops != [] {
      var n := |ops| - 1;
      var c, op := RunOps(ops[..n], cap), ops[n];
      CacheIsRecencyList(ops[..n], cap);
      assert op.key in c.values <==> op.key in c.order by {
        assert op.key in KeySet(c.order) <==> op.key in c.order;
      }
      match op
      case GetOp(key) =>
        GetKeepsCoherent(c, key);
        if key in c.values {
          RecencyPromote(c.order, Touches(ops[..n], cap), Room(cap), key);
        }
      case InsertOp(key, val) =>
        InsertKeepsCoherent(c, key, val, cap);
        if key in c.values {
          RecencyPromote(c.order, Touches(ops[..n], cap), Room(cap), key);
        } else {
          RecencyAdd(c.order, Touches(ops[..n], cap), Room(cap), key);
        }
    }
  }

  lemma SubsetSize(a: set<string>, b: set<string>)
    requires a <= b
    ensures |a| <= |b|
  {
    assert b == a + (b - a);
  }

  lemma InOrderIff(order: seq<string>, ts: seq<string>, room: nat, key: string)
    requires Recency(order, ts, room)
    ensures key in order <==> key in ts && |TouchedSince(ts, key)| < room
  {
    if key in order {
      var i :| 0 <= i < |order| && order[i] == key;
      assert TouchedBehind(order, ts, i);
      CardOfSet(order[i + 1..]);
    } else if key in ts {
      CardOfSet(order);
      SubsetSize(KeySet(order), TouchedSince(ts, key));
    }
  }

  // Read off: a key is resident exactly when it was touched and fewer than `room` distinct keys
  // have been touched since.
  lemma ResidentIffRecentlyTouched<V>(ops: seq<Op<V>>, cap: nat, key: string)
    ensures key in RunOps(ops, cap).values <==>
            key in Touches(ops, cap) && |TouchedSince(Touches(ops, cap), key)| < Room(cap)
  {
    CacheIsRecencyList(ops, cap);
    var c := RunOps(ops, cap);
    assert key in c.values <==> key in KeySet(c.order);
    InOrderIff(c.order, Touches(ops, cap), Room(cap), key);
  }

  // A resident key always holds the value inserted last.
  lemma {:induction false} ResidentHoldsLastInserted<V>(ops: seq<Op<V>>, cap: nat, key: string)
    requires key in RunOps(ops, cap).values
    ensures LastInserted(ops, key) == Some(RunOps(ops, cap).values[key])
  {
    if ops != [] {
      var n := |ops| - 1;
      var c, op := RunOps(ops[..n], cap), ops[n];
      if !(op.InsertOp? && op.key == key) {
        assert key in c.values && RunOps(ops, cap).values[key] == c.values[key];
        ResidentHoldsLastInserted(ops[..n], cap, key);
      }
    }
  }

  // With inserts alone the touch history is the insert history.
  lemma {:induction false} InsertsAreTheOnlyTouches<V>(ops: seq<Op<V>>, cap: nat)
    requires forall i :: 0 <= i < |ops| ==> ops[i].InsertOp?
    ensures Touches(ops, cap) == seq(|ops|, i requires 0 <= i < |ops| => ops[i].key)
  {
    if ops != [] {
      InsertsAreTheOnlyTouches(ops[..|ops| - 1], cap);
    }
  }
}
