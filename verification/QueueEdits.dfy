// The in-place queue edits as functions on sequences, for any entry type: what each does to the
// entries, where it sends every index, and when the next-up entry may change.
//
// Entries with equal ids are told apart by index: each edit comes with the map that sends an old
// index to the new index of the same entry, and the edits are parametric in the entry type, so
// the laws also hold for entries carrying a distinguishing tag.
module QueueEdits {
  import opened Wrappers
  import opened Models

  function Removed<T>(q: seq<T>, i: nat): (r: seq<T>)
    requires i < |q|
    ensures |r| == |q| - 1
  {
    q[..i] + q[i + 1..]
  }

  function InsertedBlock<T>(q: seq<T>, at: nat, block: seq<T>): (r: seq<T>)
    requires at <= |q|
    ensures |r| == |q| + |block|
  {
    q[..at] + block + q[at..]
  }

  function Moved<T>(q: seq<T>, from: nat, to: nat): (r: seq<T>)
    requires from < |q| && to < |q|
    ensures |r| == |q|
  {
    InsertedBlock(Removed(q, from), to, [q[from]])
  }

  // Where `move_queue_item` re-points an index.
  function MovedIndex(i: nat, from: nat, to: nat): (j: nat) {
    if i == from then to
    else if from < i && to >= i then i - 1
    else if from > i && to <= i then i + 1
    else i
  }

  function RemovedIndex(i: nat, pos: nat): (j: Option<nat>) {
    if pos < i then Some(i - 1)
    else if pos == i then None
    else Some(i)
  }

  function InsertedIndex(i: nat, at: nat, n: nat): (j: nat) {
    if at <= i then i + n else i
  }

  // The song a gapless advance from `pos` would play.
  function NextUp<T>(q: seq<T>, pos: nat, mode: RepeatMode): Option<T> {
    var n := mode.NextAuto(pos, |q|);
    if n.Some? && n.value < |q| then Some(q[n.value]) else None
  }

  // ----- every edit sends each occurrence where its index map says, and conserves the rest

  lemma MoveTracks<T>(q: seq<T>, from: nat, to: nat, i: nat)
    requires from < |q| && to < |q| && i < |q|
    ensures MovedIndex(i, from, to) < |q| && Moved(q, from, to)[MovedIndex(i, from, to)] == q[i]
  {
    var rest := Removed(q, from);
    if i != from {
      assert rest[if i < from then i else i - 1] == q[i];
    }
  }

  lemma RemovedMultiset<T>(q: seq<T>, i: nat)
    requires i < |q|
    ensures multiset(Removed(q, i)) == multiset(q) - multiset{q[i]}
    ensures multiset(q) == multiset(Removed(q, i)) + multiset{q[i]}
  {
    assert q == q[..i] + [q[i]] + q[i + 1..];
  }

  lemma InsertedMultiset<T>(q: seq<T>, at: nat, block: seq<T>)
    requires at <= |q|
    ensures multiset(InsertedBlock(q, at, block)) == multiset(q) + multiset(block)
  {
    assert q == q[..at] + q[at..];
  }

  lemma MoveIsPermutation<T>(q: seq<T>, from: nat, to: nat)
    requires from < |q| && to < |q|
    ensures multiset(Moved(q, from, to)) == multiset(q)
  {
    RemovedMultiset(q, from);
    InsertedMultiset(Removed(q, from), to, [q[from]]);
  }

  lemma MoveTracksEveryOccurrence<T>(q: seq<T>, from: nat, to: nat)
    requires from < |q| && to < |q|
    ensures forall i :: 0 <= i < |q| ==> MovedIndex(i, from, to) < |q| && Moved(q, from, to)[MovedIndex(i, from, to)] == q[i]
    ensures forall i, j | 0 <= i < j < |q| :: MovedIndex(i, from, to) != MovedIndex(j, from, to)
    ensures multiset(Moved(q, from, to)) == multiset(q)
  {
    MoveIsPermutation(q, from, to);
    forall i | 0 <= i < |q|
      ensures MovedIndex(i, from, to) < |q| && Moved(q, from, to)[MovedIndex(i, from, to)] == q[i]
    {
      MoveTracks(q, from, to, i);
    }
  }

  lemma RemoveTracksEveryOccurrence<T>(q: seq<T>, pos: nat)
    requires pos < |q|
    ensures forall i {:trigger RemovedIndex(i, pos)} :: 0 <= i < |q| ==>
      match RemovedIndex(i, pos)
      case None => i == pos
      case Some(j) => j < |q| - 1 && Removed(q, pos)[j] == q[i]
    ensures multiset(Removed(q, pos)) + multiset{q[pos]} == multiset(q)
  {
    RemovedMultiset(q, pos);
  }

  lemma InsertTracksEveryOccurrence<T>(q: seq<T>, at: nat, block: seq<T>)
    requires at <= |q|
    ensures forall i {:trigger InsertedIndex(i, at, |block|)} :: 0 <= i < |q| ==>
      InsertedBlock(q, at, block)[InsertedIndex(i, at, |block|)] == q[i]
    ensures InsertedBlock(q, at, block)[at..at + |block|] == block
    ensures multiset(InsertedBlock(q, at, block)) == multiset(q) + multiset(block)
  {
    InsertedMultiset(q, at, block);
  }

  // Taking the current entry out, permuting the rest and putting it back.
  lemma ShuffleKeepsCurrent<T>(q: seq<T>, cur: nat, rest: seq<T>)
    requires cur < |q| && |rest| == |q| - 1
    requires multiset(rest) == multiset(Removed(q, cur))
    ensures InsertedBlock(rest, cur, [q[cur]])[cur] == q[cur]
    ensures multiset(InsertedBlock(rest, cur, [q[cur]])) == multiset(q)
  {
    RemovedMultiset(q, cur);
    InsertedMultiset(rest, cur, [q[cur]]);
  }

  // ----- the tests that decide whether the preloaded next track must be redone

  predicate MoveResyncs(cur: nat, from: nat, to: nat) {
    var hi := if from > to then from else to;
    var lo := if from > to then to else from;
    !(hi < cur || lo > cur + 1)
  }

  // `All` on the last entry: the successor is entry 0.
  predicate Wraps(mode: RepeatMode, cur: nat, queueLen: nat) {
    mode == All && cur + 1 == queueLen
  }

  lemma MovedHead<T>(q: seq<T>, from: nat, to: nat)
    requires from < |q| && to < |q| && from != to
    ensures Moved(q, from, to)[0] == if from == 0 then q[1] else if to == 0 then q[from] else q[0]
  {
  }

  // NextAuto for a position inside the queue, without the modulus.
  lemma NextIndexCases(mode: RepeatMode, cur: nat, queueLen: nat)
    requires cur < queueLen
    ensures mode.NextAuto(cur, queueLen) ==
            if mode == One then Some(cur)
            else if cur + 1 < queueLen then Some(cur + 1)
            else if mode == All then Some(0)
            else None
  {
  }

  // Move: without a resync the next-up entry is untouched, except that under a wrap it is
  // whatever now stands first.
  lemma MoveSkipIsSound<T>(q: seq<T>, cur: nat, from: nat, to: nat, mode: RepeatMode)
    requires cur < |q| && from < |q| && to < |q| && from != to
    requires !MoveResyncs(cur, from, to)
    ensures MovedIndex(cur, from, to) == cur
    ensures !Wraps(mode, cur, |q|) ==> NextUp(Moved(q, from, to), cur, mode) == NextUp(q, cur, mode)
    ensures Wraps(mode, cur, |q|) ==>
              && NextUp(q, cur, mode) == Some(q[0])
              && NextUp(Moved(q, from, to), cur, mode) ==
                 Some(if from == 0 then q[1] else if to == 0 then q[from] else q[0])
  {
    NextIndexCases(mode, cur, |q|);
    if Wraps(mode, cur, |q|) {
      assert from < cur && to < cur;
      MovedHead(q, from, to);
    } else if mode == One {
      MoveTracks(q, from, to, cur);
    } else if cur + 1 < |q| {
      MoveTracks(q, from, to, cur + 1);
    }
  }

  // Removing another entry that is not next-up.
  lemma RemoveSkipIsSound<T>(q: seq<T>, cur: nat, pos: nat, mode: RepeatMode)
    requires cur < |q| && pos < |q| && pos != cur && pos != cur + 1
    ensures RemovedIndex(cur, pos).Some? && RemovedIndex(cur, pos).value < |q| - 1
    ensures !(Wraps(mode, cur, |q|) && pos == 0) ==>
              NextUp(Removed(q, pos), RemovedIndex(cur, pos).value, mode) == NextUp(q, cur, mode)
    ensures Wraps(mode, cur, |q|) && pos == 0 ==>
              && NextUp(q, cur, mode) == Some(q[0])
              && NextUp(Removed(q, pos), RemovedIndex(cur, pos).value, mode) == Some(q[1])
  {
    NextIndexCases(mode, cur, |q|);
    NextIndexCases(mode, RemovedIndex(cur, pos).value, |q| - 1);
  }

  // Appending when the current entry is not the last one: sound in every mode.
  lemma AppendSkipIsSound<T>(q: seq<T>, cur: nat, songs: seq<T>, mode: RepeatMode)
    requires cur < |q| && cur + 1 != |q|
    ensures NextUp(q + songs, cur, mode) == NextUp(q, cur, mode)
  {
    NextIndexCases(mode, cur, |q|);
    NextIndexCases(mode, cur, |q + songs|);
  }

  // Inserting anywhere but right after the current entry: sound in every mode, because entry 0
  // never moves (`insert_at` is at least 1).
  lemma InsertSkipIsSound<T>(q: seq<T>, cur: nat, at: nat, block: seq<T>, mode: RepeatMode)
    requires cur < |q| && 1 <= at <= |q| && at != cur + 1
    ensures InsertedIndex(cur, at, |block|) < |q| + |block|
    ensures NextUp(InsertedBlock(q, at, block), InsertedIndex(cur, at, |block|), mode) == NextUp(q, cur, mode)
  {
    NextIndexCases(mode, cur, |q|);
    NextIndexCases(mode, InsertedIndex(cur, at, |block|), |q| + |block|);
  }

  // Clearing the history never resyncs.
  lemma ClearHistoryIsSound<T>(q: seq<T>, cur: nat, mode: RepeatMode)
    requires cur < |q|
    ensures q[..cur] + q[cur..] == q && q[cur..][0] == q[cur]
    ensures !Wraps(mode, cur, |q|) ==> NextUp(q[cur..], 0, mode) == NextUp(q, cur, mode)
    ensures Wraps(mode, cur, |q|) ==> NextUp(q, cur, mode) == Some(q[0]) && NextUp(q[cur..], 0, mode) == Some(q[cur])
  {
    NextIndexCases(mode, cur, |q|);
    NextIndexCases(mode, 0, |q| - cur);
  }
}
