// Songs, now-playing data and repeat modes shared by the daemon modules.
module Models {
  import opened Wrappers

  // The fields of a song the modelled code reads; the others are only carried along.
  datatype Child = Child(
    id: string,
    userRating: Option<nat>,
    year: Option<int>,
    duration: Option<int>,
    genre: Option<string>,
    artist: Option<string>,
    starred: Option<string>)

  datatype PlaybackState = Stopped | Playing | Paused

  datatype NowPlaying = NowPlaying(song: Option<Child>, state: PlaybackState, position: real, duration: real)

  const NOTHING_PLAYING := NowPlaying(None, Stopped, 0.0, 0.0)

  function DurationOf(song: Child): real {
    if song.duration.Some? then song.duration.value as real else 0.0
  }

  // The tick fills in a missing duration once mpv knows it.
  function Backfilled(np: NowPlaying, secs: real): NowPlaying {
    if secs > 0.0 && np.duration <= 0.0 then np.(duration := secs) else np
  }

  datatype RepeatMode = Off | One | All {
    // Successor at the natural end of a track.
    function NextAuto(current: nat, queueLen: nat): (next: Option<nat>)
      ensures next.Some? && current < queueLen ==> next.value < queueLen
    {
      if queueLen == 0 then None
      else match this
        case One => Some(current)
        case All => Some((current + 1) % queueLen)
        case Off => if current + 1 < queueLen then Some(current + 1) else None
    }

    // Successor on a manual skip: `One` does not hold the user back.
    function NextManual(current: nat, queueLen: nat): (next: Option<nat>)
      ensures next.Some? ==> next.value < queueLen
    {
      if queueLen == 0 then None
      else match this
        case One => Some((current + 1) % queueLen)
        case All => Some((current + 1) % queueLen)
        case Off => if current + 1 < queueLen then Some(current + 1) else None
    }

    // Target of a manual Previous from entry 0.
    function PrevWrap(queueLen: nat): (prev: Option<nat>)
      ensures prev.Some? ==> prev.value < queueLen
    {
      if queueLen == 0 then None
      else match this
        case One => Some(queueLen - 1)
        case All => Some(queueLen - 1)
        case Off => None
    }
  }

  // Position reached after `k` automatic advances, `None` once the queue ran out.
  function AfterAdvances(mode: RepeatMode, start: nat, queueLen: nat, k: nat): Option<nat> {
    if k == 0 then Some(start)
    else
      var before := AfterAdvances(mode, start, queueLen, k - 1);
      if before.None? then None else mode.NextAuto(before.value, queueLen)
  }

  lemma MulSucc(q: nat, n: nat)
    ensures (q + 1) * n == q * n + n
  {
  }

  lemma MulAtLeast(d: int, n: nat)
    requires d >= 1
    ensures d * n >= n
  {
  }

  lemma ModUnique(a: nat, n: nat, q: nat, r: nat)
    requires n > 0 && r < n && a == q * n + r
    ensures a % n == r
  {
    var q', r' := a / n, a % n;
    assert (q - q') * n == r' - r;
    if q' < q {
      MulAtLeast(q - q', n);
    } else if q' > q {
      MulAtLeast(q' - q, n);
    }
  }

  lemma ModStep(a: nat, n: nat)
    requires n > 0
    ensures (a % n + 1) % n == (a + 1) % n
  {
    var q, r := a / n, a % n;
    assert a == q * n + r;
    if r + 1 == n {
      MulSucc(q, n);
      assert a + 1 == (q + 1) * n + 0;
      ModUnique(a + 1, n, q + 1, 0);
      ModUnique(n, n, 1, 0);
    } else {
      ModUnique(a + 1, n, q, r + 1);
      ModUnique(r + 1, n, 0, r + 1);
    }
  }

  // `Off` plays out the rest of the queue once and stops; `One` stays; `All` goes round the
  // queue, so any `queueLen` consecutive advances hear every entry exactly once.
  lemma {:induction false} AutoAdvanceOrder(mode: RepeatMode, start: nat, queueLen: nat, k: nat)
    requires start < queueLen
    ensures AfterAdvances(mode, start, queueLen, k) ==
            match mode
            case Off => if start + k < queueLen then Some(start + k) else None
            case One => Some(start)
            case All => Some((start + k) % queueLen)
  {
    if k > 0 {
      AutoAdvanceOrder(mode, start, queueLen, k - 1);
      if mode.All? {
        ModStep(start + k - 1, queueLen);
      }
    }
  }

  lemma RoundStep(a: nat, n: nat)
    requires n > 0
    ensures (a + 1) % n == if a % n + 1 < n then a % n + 1 else 0
  {
    ModStep(a, n);
    if a % n + 1 < n {
      ModUnique(a % n + 1, n, 0, a % n + 1);
    } else {
      ModUnique(n, n, 1, 0);
    }
  }

  // Position reached after `k` skips by hand.
  function AfterSkips(mode: RepeatMode, start: nat, queueLen: nat, k: nat): Option<nat> {
    if k == 0 then Some(start)
    else
      var before := AfterSkips(mode, start, queueLen, k - 1);
      if before.None? then None else mode.NextManual(before.value, queueLen)
  }

  // By hand, `One` goes round the queue like `All`; `Off` ends behind the last entry.
  lemma {:induction false} ManualSkipOrder(mode: RepeatMode, start: nat, queueLen: nat, k: nat)
    requires start < queueLen
    ensures AfterSkips(mode, start, queueLen, k) ==
            if mode == Off then (if start + k < queueLen then Some(start + k) else None)
            else Some((start + k) % queueLen)
  {
    if k > 0 {
      ManualSkipOrder(mode, start, queueLen, k - 1);
      if mode != Off {
        ModStep(start + k - 1, queueLen);
      }
    } else {
      ModUnique(start, queueLen, 0, start);
    }
  }

  // ----- changing every song

  function OverList(s: seq<Child>, f: Child -> Child): (r: seq<Child>)
    ensures |r| == |s| && forall i :: 0 <= i < |s| ==> r[i] == f(s[i])
  {
    seq(|s|, i requires 0 <= i < |s| => f(s[i]))
  }

  function OverPlaying(np: NowPlaying, f: Child -> Child): NowPlaying {
    if np.song.Some? then np.(song := Some(f(np.song.value))) else np
  }
}
