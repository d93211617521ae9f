/**
 * The dashboard's history window: the samples received from the metrics
 * producer, oldest first, from which every sample older than the chart's
 * duration (measured against the newest sample, not against a clock) is
 * evicted whenever a new sample arrives.
 *
 * Timestamps are natural numbers of milliseconds; the age of a sample is
 * counted in whole seconds, truncated, like `Duration::as_secs`.
 */
module Window {

  /** One metrics snapshot: when it was taken and how many root metrics it has. */
  datatype Sample = Sample(ts: nat, rootCount: nat)

  const MillisPerSecond: nat := 1000
  const OneMinute: nat := 60
  /** Seconds of history kept for the chart. */
  const ChartDuration: nat := OneMinute

  /**
   * Whole seconds between `ts` and `now`: the elapsed time rounded down.
   * Subtracting a later instant from an earlier one saturates at zero, so a
   * sample "from the future" has age 0.
   */
  function Age(now: nat, ts: nat): (secs: nat)
    ensures now <= ts ==> secs == 0
    ensures ts <= now ==> secs * MillisPerSecond <= now - ts < (secs + 1) * MillisPerSecond
  {
    if ts <= now then (now - ts) / MillisPerSecond else 0
  }

  /** A sample survives eviction when its age is at most the chart duration. */
  predicate Retained(now: nat, s: Sample) {
    Age(now, s.ts) <= ChartDuration
  }

  /**
   * Drops samples from the front of `h` up to the first one that is retained
   * relative to `now`; that sample and everything after it stay.
   */
  function Evict(h: seq<Sample>, now: nat): (r: seq<Sample>)
    ensures |r| <= |h| && r == h[|h| - |r|..]
    ensures forall i :: 0 <= i < |h| - |r| ==> !Retained(now, h[i])
    ensures r != [] ==> Retained(now, r[0])
    decreases |h|
  {
    if h == [] then []
    else if Retained(now, h[0]) then h
    else Evict(h[1..], now)
  }

  /** Appends `s` to the history and evicts against the timestamp of `s`. */
  function Insert(h: seq<Sample>, s: Sample): (r: seq<Sample>)
    ensures r != [] && r[|r| - 1] == s
    ensures Retained(s.ts, r[0])
    ensures |r| <= |h| + 1 && r == (h + [s])[|h| + 1 - |r|..]
  {
    var r := Evict(h + [s], s.ts);
    assert Retained(s.ts, (h + [s])[|h|]);
    r
  }

  /** Samples in non-decreasing timestamp order, as the producer sends them. */
  ghost predicate Sorted(h: seq<Sample>) {
    forall i, j :: 0 <= i <= j < |h| ==> h[i].ts <= h[j].ts
  }

  /** `s` is no older than the newest sample of `h`. */
  predicate CanFollow(h: seq<Sample>, s: Sample) {
    h == [] || h[|h| - 1].ts <= s.ts
  }

  /** The samples of `h` that are retained relative to `now`, in order. */
  function Fresh(h: seq<Sample>, now: nat): seq<Sample> {
    if h == [] then []
    else if Retained(now, h[0]) then [h[0]] + Fresh(h[1..], now)
    else Fresh(h[1..], now)
  }

  /** An older timestamp never has a smaller age. */
  lemma AgeAntitone(now: nat, older: nat, newer: nat)
    requires older <= newer
    ensures Age(now, newer) <= Age(now, older)
  {
  }

  /** In a sorted history, once one sample is retained, all later ones are. */
  lemma {:induction false} SortedRetainedFrom(h: seq<Sample>, now: nat)
    requires Sorted(h) && h != [] && Retained(now, h[0])
    ensures forall i :: 0 <= i < |h| ==> Retained(now, h[i])
  {
    forall i | 0 <= i < |h| ensures Retained(now, h[i]) {
      AgeAntitone(now, h[0].ts, h[i].ts);
    }
  }

  /**
   * On a sorted history, eviction from the front keeps exactly the retained
   * samples: it agrees with filtering the whole history.
   */
  lemma {:induction false} EvictSortedIsFresh(h: seq<Sample>, now: nat)
    requires Sorted(h)
    ensures Evict(h, now) == Fresh(h, now)
    decreases |h|
  {
    if h != [] {
      if Retained(now, h[0]) {
        SortedRetainedFrom(h, now);
        AllRetainedFresh(h, now);
      } else {
        EvictSortedIsFresh(h[1..], now);
      }
    }
  }

  lemma {:induction false} AllRetainedFresh(h: seq<Sample>, now: nat)
    requires forall i :: 0 <= i < |h| ==> Retained(now, h[i])
    ensures Fresh(h, now) == h
    decreases |h|
  {
    if h != [] {
      AllRetainedFresh(h[1..], now);
    }
  }

  lemma AppendSorted(h: seq<Sample>, s: Sample)
    requires Sorted(h) && CanFollow(h, s)
    ensures Sorted(h + [s])
  {
    var hs := h + [s];
    forall i, j | 0 <= i <= j < |hs| ensures hs[i].ts <= hs[j].ts {
      if j == |h| && i < |h| {
        assert hs[i].ts <= h[|h| - 1].ts;
      }
    }
  }

  lemma SuffixSorted(h: seq<Sample>, k: nat)
    requires Sorted(h) && k <= |h|
    ensures Sorted(h[k..])
  {
    var r := h[k..];
    forall i, j | 0 <= i <= j < |r| ensures r[i].ts <= r[j].ts {
      assert r[i] == h[k + i] && r[j] == h[k + j];
    }
  }

  /** Appending an in-order sample and evicting keeps the history sorted. */
  lemma InsertSorted(h: seq<Sample>, s: Sample)
    requires Sorted(h) && CanFollow(h, s)
    ensures Sorted(Insert(h, s))
  {
    AppendSorted(h, s);
    var r := Insert(h, s);
    SuffixSorted(h + [s], |h| + 1 - |r|);
  }

  /**
   * With samples arriving in order, every sample left in the window after an
   * insertion is at most the chart duration older than the new sample, and
   * every sample of the old window that is that young is still there.
   */
  lemma InsertSortedKeepsFreshOnly(h: seq<Sample>, s: Sample)
    requires Sorted(h) && CanFollow(h, s)
    ensures Insert(h, s) == Fresh(h + [s], s.ts)
    ensures forall x :: x in Insert(h, s) ==> Retained(s.ts, x)
  {
    InsertSorted(h, s);
    SortedRetainedFrom(Insert(h, s), s.ts);
    AppendSorted(h, s);
    EvictSortedIsFresh(h + [s], s.ts);
  }

  /** Inserting samples at 0, 10, 20 and 70 seconds leaves those at 10, 20 and 70 seconds. */
  lemma BoundaryScenario()
    ensures Insert(Insert(Insert(Insert([], Sample(0, 1)), Sample(10000, 1)), Sample(20000, 1)), Sample(70000, 1))
         == [Sample(10000, 1), Sample(20000, 1), Sample(70000, 1)]
  {
    var s0, s10, s20, s70 := Sample(0, 1), Sample(10000, 1), Sample(20000, 1), Sample(70000, 1);
    assert [] + [s0] == [s0];
    assert Age(0, 0) == 0;
    var h0 := Insert([], s0);
    assert h0 == [s0];
    assert Age(10000, 0) == 10;
    assert h0 + [s10] == [s0, s10];
    var h1 := Insert(h0, s10);
    assert h1 == [s0, s10];
    assert Age(20000, 0) == 20;
    assert h1 + [s20] == [s0, s10, s20];
    var h2 := Insert(h1, s20);
    assert h2 == [s0, s10, s20];
    assert Age(70000, 0) == 70;
    assert Age(70000, 10000) == 60;
    var h3 := h2 + [s70];
    assert h3 == [s0, s10, s20, s70];
    assert h3[1..] == [s10, s20, s70];
    assert Evict(h3[1..], 70000) == h3[1..];
    assert Evict(h3, 70000) == Evict(h3[1..], 70000);
  }
}
