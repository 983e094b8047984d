/** The scrape handler of src/server/handler.rs: a scrape refreshes the measurements only when
    it wins the guard and the previous refresh is more than a second old, and a refresh runs
    every collector once and swallows their errors. Time is in milliseconds; whether the guard
    is free and what each collector returns are inputs. */
module ScrapeHandler {
  import opened Wrappers
  import opened Seqs

  /** `Duration::from_secs(1)`. */
  const MIN_INTERVAL_MS := 1000

  /** `Instant::elapsed`: the time since `since`, never negative. */
  function Elapsed(since: int, now: int): (e: nat)
    ensures now >= since ==> e == now - since
    ensures now < since ==> e == 0
  {
    if now >= since then now - since else 0
  }

  /** The condition of the `if let ... && ...` in `metrics`. */
  predicate ShouldRefresh(guardFree: bool, lastCollection: int, now: int) {
    guardFree && Elapsed(lastCollection, now) > MIN_INTERVAL_MS
  }

  /** Refreshes are rate-limited: once a scrape refreshed at `t1`, no scrape within the next
      second refreshes again, whoever holds the guard. */
  lemma AtMostOnePerSecond(t1: int, t2: int, guardFree: bool)
    requires t1 <= t2 <= t1 + MIN_INTERVAL_MS
    ensures !ShouldRefresh(guardFree, t1, t2)
  {
  }

  /** A busy guard never refreshes, and a free one refreshes exactly when more than a second
      has passed. */
  lemma RefreshCondition(guardFree: bool, lastCollection: int, now: int)
    ensures !guardFree ==> !ShouldRefresh(guardFree, lastCollection, now)
    ensures guardFree && now > lastCollection + MIN_INTERVAL_MS ==> ShouldRefresh(guardFree, lastCollection, now)
    ensures now == lastCollection + MIN_INTERVAL_MS ==> !ShouldRefresh(guardFree, lastCollection, now)
  {
  }

  predicate Failed(r: Result<()>) {
    r.Err?
  }

  /** The shared state a scrape sees: when the last refresh started, and how many times each
      registered collector's `collect` has been called. */
  class ScrapeState {
    var lastCollection: int
    var collectCalls: seq<nat>

    constructor(collectors: nat, start: int)
      ensures lastCollection == start
      ensures |collectCalls| == collectors && forall i :: 0 <= i < collectors ==> collectCalls[i] == 0
    {
      lastCollection := start;
      collectCalls := seq(collectors, _ => 0);
    }

    /** `refresh_measurements`: every collector is called once; `outcomes[i]` is what collector
        `i` returns. Failures are only counted (logged in the source), never returned. */
    method RefreshMeasurements(outcomes: seq<Result<()>>) returns (failures: nat)
      requires |outcomes| == |collectCalls|
      modifies this
      ensures |collectCalls| == |old(collectCalls)|
      ensures forall i :: 0 <= i < |collectCalls| ==> collectCalls[i] == old(collectCalls)[i] + 1
      ensures lastCollection == old(lastCollection)
      ensures failures == Count(outcomes, Failed)
    {
      failures := 0;
      ghost var before := collectCalls;
      for i := 0 to |outcomes|
        invariant |collectCalls| == |before| && lastCollection == old(lastCollection)
        invariant forall j :: 0 <= j < i ==> collectCalls[j] == before[j] + 1
        invariant forall j :: i <= j < |collectCalls| ==> collectCalls[j] == before[j]
        invariant failures == Count(outcomes[..i], Failed)
      {
        collectCalls := collectCalls[i := collectCalls[i] + 1];
        assert outcomes[..i + 1][..i] == outcomes[..i];
        if outcomes[i].Err? {
          failures := failures + 1;
        }
      }
      assert outcomes[..|outcomes|] == outcomes;
    }

    /** `metrics`: refresh if the guard is won and the last refresh is over a second old, then
        answer. The start of this refresh is recorded before the collectors run, so the next
        scrape after a refresh measures from the refresh's start; a scrape arriving during the
        refresh finds the guard held. The response is always produced;
        `refreshed` says whether collectors ran. */
    method Metrics(guardFree: bool, now: int, outcomes: seq<Result<()>>) returns (refreshed: bool)
      requires |outcomes| == |collectCalls|
      modifies this
      ensures refreshed == ShouldRefresh(guardFree, old(lastCollection), now)
      ensures refreshed ==> lastCollection == now
      ensures refreshed ==> |collectCalls| == |old(collectCalls)|
      ensures refreshed ==> forall i :: 0 <= i < |collectCalls| ==> collectCalls[i] == old(collectCalls)[i] + 1
      ensures !refreshed ==> lastCollection == old(lastCollection) && collectCalls == old(collectCalls)
    {
      refreshed := false;
      if guardFree && Elapsed(lastCollection, now) > MIN_INTERVAL_MS {
        lastCollection := now;
        var _ := RefreshMeasurements(outcomes);
        refreshed := true;
      }
    }
  }
}
