/** The common shape of the two poll loops of the service layer: fetch a
    snapshot, stop on a fetch error or on a snapshot `done` accepts, else fetch
    again.  The fetches a run would see are given up front as a sequence. */
module Poll {
  import opened Wrappers

  /** A fetch outcome that ends the loop. */
  predicate Stops<S>(f: Result<S>, done: S -> bool)
  {
    f.Err? || done(f.value)
  }

  /** Some fetch in the sequence ends the loop, so a run over it terminates. */
  predicate EventuallyStops<S>(fetches: seq<Result<S>>, done: S -> bool)
  {
    exists k :: 0 <= k < |fetches| && Stops(fetches[k], done)
  }

  /** The index of the fetch that ends the loop. */
  function FirstStop<S>(fetches: seq<Result<S>>, done: S -> bool): (k: nat)
    requires EventuallyStops(fetches, done)
    ensures k < |fetches| && Stops(fetches[k], done)
    ensures forall j :: 0 <= j < k ==> !Stops(fetches[j], done)
    decreases |fetches|
  {
    if Stops(fetches[0], done) then 0
    else
      assert EventuallyStops(fetches[1..], done) by {
        var k :| 0 <= k < |fetches| && Stops(fetches[k], done);
        assert k > 0 && fetches[1..][k - 1] == fetches[k];
      }
      1 + FirstStop(fetches[1..], done)
  }

  /** The first stopping fetch is the only index with a stop and no earlier stop. */
  lemma FirstStopUnique<S>(fetches: seq<Result<S>>, done: S -> bool, k: nat)
    requires k < |fetches| && Stops(fetches[k], done)
    requires forall j :: 0 <= j < k ==> !Stops(fetches[j], done)
    ensures EventuallyStops(fetches, done) && FirstStop(fetches, done) == k
  {
    assert EventuallyStops(fetches, done);
  }

  /** Fetches after the stopping one are never looked at. */
  lemma {:induction false} FirstStopExtend<S>(fetches: seq<Result<S>>, more: seq<Result<S>>, done: S -> bool)
    requires EventuallyStops(fetches, done)
    ensures EventuallyStops(fetches + more, done)
    ensures FirstStop(fetches + more, done) == FirstStop(fetches, done)
    ensures (fetches + more)[FirstStop(fetches, done)] == fetches[FirstStop(fetches, done)]
    decreases |fetches|
  {
    var k := FirstStop(fetches, done);
    assert (fetches + more)[k] == fetches[k];
    assert EventuallyStops(fetches + more, done);
    if !Stops(fetches[0], done) {
      FirstStopExtend(fetches[1..], more, done);
      assert (fetches + more)[1..] == fetches[1..] + more;
    }
  }

  /** A snapshot that does not stop the loop is followed by another fetch. */
  lemma SkipSnapshot<S>(s: S, rest: seq<Result<S>>, done: S -> bool)
    requires !done(s) && EventuallyStops(rest, done)
    ensures EventuallyStops([Ok(s)] + rest, done)
    ensures FirstStop([Ok(s)] + rest, done) == 1 + FirstStop(rest, done)
    ensures ([Ok(s)] + rest)[FirstStop([Ok(s)] + rest, done)] == rest[FirstStop(rest, done)]
  {
    var k := FirstStop(rest, done);
    var all := [Ok(s)] + rest;
    assert all[k + 1] == rest[k];
    forall j | 0 <= j < k + 1 ensures !Stops(all[j], done) {
      if j > 0 { assert all[j] == rest[j - 1]; }
    }
    FirstStopUnique(all, done, k + 1);
  }
}
