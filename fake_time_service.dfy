/** The fake time service: `Now` serves the configured times one by one. */
module FakeTimeService {
  /** A point in time, as a count of nanoseconds; only the order of times matters here. */
  type Time = int

  class FakeService {
    var nowTimes: seq<Time>

    constructor (times: seq<Time>)
      ensures nowTimes == times
    {
      nowTimes := times;
    }

    /** Returns the oldest configured time and drops it. The fake reads the first time
        before looking at the length, so it demands that one is configured. */
    method Now() returns (t: Time)
      requires nowTimes != []
      modifies this
      ensures t == old(nowTimes)[0]
      ensures nowTimes == old(nowTimes)[1..]
      ensures |nowTimes| == |old(nowTimes)| - 1
    {
      t := nowTimes[0];
      if |nowTimes| > 0 {
        nowTimes := nowTimes[1..];
      }
    }
  }

  /** Configures `times` on a new fake and calls `Now` once per time: the times come back in
      the configured order and none is left. */
  method NowInOrder(times: seq<Time>) returns (served: seq<Time>, left: nat)
    ensures served == times
    ensures left == 0
  {
    var service := new FakeService(times);
    served := [];
    var i := 0;
    while i < |times|
      invariant 0 <= i <= |times|
      invariant service.nowTimes == times[i..]
      invariant served == times[..i]
    {
      var t := service.Now();
      served := served + [t];
      i := i + 1;
    }
    left := |service.nowTimes|;
  }
}
