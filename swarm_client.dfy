/**
 * The capabilities the client's connection loop takes from a swarm client:
 * one discovery attempt against the master URL, sleeping, and exiting.
 * Discovery is an oracle giving the outcome of each attempt in turn; sleeping
 * adds to a running total and reports when that total has passed `waitLimit`
 * (the test double's 1000-second limit, or an external cancellation); exiting
 * yields the exception the test double throws instead of ending the process.
 */
module Swarm {
  import opened BackOff

  /** A reachable master found by discovery; its contents are not modelled. */
  datatype Candidate = Candidate(url: string)

  /** The outcome of one discovery attempt. `IOFailure` is the retryable
      connectivity error; `Fault` is any other failure. */
  datatype Discovery = Found(candidate: Candidate) | IOFailure | Fault(reason: string)

  /** The IllegalStateException the test double throws, told apart by its
      message: "Exited with status <status> after <seconds> seconds" or
      "Running long enough". */
  datatype Stop = ExitedAfter(status: int, seconds: int) | RunningLongEnough

  class SwarmClient {
    const discovery: nat -> Discovery
    const waitLimit: int
    var discovered: seq<Discovery>
    var totalWaitTime: int
    var sleeps: seq<int>

    /** Every attempt so far got the oracle's answer for its position, and the
        running total is the sum of every sleep so far. */
    ghost predicate Valid()
      reads this
    {
      (forall i :: 0 <= i < |discovered| ==> discovered[i] == discovery(i)) &&
      totalWaitTime == Sum(sleeps)
    }

    constructor (discovery: nat -> Discovery, waitLimit: int)
      ensures Valid()
      ensures this.discovery == discovery && this.waitLimit == waitLimit
      ensures discovered == [] && totalWaitTime == 0 && sleeps == []
    {
      this.discovery := discovery;
      this.waitLimit := waitLimit;
      discovered, totalWaitTime, sleeps := [], 0, [];
    }

    /** One discovery attempt; the oracle decides its outcome. */
    method DiscoverFromMasterUrl() returns (d: Discovery)
      requires Valid()
      modifies this`discovered
      ensures Valid()
      ensures d == discovery(|old(discovered)|)
      ensures discovered == old(discovered) + [d]
    {
      d := discovery(|discovered|);
      discovered := discovered + [d];
    }

    /** Sleeps `waitTime` seconds; the result tells whether the total has now
        passed the wait limit, at which point the sleeper gives up. */
    method SleepSeconds(waitTime: int) returns (longEnough: bool)
      requires Valid()
      modifies this`totalWaitTime, this`sleeps
      ensures Valid()
      ensures sleeps == old(sleeps) + [waitTime]
      ensures totalWaitTime == old(totalWaitTime) + waitTime
      ensures longEnough <==> totalWaitTime > waitLimit
    {
      SumSnoc(sleeps, waitTime);
      totalWaitTime := totalWaitTime + waitTime;
      sleeps := sleeps + [waitTime];
      longEnough := totalWaitTime > waitLimit;
    }

    /** Exiting with `status`: the exception reports the status and the
        seconds waited so far, and nothing changes. */
    method ExitWithStatus(status: int) returns (stop: Stop)
      ensures stop.ExitedAfter? && stop.status == status && stop.seconds == totalWaitTime
    {
      stop := ExitedAfter(status, totalWaitTime);
    }
  }
}
