/** Interleavings of concurrent streams: a schedule names, step by step, the stream that moves next. */
module Interleaving {

  /** How often stream `i` has moved. */
  function Count(sched: seq<nat>, i: nat): (count: nat)
    ensures count <= |sched|
  {
    if sched == [] then 0
    else Count(sched[..|sched| - 1], i) + if sched[|sched| - 1] == i then 1 else 0
  }

  /** No stream moves past its end. A schedule may stop before the streams do. */
  ghost predicate Schedule<T>(streams: seq<seq<T>>, sched: seq<nat>) {
    sched == [] ||
    var front, last := sched[..|sched| - 1], sched[|sched| - 1];
    Schedule(streams, front) && last < |streams| && Count(front, last) < |streams[last]|
  }

  function Merge<T>(streams: seq<seq<T>>, sched: seq<nat>): (merged: seq<T>)
    requires Schedule(streams, sched)
    ensures |merged| == |sched|
  {
    if sched == [] then []
    else
      var front, last := sched[..|sched| - 1], sched[|sched| - 1];
      Merge(streams, front) + [streams[last][Count(front, last)]]
  }
}
