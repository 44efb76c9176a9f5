/** Actor references and the distributed pub-sub mediator as the subscription
    managers see it: one request per topic, each of which the mediator may fail
    to acknowledge in time. */
module Mediator {
  import opened Wrappers

  /** An actor, identified by its path. */
  datatype ActorRef = ActorRef(path: string)

  datatype MediatorRequest =
    | SubscribeTopic(topic: string, subscriber: ActorRef)
    | UnsubscribeTopic(topic: string, subscriber: ActorRef)

  /** Requests sent concurrently and awaited together (`Task.WhenAll`). `failure` is the
      exception the await rethrows, if any request failed. */
  datatype FanOut = FanOut(requests: seq<MediatorRequest>, failure: Option<string>)

  /** The position of the first faulted request among positions `lo` up to, but excluding, `hi`.
      `faults` maps the position of every request that failed to its exception message. */
  function FirstFaultAt(faults: map<int, string>, lo: int, hi: int): (r: Option<int>)
    ensures r.None? <==> forall i :: lo <= i < hi ==> i !in faults
    ensures r.Some? ==> lo <= r.value < hi && r.value in faults
                        && (forall j :: lo <= j < r.value ==> j !in faults)
    decreases hi - lo
  {
    if lo >= hi then None
    else if lo in faults then Some(lo)
    else
      var r := FirstFaultAt(faults, lo + 1, hi);
      assert r.Some? ==> forall j :: lo <= j < r.value ==> j !in faults;
      r
  }

  /** The message of the first faulted request among positions `lo` up to, but excluding, `hi`
      (`await Task.WhenAll` rethrows the first inner exception, in task order). */
  function FirstFault(faults: map<int, string>, lo: int, hi: int): (r: Option<string>)
    ensures r.None? <==> forall i :: lo <= i < hi ==> i !in faults
    ensures r.Some? ==> exists i :: lo <= i < hi && i in faults && faults[i] == r.value
                                    && (forall j :: lo <= j < i ==> j !in faults)
  {
    match FirstFaultAt(faults, lo, hi)
    case None => None
    case Some(i) => Some(faults[i])
  }

  /** Asks the mediator to subscribe `subscriber` to every topic, all at once. */
  function SubscribeTopics(topics: seq<string>, subscriber: ActorRef, faults: map<int, string>): (r: FanOut)
    ensures |r.requests| == |topics|
    ensures forall i :: 0 <= i < |topics| ==> r.requests[i] == SubscribeTopic(topics[i], subscriber)
    ensures r.failure.None? <==> forall i :: 0 <= i < |topics| ==> i !in faults
  {
    FanOut(seq(|topics|, i requires 0 <= i < |topics| => SubscribeTopic(topics[i], subscriber)),
           FirstFault(faults, 0, |topics|))
  }

  /** Asks the mediator to unsubscribe `subscriber` from every topic, all at once. */
  function UnsubscribeTopics(topics: seq<string>, subscriber: ActorRef, faults: map<int, string>): (r: FanOut)
    ensures |r.requests| == |topics|
    ensures forall i :: 0 <= i < |topics| ==> r.requests[i] == UnsubscribeTopic(topics[i], subscriber)
    ensures r.failure.None? <==> forall i :: 0 <= i < |topics| ==> i !in faults
  {
    FanOut(seq(|topics|, i requires 0 <= i < |topics| => UnsubscribeTopic(topics[i], subscriber)),
           FirstFault(faults, 0, |topics|))
  }
}
