/** The route is a consumer of the entrance topic: it applies the rule to every
    inbound record, each independently. Publications are listed here in the order
    the records arrived, which is not the order in which their delays expire. */
module RouteStream {
  import opened MoveLogs
  import opened MobilityRoute

  /** Everything the route publishes for a sequence of inbound records. */
  function DispatchAll(ms: seq<MoveLog>): (pubs: seq<Publication>)
    ensures |pubs| <= |ms|
  {
    if ms == [] then [] else Dispatch(ms[0]) + DispatchAll(ms[1..])
  }

  /** Number of records whose tag is exactly `tag`. */
  function CountTagged(ms: seq<MoveLog>, tag: string): (n: nat)
    ensures n <= |ms|
  {
    if ms == [] then 0
    else (if ms[0].preferredRoute == tag then 1 else 0) + CountTagged(ms[1..], tag)
  }

  /** Number of records the route drops. */
  function CountDropped(ms: seq<MoveLog>): (n: nat)
    ensures n <= |ms|
  {
    if ms == [] then 0
    else (if Classify(ms[0]) == Unroutable then 1 else 0) + CountDropped(ms[1..])
  }

  /** The elevator topic receives exactly one message per "elevator" record. */
  lemma {:induction false} ElevatorCountMatchesTags(ms: seq<MoveLog>)
    ensures CountOn(DispatchAll(ms), ElevatorTopic) == CountTagged(ms, ElevatorTag)
  {
    if ms != [] {
      CountOnAppend(Dispatch(ms[0]), DispatchAll(ms[1..]), ElevatorTopic);
      ElevatorCountMatchesTags(ms[1..]);
    }
  }

  /** The stairs topic receives exactly one message per "stairs" record. */
  lemma {:induction false} StairsCountMatchesTags(ms: seq<MoveLog>)
    ensures CountOn(DispatchAll(ms), StairsTopic) == CountTagged(ms, StairsTag)
  {
    if ms != [] {
      CountOnAppend(Dispatch(ms[0]), DispatchAll(ms[1..]), StairsTopic);
      StairsCountMatchesTags(ms[1..]);
    }
  }

  /** Messages sent plus records dropped account for every record consumed.
      That each routable record is sent exactly once is ForwardedAreRoutable. */
  lemma {:induction false} ForwardedPlusDropped(ms: seq<MoveLog>)
    ensures |DispatchAll(ms)| + CountDropped(ms) == |ms|
  {
    if ms != [] {
      ForwardedPlusDropped(ms[1..]);
    }
  }

  /** Every publication is justified by an inbound record: it carries that record
      unchanged, on the channel and with the delay the rule assigns to it. */
  lemma {:induction false} PublicationsJustified(ms: seq<MoveLog>, p: Publication)
    requires p in DispatchAll(ms)
    ensures p.payload in ms
    ensures Classify(p.payload) != Unroutable
    ensures p.channel == ChannelFor(Classify(p.payload))
    ensures p.delayMs == DelayFor(Classify(p.payload), p.payload.destination)
  {
    if p in Dispatch(ms[0]) {
    } else {
      assert p in DispatchAll(ms[1..]);
      PublicationsJustified(ms[1..], p);
      assert forall x :: x in ms[1..] ==> x in ms;
    }
  }

  /** The records the route forwards, in arrival order. */
  function Routable(ms: seq<MoveLog>): (rs: seq<MoveLog>)
    ensures |rs| <= |ms|
  {
    if ms == [] then []
    else (if Classify(ms[0]) == Unroutable then [] else [ms[0]]) + Routable(ms[1..])
  }

  /** The payloads of a list of publications, in order. */
  function Payloads(pubs: seq<Publication>): (ps: seq<MoveLog>)
    ensures |ps| == |pubs|
  {
    if pubs == [] then [] else [pubs[0].payload] + Payloads(pubs[1..])
  }

  /** Payloads over a concatenation concatenate. */
  lemma {:induction false} PayloadsAppend(a: seq<Publication>, b: seq<Publication>)
    ensures Payloads(a + b) == Payloads(a) + Payloads(b)
  {
    if a == [] {
      assert a + b == b;
    } else {
      assert (a + b)[1..] == a[1..] + b;
      PayloadsAppend(a[1..], b);
    }
  }

  /** The forwarded payloads are exactly the routable records, one each: none is
      lost and none is duplicated. */
  lemma {:induction false} ForwardedAreRoutable(ms: seq<MoveLog>)
    ensures Payloads(DispatchAll(ms)) == Routable(ms)
    ensures multiset(Payloads(DispatchAll(ms))) == multiset(Routable(ms))
  {
    if ms != [] {
      PayloadsAppend(Dispatch(ms[0]), DispatchAll(ms[1..]));
      ForwardedAreRoutable(ms[1..]);
    }
  }

  /** Every routable record has its own publication in the output, on its topic
      and with its delay. */
  lemma {:induction false} RoutableRecordForwarded(ms: seq<MoveLog>, i: nat)
    requires i < |ms| && Classify(ms[i]) != Unroutable
    ensures Publication(ChannelFor(Classify(ms[i])), ms[i], DelayFor(Classify(ms[i]), ms[i].destination))
      in DispatchAll(ms)
  {
    if i > 0 {
      assert ms[1..][i - 1] == ms[i];
      RoutableRecordForwarded(ms[1..], i - 1);
    }
  }

  /** Every inbound record is an "elevator" record, a "stairs" record or dropped. */
  lemma TagsPartitionRecords(ms: seq<MoveLog>)
    ensures CountTagged(ms, ElevatorTag) + CountTagged(ms, StairsTag) + CountDropped(ms) == |ms|
  {
    CountOnBoth(DispatchAll(ms));
    ElevatorCountMatchesTags(ms);
    StairsCountMatchesTags(ms);
    ForwardedPlusDropped(ms);
  }
}
