/** The routing rule of the entrance route: classify a move request by its
    preferred route, compute the transit delay for that route, and forward the
    request unchanged to the one matching outbound channel, or drop it. */
module MobilityRoute {
  import opened MoveLogs

  /** The two tags the route recognises; the comparison is exact and case-sensitive. */
  const ElevatorTag: string := "elevator"
  const StairsTag: string := "stairs"

  /** Delay per floor, in milliseconds, as the route multiplies it. */
  const ElevatorMsPerFloor: nat := 10000
  const StairsMsPerFloor: nat := 30000

  /** Outcome of the `choice()`: one of its two `when` branches, or neither. */
  datatype Decision = Elevator | Stairs | Unroutable

  /** The two outbound topics. */
  datatype Channel = ElevatorTopic | StairsTopic

  /** One message sent to an outbound topic, held back `delayMs` before it goes. */
  datatype Publication = Publication(channel: Channel, payload: MoveLog, delayMs: nat)

  /** The `choice()`: the elevator branch is tried first, then the stairs branch. */
  function Classify(m: MoveLog): (d: Decision)
    ensures d == Elevator <==> m.preferredRoute == ElevatorTag
    ensures d == Stairs <==> m.preferredRoute == StairsTag
    ensures d == Unroutable <==> m.preferredRoute != ElevatorTag && m.preferredRoute != StairsTag
  {
    if m.preferredRoute == ElevatorTag then Elevator
    else if m.preferredRoute == StairsTag then Stairs
    else Unroutable
  }

  /** The topic a routed decision sends to. */
  function ChannelFor(d: Decision): (c: Channel)
    requires d != Unroutable
    ensures c == ElevatorTopic <==> d == Elevator
  {
    if d == Elevator then ElevatorTopic else StairsTopic
  }

  /** The `delay(...)` of a branch: destination floors at the branch's per-floor cost.
      The drop path computes no delay, hence the precondition. */
  function DelayFor(d: Decision, destination: nat): (ms: nat)
    requires d != Unroutable
    ensures d == Elevator ==> ms == destination * ElevatorMsPerFloor
    ensures d == Stairs ==> ms == destination * StairsMsPerFloor
    ensures ms == 0 <==> destination == 0
  {
    if d == Elevator then destination * ElevatorMsPerFloor else destination * StairsMsPerFloor
  }

  /** What one inbound request causes: a list of at most one publication. The
      payload is the request itself, since marshalling back is taken as the
      inverse of the unmarshalling that produced it. */
  function Dispatch(m: MoveLog): (pubs: seq<Publication>)
    ensures |pubs| <= 1
    ensures |pubs| == 0 <==> Classify(m) == Unroutable
    ensures forall p :: p in pubs ==> p.payload == m
    ensures forall p :: p in pubs ==>
      p.channel == ChannelFor(Classify(m)) && p.delayMs == DelayFor(Classify(m), m.destination)
  {
    var d := Classify(m);
    if d == Unroutable then []
    else [Publication(ChannelFor(d), m, DelayFor(d, m.destination))]
  }

  /** Number of publications sent to channel `c`. */
  function CountOn(pubs: seq<Publication>, c: Channel): (n: nat)
    ensures n <= |pubs|
  {
    if pubs == [] then 0
    else (if pubs[0].channel == c then 1 else 0) + CountOn(pubs[1..], c)
  }

  /** Counting over a concatenation adds up. */
  lemma {:induction false} CountOnAppend(a: seq<Publication>, b: seq<Publication>, c: Channel)
    ensures CountOn(a + b, c) == CountOn(a, c) + CountOn(b, c)
  {
    if a == [] {
      assert a + b == b;
    } else {
      assert (a + b)[1..] == a[1..] + b;
      CountOnAppend(a[1..], b, c);
    }
  }

  /** Publications on the two channels together are all the publications. */
  lemma {:induction false} CountOnBoth(pubs: seq<Publication>)
    ensures CountOn(pubs, ElevatorTopic) + CountOn(pubs, StairsTopic) == |pubs|
  {
    if pubs != [] {
      CountOnBoth(pubs[1..]);
    }
  }

  /** An exact "elevator" request: one publication, on the elevator topic, none on
      the stairs topic, delayed by its floors at the elevator rate. */
  lemma ElevatorRouting(m: MoveLog)
    requires m.preferredRoute == ElevatorTag
    ensures Dispatch(m) == [Publication(ElevatorTopic, m, m.destination * ElevatorMsPerFloor)]
    ensures CountOn(Dispatch(m), ElevatorTopic) == 1
    ensures CountOn(Dispatch(m), StairsTopic) == 0
  {
  }

  /** An exact "stairs" request: one publication, on the stairs topic, none on the
      elevator topic, delayed by its floors at the stairs rate. */
  lemma StairsRouting(m: MoveLog)
    requires m.preferredRoute == StairsTag
    ensures Dispatch(m) == [Publication(StairsTopic, m, m.destination * StairsMsPerFloor)]
    ensures CountOn(Dispatch(m), StairsTopic) == 1
    ensures CountOn(Dispatch(m), ElevatorTopic) == 0
  {
  }

  /** Any other tag is dropped without a publication: there is no `otherwise()`. */
  lemma SilentDrop(m: MoveLog)
    requires m.preferredRoute != ElevatorTag && m.preferredRoute != StairsTag
    ensures Dispatch(m) == []
    ensures CountOn(Dispatch(m), ElevatorTopic) == 0 && CountOn(Dispatch(m), StairsTopic) == 0
  {
  }

  /** Case variants, the empty tag and a synonym are all dropped. */
  lemma NearMissesDropped(personId: int, destination: nat)
    ensures Dispatch(MoveLog(personId, destination, "Elevator")) == []
    ensures Dispatch(MoveLog(personId, destination, "STAIRS")) == []
    ensures Dispatch(MoveLog(personId, destination, "")) == []
    ensures Dispatch(MoveLog(personId, destination, "escalator")) == []
  {
  }

  /** The branches exclude each other: at most one publication per request, never
      one on each channel. */
  lemma Exclusivity(m: MoveLog)
    ensures CountOn(Dispatch(m), ElevatorTopic) + CountOn(Dispatch(m), StairsTopic) <= 1
    ensures !(CountOn(Dispatch(m), ElevatorTopic) > 0 && CountOn(Dispatch(m), StairsTopic) > 0)
  {
  }

  /** Ground floor means an immediate forward on either route. */
  lemma ZeroFloorZeroDelay(d: Decision)
    requires d != Unroutable
    ensures DelayFor(d, 0) == 0
  {
  }

  /** For a fixed route, more floors means a strictly longer delay. */
  lemma DelayStrictlyIncreasing(d: Decision, lo: nat, hi: nat)
    requires d != Unroutable
    requires lo < hi
    ensures DelayFor(d, lo) < DelayFor(d, hi)
  {
  }

  /** For a fixed route, the delay never decreases with the destination. */
  lemma DelayMonotone(d: Decision, lo: nat, hi: nat)
    requires d != Unroutable
    requires lo <= hi
    ensures DelayFor(d, lo) <= DelayFor(d, hi)
  {
  }

  /** The stairs take three times as long as the elevator for the same floors,
      so strictly longer above the ground floor and equally long at it. */
  lemma StairsTripleElevator(destination: nat)
    ensures DelayFor(Stairs, destination) == 3 * DelayFor(Elevator, destination)
    ensures destination > 0 ==> DelayFor(Stairs, destination) > DelayFor(Elevator, destination)
    ensures destination == 0 ==> DelayFor(Stairs, destination) == DelayFor(Elevator, destination)
  {
  }

  /** The forwarded payload carries the inbound fields unchanged. */
  lemma PayloadPreserved(m: MoveLog, p: Publication)
    requires p in Dispatch(m)
    ensures p.payload.personId == m.personId
    ensures p.payload.destination == m.destination
    ensures p.payload.preferredRoute == m.preferredRoute
  {
  }

  /** The two recorded scenarios: person 1 to floor 1 by elevator, then by stairs. */
  lemma RecordedScenarios()
    ensures Dispatch(MoveLog(1, 1, "elevator")) == [Publication(ElevatorTopic, MoveLog(1, 1, "elevator"), 10000)]
    ensures Dispatch(MoveLog(1, 1, "stairs")) == [Publication(StairsTopic, MoveLog(1, 1, "stairs"), 30000)]
  {
  }
}
